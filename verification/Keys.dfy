// State-map keys: typed keys, the strings key_builder.go renders them to, and
// when two rendered keys can be equal.
module Keys {
  import opened Records
  import opened Text

  // What a key says, apart from the server it belongs to.
  datatype LocalKey =
    | FileKey(fileId: nat)
    | TimeKey(fileId: nat, streamId: int)
    | PathKey(dictId: nat)
    | DictIdKey(dictId: nat)
    | UserKey(protocol: string, username: string, pid: nat, sid: nat, host: string)
    | ServerKey

  const TWO_TO_THE_32 := 0x1_0000_0000

  // uint32(info.Pid) and uint32(info.Sid) keep the low 32 bits.
  function UserKeyOf(info: UserInfo): LocalKey
  {
    UserKey(info.protocol, info.username, info.pid % TWO_TO_THE_32, info.sid % TWO_TO_THE_32, info.host)
  }

  function Identity(k: LocalKey): string
    requires k.UserKey?
  {
    k.protocol + "/" + k.username + "." + Decimal(k.pid) + ":" + Decimal(k.sid) + "@" + k.host
  }

  function Render(server: string, k: LocalKey): string
  {
    match k
    case FileKey(id) => server + "-file-" + Decimal(id)
    case TimeKey(id, sid) => server + "-time-" + Decimal(id) + "-" + SignedDecimal(sid)
    case PathKey(id) => server + "-dict-" + Decimal(id)
    case DictIdKey(id) => server + "-dictid-" + Decimal(id)
    case UserKey(_, _, _, _, _) => server + "-userinfo-" + Identity(k)
    case ServerKey => server
  }

  function ServerId(serverStart: int, remoteAddr: string): string
  {
    SignedDecimal(serverStart) + "#" + remoteAddr
  }

  // ---- The builder

  class KeyBuilder {
    var buf: string

    constructor ()
      ensures buf == ""
    {
      buf := "";
    }

    method WriteByte(b: char)
      modifies this
      ensures buf == old(buf) + [b]
    {
      buf := buf + [b];
    }

    method WriteString(s: string)
      modifies this
      ensures buf == old(buf) + s
    {
      buf := buf + s;
    }

    method WriteUint32(n: nat)
      modifies this
      ensures buf == old(buf) + Decimal(n)
    {
      buf := buf + Decimal(n);
    }

    method WriteInt64(n: int)
      modifies this
      ensures buf == old(buf) + SignedDecimal(n)
    {
      buf := buf + SignedDecimal(n);
    }

    // Back to the pool: empty, ready for the next key.
    method Release()
      modifies this
      ensures buf == ""
    {
      buf := "";
    }
  }

  method BuildDictKey(server: string, dictId: nat) returns (key: string)
    ensures key == Render(server, PathKey(dictId))
  {
    hide Decimal, SignedDecimal;
    var kb := new KeyBuilder();
    kb.WriteString(server);
    kb.WriteString("-dict-");
    kb.WriteUint32(dictId);
    key := kb.buf;
    kb.Release();
  }

  method BuildDictIDKey(server: string, dictId: nat) returns (key: string)
    ensures key == Render(server, DictIdKey(dictId))
  {
    hide Decimal, SignedDecimal;
    var kb := new KeyBuilder();
    kb.WriteString(server);
    kb.WriteString("-dictid-");
    kb.WriteUint32(dictId);
    key := kb.buf;
    kb.Release();
  }

  method BuildFileKey(server: string, fileId: nat) returns (key: string)
    ensures key == Render(server, FileKey(fileId))
  {
    hide Decimal, SignedDecimal;
    var kb := new KeyBuilder();
    kb.WriteString(server);
    kb.WriteString("-file-");
    kb.WriteUint32(fileId);
    key := kb.buf;
    kb.Release();
  }

  method BuildTimeKey(server: string, fileId: nat, sid: int) returns (key: string)
    ensures key == Render(server, TimeKey(fileId, sid))
  {
    hide Decimal, SignedDecimal;
    var kb := new KeyBuilder();
    kb.WriteString(server);
    kb.WriteString("-time-");
    kb.WriteUint32(fileId);
    kb.WriteByte('-');
    kb.WriteInt64(sid);
    key := kb.buf;
    kb.Release();
  }

  method BuildUserInfoKey(server: string, info: UserInfo) returns (key: string)
    ensures key == Render(server, UserKeyOf(info))
  {
    hide Decimal, SignedDecimal;
    var kb := new KeyBuilder();
    kb.WriteString(server);
    kb.WriteString("-userinfo-");
    kb.WriteString(info.protocol);
    kb.WriteByte('/');
    kb.WriteString(info.username);
    kb.WriteByte('.');
    kb.WriteUint32(info.pid % TWO_TO_THE_32);
    kb.WriteByte(':');
    kb.WriteUint32(info.sid % TWO_TO_THE_32);
    kb.WriteByte('@');
    kb.WriteString(info.host);
    key := kb.buf;
    assert key == server + "-userinfo-" + Identity(UserKeyOf(info));
    kb.Release();
  }

  method BuildServerID(serverStart: int, remoteAddr: string) returns (key: string)
    ensures key == ServerId(serverStart, remoteAddr)
  {
    var kb := new KeyBuilder();
    kb.WriteInt64(serverStart);
    kb.WriteByte('#');
    kb.WriteString(remoteAddr);
    key := kb.buf;
    kb.Release();
  }

  // ---- Server ids

  lemma DigitsOnly(n: nat, c: char)
    requires !IsDigit(c)
    ensures c !in Decimal(n)
  {}

  lemma ServerIdInjective(start: int, addr: string, start': int, addr': string)
    requires ServerId(start, addr) == ServerId(start', addr')
    ensures start == start' && addr == addr'
  {
    var m, n := if start < 0 then -start else start, if start' < 0 then -start' else start';
    DigitsOnly(m, '#');
    DigitsOnly(n, '#');
    CutUnique(SignedDecimal(start), '#', addr, SignedDecimal(start'), addr');
    SignedDecimalInjective(start, start');
  }

  // ---- File, time and dictionary keys: injective for all servers and ids

  predicate InFileMap(k: LocalKey) { k.FileKey? || k.TimeKey? }
  predicate InDictMap(k: LocalKey) { k.PathKey? || k.DictIdKey? }

  lemma EndsUnique(a: string, m: nat, a': string, n: nat)
    requires a + "-" + Decimal(m) == a' + "-" + Decimal(n)
    ensures a == a' && m == n
  {
    DigitsOnly(m, '-');
    DigitsOnly(n, '-');
    CutUnique(a, '-', Decimal(m), a', Decimal(n));
    DecimalInjective(m, n);
  }

  lemma LastOf(a: string, b: string)
    requires b != ""
    ensures (a + b)[|a + b| - 1] == b[|b| - 1]
  {}

  lemma DictKeysInjective(s: string, k: LocalKey, s': string, k': LocalKey)
    requires InDictMap(k) && InDictMap(k')
    requires Render(s, k) == Render(s', k')
    ensures s == s' && k == k'
  {
    var word, word' := if k.PathKey? then "-dict" else "-dictid", if k'.PathKey? then "-dict" else "-dictid";
    assert Render(s, k) == (s + word) + "-" + Decimal(k.dictId);
    assert Render(s', k') == (s' + word') + "-" + Decimal(k'.dictId);
    EndsUnique(s + word, k.dictId, s' + word', k'.dictId);
    LastOf(s, word);
    LastOf(s', word');
    assert word == word';
    assert s == (s + word)[..|s|] && s' == (s' + word)[..|s'|];
  }

  // The text before the last '-' of a file-map key.
  function Stem(s: string, k: LocalKey): string
    requires InFileMap(k)
  {
    if k.FileKey? then s + "-file"
    else s + "-time-" + Decimal(k.fileId) + if k.streamId < 0 then "-" else ""
  }

  lemma FileKeyStem(s: string, k: LocalKey)
    requires InFileMap(k)
    ensures var n := if k.FileKey? then k.fileId else if k.streamId < 0 then -k.streamId else k.streamId;
            Render(s, k) == Stem(s, k) + "-" + Decimal(n)
  {}

  lemma FileKeysInjective(s: string, k: LocalKey, s': string, k': LocalKey)
    requires InFileMap(k) && InFileMap(k')
    requires Render(s, k) == Render(s', k')
    ensures s == s' && k == k'
  {
    FileKeyStem(s, k);
    FileKeyStem(s', k');
    var n := if k.FileKey? then k.fileId else if k.streamId < 0 then -k.streamId else k.streamId;
    var n' := if k'.FileKey? then k'.fileId else if k'.streamId < 0 then -k'.streamId else k'.streamId;
    EndsUnique(Stem(s, k), n, Stem(s', k'), n');
    StemsInjective(s, k, s', k');
  }

  lemma StemEnd(s: string, k: LocalKey)
    requires InFileMap(k)
    ensures var stem := Stem(s, k);
            && stem != ""
            && var c := stem[|stem| - 1];
               if k.FileKey? then c == 'e' else if k.streamId < 0 then c == '-' else IsDigit(c)
  {}

  lemma StemsInjective(s: string, k: LocalKey, s': string, k': LocalKey)
    requires InFileMap(k) && InFileMap(k')
    requires Stem(s, k) == Stem(s', k')
    ensures s == s' && k.FileKey? == k'.FileKey?
    ensures k.TimeKey? ==> k.fileId == k'.fileId && (k.streamId < 0 <==> k'.streamId < 0)
  {
    StemEnd(s, k);
    StemEnd(s', k');
    if k.FileKey? {
      assert s == Stem(s, k)[..|s|] && s' == Stem(s, k)[..|s'|];
    } else {
      var a, a' := s + "-time-" + Decimal(k.fileId), s' + "-time-" + Decimal(k'.fileId);
      assert a == Stem(s, k)[..|a|] && a' == Stem(s', k')[..|a'|];
      assert a == (s + "-time") + "-" + Decimal(k.fileId);
      assert a' == (s' + "-time") + "-" + Decimal(k'.fileId);
      EndsUnique(s + "-time", k.fileId, s' + "-time", k'.fileId);
      assert s == (s + "-time")[..|s|] && s' == (s' + "-time")[..|s'|];
    }
  }

  // ---- User keys of different servers

  // The user infos the packet parser makes of a line of text, and those the
  // collector's parser makes.
  predicate PacketMade(i: UserInfo)
  {
    '/' !in i.protocol && ':' !in i.username && '@' !in i.host && InOneLine(i)
  }

  predicate CollectorMade(i: UserInfo)
  {
    '/' !in i.protocol && '@' !in i.protocol && '@' !in i.username && '.' !in i.username && InOneLine(i)
  }

  predicate InOneLine(i: UserInfo)
  {
    '\n' !in i.protocol && '\n' !in i.username && '\n' !in i.host
  }

  predicate Made(i: UserInfo) { PacketMade(i) || CollectorMade(i) }

  // The user info a user key is the key of.
  function InfoFrom(k: LocalKey): UserInfo
    requires k.UserKey?
  {
    UserInfo(k.protocol, k.username, k.pid, k.sid, k.host)
  }

  // The keys of such user infos.
  predicate Clean(k: LocalKey)
  {
    k.UserKey? ==> Made(InfoFrom(k)) && k.pid < TWO_TO_THE_32 && k.sid < TWO_TO_THE_32
  }

  predicate IsCollectorKey(k: LocalKey)
  {
    k.UserKey? && CollectorMade(InfoFrom(k)) && k.pid < TWO_TO_THE_32 && k.sid < TWO_TO_THE_32
  }

  lemma InfoOf(k: LocalKey)
    requires k.UserKey? && Clean(k)
    ensures Made(InfoFrom(k)) && UserKeyOf(InfoFrom(k)) == k
  {}

  const TAG := "-userinfo-"

  // Text that can stand in front of the tag inside a user key: what follows its
  // first '/' is part of a username of either parser's, or the text spells a
  // whole key of the collector's, whose host goes on.
  ghost predicate Absorbed(r: string)
  {
    && '\n' !in r
    && (|| ':' !in After(r, '/')
        || ('@' !in r && '.' !in After(r, '/'))
        || exists k: LocalKey :: IsCollectorKey(k) && Identity(k) == r)
  }

  // s' goes on from s in a way that user keys can be mistaken for each other.
  ghost predicate Continues(s: string, s': string)
  {
    s' == s + "-userinfo" || (s + TAG <= s' && Absorbed(s'[|s| + 10..]))
  }

  ghost predicate Apart(s: string, s': string)
  {
    !Continues(s, s') && !Continues(s', s)
  }

  lemma ApartFromItself(s: string)
    ensures Apart(s, s)
  {}

  // Of two ways to split a string, the later goes on from the earlier.
  lemma Overlap(a: string, b: string, c: string, d: string)
    requires a + b == c + d && |a| <= |c|
    ensures c == a + c[|a|..] && b == c[|a|..] + d
  {
    var w := a + b;
    assert a == w[..|a|] && c == w[..|c|] && b == w[|a|..];
  }

  lemma Assoc(a: string, b: string, c: string)
    ensures (a + b) + c == a + (b + c)
  {}

  lemma RenderUser(s: string, k: LocalKey)
    requires k.UserKey?
    ensures Render(s, k) == s + (TAG + Identity(k))
  {
    Assoc(s, TAG, Identity(k));
  }

  // A user key read as that of a longer server id.
  lemma SharedIsContinued(s: string, k: LocalKey, s': string, k': LocalKey)
    requires k.UserKey? && k'.UserKey? && Clean(k) && Clean(k')
    requires |s| < |s'| && Render(s, k) == Render(s', k')
    ensures Continues(s, s')
  {
    var more, inner := s'[|s|..], TAG + Identity(k');
    RenderUser(s, k);
    RenderUser(s', k');
    hide Identity, Absorbed, Render;
    Overlap(s, TAG + Identity(k), s', inner);
    if |more| < 10 {
      Overlap(more, inner, TAG, Identity(k));
      assert (TAG[|more|..] + Identity(k))[0] == TAG[|more|] == '-';
      assert more == TAG[..9] == "-userinfo";
    } else {
      Overlap(TAG, Identity(k), more, inner);
      var r := more[10..];
      Assoc(s, TAG, r);
      assert r == s'[|s| + 10..];
      InsideAKey(r, k, k');
    }
  }

  lemma IdentityIs(k: LocalKey)
    requires k.UserKey?
    ensures Identity(k) == k.protocol + "/" + Login(k)
  {}

  lemma InsideAKey(r: string, k: LocalKey, k': LocalKey)
    requires k.UserKey? && k'.UserKey? && Clean(k) && Identity(k) == r + (TAG + Identity(k'))
    ensures Absorbed(r)
  {
    KeyInOneLine(k);
    assert '\n' !in r by {
      assert forall c :: c in r ==> c in Identity(k);
    }
    if ':' in After(r, '/') {
      var r0, r1, rest := Before(r, '/'), After(r, '/'), TAG + Identity(k');
      CutFacts(r, '/');
      IdentityIs(k);
      AtSignInside(k');
      hide Identity, Login, Before, After;
      Assoc(r0 + "/", r1, rest);
      CutUnique(k.protocol, '/', Login(k), r0, r1 + rest);
      assert '@' in rest;
      InsideALogin(r0, r1, rest, k);
    }
  }

  lemma KeyInOneLine(k: LocalKey)
    requires k.UserKey? && InOneLine(InfoFrom(k))
    ensures '\n' !in Identity(k)
  {
    DigitsOnly(k.pid, '\n');
    DigitsOnly(k.sid, '\n');
    hide Decimal;
  }

  lemma AtSignInside(k: LocalKey)
    requires k.UserKey?
    ensures '@' in Identity(k)
  {
    var head := k.protocol + "/" + k.username + "." + Decimal(k.pid) + ":" + Decimal(k.sid);
    assert Identity(k)[|head|] == '@';
  }

  // A text with a ':' in front of a '-' inside a login: the login is the
  // collector's, and the text lies within its username or reaches into its host.
  lemma InsideALogin(p: string, r: string, rest: string, k: LocalKey)
    requires k.UserKey? && Clean(k) && k.protocol == p && Login(k) == r + rest
    requires rest != "" && rest[0] == '-' && '@' in rest && ':' in r
    ensures CollectorMade(InfoFrom(k))
    ensures ('@' !in p && '@' !in r && '.' !in r) || exists k0 :: IsCollectorKey(k0) && Identity(k0) == p + "/" + r
  {
    if PacketMade(InfoFrom(k)) || '.' in r {
      var c := if PacketMade(InfoFrom(k)) then ':' else '.';
      assert c in r && c !in k.username;
      var host := HostInside(r, rest, k);
      IdentityIs(k.(host := host));
      assert IsCollectorKey(k.(host := host)) && Identity(k.(host := host)) == p + "/" + r;
    } else {
      WithinUsername(r, rest, k);
    }
  }

  lemma WithinUsername(r: string, rest: string, k: LocalKey)
    requires k.UserKey? && Login(k) == r + rest && '.' !in r
    ensures forall c :: c in r ==> c in k.username
  {
    var more := "." + (Decimal(k.pid) + ":" + Tail(k));
    Assoc(k.username, ".", Decimal(k.pid) + ":" + Tail(k));
    hide Tail, Decimal;
    WithinFirst(r, rest, k.username, more);
    NextWithin(r, rest, k.username, more);
  }

  lemma NextWithin(r: string, rest: string, u: string, v: string)
    requires r + rest == u + v && v != ""
    ensures |r| > |u| ==> v[0] in r
  {
    if |r| > |u| {
      assert r[|u|] == (u + v)[|u|] == v[0];
    }
  }

  // A text that is too much for the username reaches into the host.
  lemma HostInside(r: string, rest: string, k: LocalKey) returns (host: string)
    requires k.UserKey? && rest != "" && rest[0] == '-'
    requires Login(k) == r + rest && exists c :: c in r && c !in k.username
    ensures k.host == host + rest && Login(k.(host := host)) == r
  {
    var numbers := Decimal(k.pid) + ":" + (Decimal(k.sid) + "@");
    var head := k.username + "." + numbers;
    LoginIs(k);
    hide Login;
    DigitsOnly(k.pid, '-');
    DigitsOnly(k.sid, '-');
    assert '-' !in "." + numbers;
    Assoc(k.username, "." + numbers, k.host);
    Assoc(k.username, ".", numbers);
    ReachesBeyond(r, rest, k.username, "." + numbers, k.host);
    Overlap(head, k.host, r, rest);
    host := r[|head|..];
    LoginIs(k.(host := host));
  }

  // Text in front of a '-' that is too much for u takes in all of v as well,
  // which has no '-'.
  lemma ReachesBeyond(r: string, rest: string, u: string, v: string, w: string)
    requires r + rest == u + (v + w) && rest != "" && rest[0] == '-'
    requires '-' !in v
    requires exists c :: c in r && c !in u
    ensures |u + v| <= |r|
  {
    WithinFirst(r, rest, u, v + w);
    WithinSecond(r, rest, u, v, w);
  }

  lemma WithinFirst(r: string, rest: string, u: string, v: string)
    requires r + rest == u + v
    ensures |r| <= |u| ==> forall c :: c in r ==> c in u
  {
    assert |r| <= |u| ==> r == (u + v)[..|r|] == u[..|r|];
  }

  lemma WithinSecond(r: string, rest: string, u: string, v: string, w: string)
    requires r + rest == u + (v + w) && rest != ""
    ensures |u| <= |r| < |u + v| ==> rest[0] in v
  {
    if |u| <= |r| < |u + v| {
      assert rest[0] == (r + rest)[|r|] == v[|r| - |u|];
    }
  }

  lemma LoginIs(k: LocalKey)
    requires k.UserKey?
    ensures Login(k) == k.username + "." + (Decimal(k.pid) + ":" + (Decimal(k.sid) + "@")) + k.host
  {
    var d, e := Decimal(k.pid), Decimal(k.sid);
    assert d + ":" + (e + "@") + k.host == d + ":" + (e + "@" + k.host);
    assert k.username + "." + (d + ":" + (e + "@")) + k.host == k.username + "." + (d + ":" + (e + "@") + k.host);
  }

  lemma LongerHost(k: LocalKey, more: string)
    requires k.UserKey?
    ensures Identity(k.(host := k.host + more)) == Identity(k) + more
  {
    var head := k.protocol + "/" + k.username + "." + Decimal(k.pid) + ":" + Decimal(k.sid) + "@";
    Assoc(head, k.host, more);
  }

  lemma LongerProtocol(k: LocalKey, more: string)
    requires k.UserKey?
    ensures Identity(k.(protocol := more + k.protocol)) == more + Identity(k)
  {
    IdentityIs(k);
    IdentityIs(k.(protocol := more + k.protocol));
    var rest := "/" + Login(k);
    assert Login(k) == Login(k.(protocol := more + k.protocol));
    assert Identity(k) == k.protocol + rest;
    assert Identity(k.(protocol := more + k.protocol)) == (more + k.protocol) + rest;
  }

  lemma SlashInUsername(k: LocalKey, r: string, rest: string)
    requires k.UserKey? && '/' in r && k.protocol == Before(r, '/') && k.username == After(r, '/') + rest
    ensures Identity(k) == r + (rest + Identity(UserKey("", "", k.pid, k.sid, k.host))[1..])
  {
    CutFacts(r, '/');
    hide Before, After;
    var numbers := "." + Decimal(k.pid) + ":" + Decimal(k.sid) + "@" + k.host;
    assert Identity(UserKey("", "", k.pid, k.sid, k.host)) == "/" + numbers;
    assert Identity(k) == k.protocol + "/" + k.username + numbers;
    assert k.protocol + "/" + k.username == r + rest;
    Assoc(r, rest, numbers);
  }

  // A server that another one continues shares a user key with it.
  lemma ContinuedIsShared(s: string, s': string) returns (k: LocalKey, k': LocalKey)
    requires Continues(s, s')
    ensures k.UserKey? && k'.UserKey? && Clean(k) && Clean(k') && Render(s, k) == Render(s', k')
  {
    k' := UserKey("", "", 0, 0, "");
    assert Clean(k');
    hide Identity, Render, Absorbed, Clean;
    var inner := Identity(k');
    if s' == s + "-userinfo" {
      k := TagKey();
      TagTwice(s, inner);
    } else {
      k := AbsorbingKey(s'[|s| + 10..]);
      TextBetween(s, s', inner);
    }
    RenderUser(s, k);
    RenderUser(s', k');
  }

  lemma TagKey() returns (k: LocalKey)
    ensures k.UserKey? && Clean(k) && Identity(k) == "userinfo-" + Identity(UserKey("", "", 0, 0, ""))
  {
    var k' := UserKey("", "", 0, 0, "");
    k := k'.(protocol := "userinfo-" + k'.protocol);
    hide Identity;
    LongerProtocol(k', "userinfo-");
  }

  lemma TagTwice(s: string, inner: string)
    ensures s + (TAG + ("userinfo-" + inner)) == (s + "-userinfo") + (TAG + inner)
  {
    assert TAG + ("userinfo-" + inner) == "-userinfo" + (TAG + inner);
    Assoc(s, "-userinfo", TAG + inner);
  }

  lemma TextBetween(s: string, s': string, inner: string)
    requires s + TAG <= s'
    ensures s + (TAG + (s'[|s| + 10..] + (TAG + inner))) == s' + (TAG + inner)
  {
    var r := s'[|s| + 10..];
    assert s' == s + TAG + r;
    Assoc(s, TAG, r);
    Assoc(s, TAG + r, TAG + inner);
    Assoc(TAG, r, TAG + inner);
  }

  // The text as protocol and part of the username.
  lemma UsernameKey(r: string) returns (k: LocalKey)
    requires '/' in r && '\n' !in r && (':' !in After(r, '/') || ('@' !in r && '.' !in After(r, '/')))
    ensures k.UserKey? && Clean(k) && Identity(k) == r + (TAG + Identity(UserKey("", "", 0, 0, "")))
  {
    hide Identity, Before, After;
    CutFacts(r, '/');
    UsernameMade(Before(r, '/'), After(r, '/'));
    k := UserKey(Before(r, '/'), After(r, '/') + (TAG + "/"), 0, 0, "");
    hide Made;
    SlashInUsername(k, r, TAG + "/");
    EmptyIdentity();
    Assoc(TAG, "/", Identity(UserKey("", "", 0, 0, ""))[1..]);
  }

  lemma UsernameMade(r0: string, r1: string)
    requires var r := r0 + "/" + r1; '\n' !in r && (':' !in r1 || ('@' !in r && '.' !in r1))
    requires '/' !in r0
    ensures Made(UserInfo(r0, r1 + (TAG + "/"), 0, 0, ""))
  {
    var r, more := r0 + "/" + r1, TAG + "/";
    assert ':' !in more && '@' !in more && '.' !in more && '\n' !in more;
    hide TAG;
    InBoth(r0 + "/", r1);
    InBoth(r0, "/");
    InBoth(r1, more);
  }

  lemma InBoth(a: string, b: string)
    ensures forall c :: c in a + b <==> c in a || c in b
  {}

  lemma EmptyIdentity()
    ensures var inner := Identity(UserKey("", "", 0, 0, ""));
            inner == "/.0:0@" && inner == "/" + inner[1..]
  {}

  // The text as part of the protocol.
  lemma ProtocolKey(r: string) returns (k: LocalKey)
    requires '/' !in r && '\n' !in r
    ensures k.UserKey? && Clean(k) && Identity(k) == r + (TAG + Identity(UserKey("", "", 0, 0, "")))
  {
    var k' := UserKey("", "", 0, 0, "");
    k := k'.(protocol := r + TAG + k'.protocol);
    hide Identity;
    LongerProtocol(k', r + TAG);
    Assoc(r, TAG, Identity(k'));
  }

  // The text as a key of its own, whose host goes on.
  lemma HostKey(k0: LocalKey) returns (k: LocalKey)
    requires IsCollectorKey(k0)
    ensures k.UserKey? && Clean(k) && Identity(k) == Identity(k0) + (TAG + Identity(UserKey("", "", 0, 0, "")))
  {
    EmptyIdentity();
    hide Identity;
    var more := TAG + Identity(UserKey("", "", 0, 0, ""));
    k := k0.(host := k0.host + more);
    LongerHost(k0, more);
  }

  lemma AbsorbingKey(r: string) returns (k: LocalKey)
    requires Absorbed(r)
    ensures k.UserKey? && Clean(k) && Identity(k) == r + (TAG + Identity(UserKey("", "", 0, 0, "")))
  {
    hide Identity, Clean, CollectorMade, After;
    if '/' !in r {
      k := ProtocolKey(r);
    } else if ':' !in After(r, '/') || ('@' !in r && '.' !in After(r, '/')) {
      k := UsernameKey(r);
    } else {
      var k0: LocalKey :| IsCollectorKey(k0) && Identity(k0) == r;
      k := HostKey(k0);
    }
  }

  // Exactly which servers can share a user key.
  lemma ServersSharingAKey(s: string, s': string)
    requires s != s'
    ensures !Apart(s, s') <==>
            exists i, i' :: Made(i) && Made(i') && Render(s, UserKeyOf(i)) == Render(s', UserKeyOf(i'))
  {
    hide Render, Continues, Clean, Made;
    if Continues(s, s') {
      var k, k' := ContinuedIsShared(s, s');
      InfoOf(k);
      InfoOf(k');
    } else if Continues(s', s) {
      var k', k := ContinuedIsShared(s', s);
      InfoOf(k);
      InfoOf(k');
    } else if i, i' :| Made(i) && Made(i') && Render(s, UserKeyOf(i)) == Render(s', UserKeyOf(i')) {
      MadeIsClean(i);
      MadeIsClean(i');
      UserKeysInjective(s, UserKeyOf(i), s', UserKeyOf(i'));
    }
  }

  lemma MadeIsClean(i: UserInfo)
    ensures Clean(UserKeyOf(i)) <==> Made(i)
  {}

  // Of server ids, only the addresses matter.
  lemma ApartAddresses(start: int, addr: string, start': int, addr': string)
    ensures Apart(ServerId(start, addr), ServerId(start', addr')) <==> start != start' || Apart(addr, addr')
  {
    ContinuedAddress(start, addr, start', addr');
    ContinuedAddress(start', addr', start, addr);
  }

  lemma ContinuedAddress(start: int, addr: string, start': int, addr': string)
    ensures Continues(ServerId(start, addr), ServerId(start', addr')) <==> start == start' && Continues(addr, addr')
  {
    var s, s', head := ServerId(start, addr), ServerId(start', addr'), SignedDecimal(start) + "#";
    hide Absorbed, SignedDecimal;
    if s <= s' {
      var more := s'[|s|..];
      Assoc(head, addr, more);
      assert s' == ServerId(start, addr + more);
      ServerIdInjective(start, addr + more, start', addr');
    }
    if start == start' {
      Assoc(head, addr, "-userinfo");
      Assoc(head, addr, TAG);
      SameHead(head, addr', addr + "-userinfo");
      SameHead(head, addr', addr + TAG);
      if addr + TAG <= addr' {
        assert s'[|s| + 10..] == addr'[|addr| + 10..];
      }
    }
  }

  lemma SameHead(head: string, a: string, b: string)
    ensures head + a == head + b <==> a == b
    ensures head + b <= head + a <==> b <= a
  {
    assert a == (head + a)[|head|..] && b == (head + b)[|head|..];
    if head + b <= head + a {
      assert b == (head + a)[|head|..|head| + |b|] == a[..|b|];
    }
  }

  // A simple guard: an address in which nothing looks like the tag.
  predicate TaggedAt(s: string, i: nat)
  {
    i + 9 <= |s| && s[i..i + 9] == "-userinfo" && (i + 9 == |s| || s[i + 9] == '-')
  }

  ghost predicate Untagged(s: string)
  {
    forall i: nat :: !TaggedAt(s, i)
  }

  lemma UntaggedIsApart(s: string, s': string)
    requires Untagged(s) && Untagged(s')
    ensures Apart(s, s')
  {
    hide Continues;
    if Continues(s, s') {
      ContinuedIsTagged(s, s');
    }
    if Continues(s', s) {
      ContinuedIsTagged(s', s);
    }
  }

  lemma ContinuedIsTagged(s: string, s': string)
    requires Continues(s, s')
    ensures TaggedAt(s', |s|)
  {
    if s + TAG <= s' {
      assert s'[|s|..|s| + 10] == TAG;
      assert s'[|s|..|s| + 9] == TAG[..9] == "-userinfo" && s'[|s| + 9] == TAG[9];
    }
  }

  // ---- User keys of one server: injective up to pid and sid modulo 2^32 on
  // ---- what the parsers produce

  // sid@host
  function Tail(k: LocalKey): string
    requires k.UserKey?
  {
    Decimal(k.sid) + "@" + k.host
  }

  lemma TailsInjective(k: LocalKey, k': LocalKey)
    requires k.UserKey? && k'.UserKey? && Tail(k) == Tail(k')
    ensures k.sid == k'.sid && k.host == k'.host
  {
    DigitsOnly(k.sid, '@');
    DigitsOnly(k'.sid, '@');
    CutUnique(Decimal(k.sid), '@', k.host, Decimal(k'.sid), k'.host);
    DecimalInjective(k.sid, k'.sid);
  }

  // username.pid:sid@host
  function Login(k: LocalKey): string
    requires k.UserKey?
  {
    k.username + "." + (Decimal(k.pid) + ":" + Tail(k))
  }

  lemma LoginsWithoutDots(k: LocalKey, k': LocalKey)
    requires k.UserKey? && k'.UserKey? && Login(k) == Login(k')
    requires '.' !in k.username && '.' !in k'.username
    ensures k.username == k'.username && k.pid == k'.pid && k.sid == k'.sid && k.host == k'.host
  {
    CutUnique(k.username, '.', Decimal(k.pid) + ":" + Tail(k), k'.username, Decimal(k'.pid) + ":" + Tail(k'));
    DigitsOnly(k.pid, ':');
    DigitsOnly(k'.pid, ':');
    CutUnique(Decimal(k.pid), ':', Tail(k), Decimal(k'.pid), Tail(k'));
    DecimalInjective(k.pid, k'.pid);
    TailsInjective(k, k');
  }

  lemma ColonSplit(k: LocalKey)
    requires k.UserKey?
    ensures Login(k) == (k.username + "." + Decimal(k.pid)) + ":" + Tail(k)
  {}

  lemma LoginsWithoutColons(k: LocalKey, k': LocalKey)
    requires k.UserKey? && k'.UserKey? && Login(k) == Login(k')
    requires ':' !in k.username && ':' !in k'.username
    ensures k.username == k'.username && k.pid == k'.pid && k.sid == k'.sid && k.host == k'.host
  {
    ColonSplit(k);
    ColonSplit(k');
    DigitsOnly(k.pid, ':');
    DigitsOnly(k'.pid, ':');
    CutUnique(k.username + "." + Decimal(k.pid), ':', Tail(k), k'.username + "." + Decimal(k'.pid), Tail(k'));
    DigitsOnly(k.pid, '.');
    DigitsOnly(k'.pid, '.');
    CutUnique(k.username, '.', Decimal(k.pid), k'.username, Decimal(k'.pid));
    DecimalInjective(k.pid, k'.pid);
    TailsInjective(k, k');
  }

  // A username without ':' and one that has a ':' but no '.' never spell the same login.
  lemma LoginsMixed(k: LocalKey, k': LocalKey)
    requires k.UserKey? && k'.UserKey?
    requires ':' !in k.username && ':' in k'.username && '.' !in k'.username
    ensures Login(k) != Login(k')
  {
    var n, j := |k.username|, IndexOf(k'.username, ':');
    if n < |k'.username| {
      assert Login(k)[n] == '.' && Login(k')[n] == k'.username[n];
    } else {
      assert Login(k)[j] == k.username[j] && Login(k')[j] == ':';
    }
  }

  lemma IdentitiesInjective(k: LocalKey, k': LocalKey)
    requires k.UserKey? && k'.UserKey? && Clean(k) && Clean(k')
    requires Identity(k) == Identity(k')
    ensures k == k'
  {
    IdentityIs(k);
    IdentityIs(k');
    hide Identity, Login, InOneLine;
    CutUnique(k.protocol, '/', Login(k), k'.protocol, Login(k'));
    if ':' !in k.username && ':' !in k'.username {
      LoginsWithoutColons(k, k');
    } else if '.' !in k.username && '.' !in k'.username {
      LoginsWithoutDots(k, k');
    } else if ':' !in k.username {
      LoginsMixed(k, k');
    } else {
      LoginsMixed(k', k);
    }
  }

  lemma UserKeysInjective(s: string, k: LocalKey, s': string, k': LocalKey)
    requires k.UserKey? && k'.UserKey? && Clean(k) && Clean(k')
    requires Apart(s, s')
    requires Render(s, k) == Render(s', k')
    ensures s == s' && k == k'
  {
    hide Continues;
    if |s| < |s'| {
      SharedIsContinued(s, k, s', k');
    } else if |s'| < |s| {
      SharedIsContinued(s', k', s, k);
    } else {
      SameServersKeys(s, k, s', k');
    }
  }

  lemma SameServersKeys(s: string, k: LocalKey, s': string, k': LocalKey)
    requires k.UserKey? && k'.UserKey? && Clean(k) && Clean(k')
    requires |s| == |s'| && Render(s, k) == Render(s', k')
    ensures s == s' && k == k'
  {
    var w := Render(s, k);
    assert s == w[..|s|] == s';
    assert Identity(k) == w[|s| + 10..] == Identity(k');
    IdentitiesInjective(k, k');
  }

  // Exactly which user infos share a key.
  lemma UserInfosSharingAKey(s: string, i: UserInfo, s': string, i': UserInfo)
    requires Made(i) && Made(i') && Apart(s, s')
    ensures Render(s, UserKeyOf(i)) == Render(s', UserKeyOf(i')) <==>
            && s == s'
            && i'.(pid := i.pid, sid := i.sid) == i
            && (i.pid - i'.pid) % 0x1_0000_0000 == 0
            && (i.sid - i'.sid) % 0x1_0000_0000 == 0
  {
    Congruent(i.pid, i'.pid);
    Congruent(i.sid, i'.sid);
    if Render(s, UserKeyOf(i)) == Render(s', UserKeyOf(i')) {
      UserKeysInjective(s, UserKeyOf(i), s', UserKeyOf(i'));
    }
  }

  lemma Congruent(x: int, y: int)
    ensures x % TWO_TO_THE_32 == y % TWO_TO_THE_32 <==> (x - y) % TWO_TO_THE_32 == 0
  {}

  // A remote address that does contain the tag can share another server's keys.
  lemma TaggedAddressCollides()
    ensures var i := UserInfo("x-userinfo-p", "u", 1, 2, "h");
            var i' := UserInfo("p", "u", 1, 2, "h");
            && Made(i) && Made(i')
            && ServerId(1, "a") != ServerId(1, "a-userinfo-x")
            && Render(ServerId(1, "a"), UserKeyOf(i)) == Render(ServerId(1, "a-userinfo-x"), UserKeyOf(i'))
  {
    var i, i' := UserInfo("x-userinfo-p", "u", 1, 2, "h"), UserInfo("p", "u", 1, 2, "h");
    ExamplesAreMade();
    ExampleKeys();
    hide Identity, Render, ServerId, Made, UserKeyOf;
    LongerAddress(1, "a", "-userinfo-x");
    TagMoves(ServerId(1, "a"), UserKeyOf(i), UserKeyOf(i'));
  }

  lemma ExampleKeys()
    ensures var k' := UserKeyOf(UserInfo("p", "u", 1, 2, "h"));
            && k'.UserKey?
            && UserKeyOf(UserInfo("x-userinfo-p", "u", 1, 2, "h")) == k'.(protocol := "x-userinfo-" + k'.protocol)
    ensures "a" + "-userinfo-x" == "a-userinfo-x"
  {}

  lemma TagMoves(s: string, k: LocalKey, k': LocalKey)
    requires k.UserKey? && k'.UserKey? && k == k'.(protocol := "x-userinfo-" + k'.protocol)
    ensures Render(s, k) == Render(s + "-userinfo-x", k')
  {
    hide Identity, Render;
    LongerProtocol(k', "x-userinfo-");
    RenderUser(s, k);
    RenderUser(s + "-userinfo-x", k');
    TagsAppend(s, Identity(k'));
  }

  lemma ExamplesAreMade()
    ensures Made(UserInfo("x-userinfo-p", "u", 1, 2, "h")) && Made(UserInfo("p", "u", 1, 2, "h"))
  {}

  lemma LongerAddress(start: int, addr: string, more: string)
    requires more != ""
    ensures ServerId(start, addr + more) == ServerId(start, addr) + more != ServerId(start, addr)
  {
    Assoc(SignedDecimal(start) + "#", addr, more);
    assert |ServerId(start, addr) + more| > |ServerId(start, addr)|;
  }

  lemma TagsAppend(s: string, r: string)
    ensures s + (TAG + ("x-userinfo-" + r)) == s + "-userinfo-x" + (TAG + r)
  {
    assert TAG + ("x-userinfo-" + r) == "-userinfo-x" + (TAG + r);
    Assoc(s, "-userinfo-x", TAG + r);
  }

  // ---- All keys of one map together

  predicate SameMap(k: LocalKey, k': LocalKey)
  {
    || (InFileMap(k) && InFileMap(k'))
    || (InDictMap(k) && InDictMap(k'))
    || (k.UserKey? && k'.UserKey?)
    || (k.ServerKey? && k'.ServerKey?)
  }

  lemma RenderInjective(s: string, k: LocalKey, s': string, k': LocalKey)
    requires SameMap(k, k') && Clean(k) && Clean(k') && Apart(s, s')
    requires Render(s, k) == Render(s', k')
    ensures s == s' && k == k'
  {
    if InFileMap(k) {
      FileKeysInjective(s, k, s', k');
    } else if InDictMap(k) {
      DictKeysInjective(s, k, s', k');
    } else if k.UserKey? {
      UserKeysInjective(s, k, s', k');
    }
  }
}
