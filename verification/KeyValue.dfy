// The &key=value texts of user, token, server and experiment packets.
module KeyValue {
  import opened Records
  import opened Text
  import opened Numbers

  // ---- bytesplit

  // What bytesplit returns: all the parts, but no empty one at the end.
  function Parts(b: string, sep: char): seq<string>
  {
    var all := Split(b, sep);
    if all[|all| - 1] == "" then all[..|all| - 1] else all
  }

  lemma SplitAt(s: string, i: nat, sep: char)
    requires i < |s| && s[i] == sep && sep !in s[..i]
    ensures Split(s, sep) == [s[..i]] + Split(s[i + 1..], sep)
  {
    CutAt(s[..i], sep, s[i + 1..]);
    assert s == s[..i] + [sep] + s[i + 1..];
  }

  lemma SplitNone(s: string, sep: char)
    requires sep !in s
    ensures Split(s, sep) == [s]
  {}

  method Bytesplit(b: string, sep: char) returns (parts: seq<string>)
    ensures parts == Parts(b, sep)
  {
    hide Split;
    parts := [];
    var start := 0;
    assert b[start..] == b;
    for i := 0 to |b|
      invariant 0 <= start <= i
      invariant sep !in b[start..i]
      invariant Split(b, sep) == parts + Split(b[start..], sep)
    {
      if b[i] == sep {
        SplitAt(b[start..], i - start, sep);
        assert b[start..][..i - start] == b[start..i] && b[start..][i - start + 1..] == b[i + 1..];
        parts := parts + [b[start..i]];
        start := i + 1;
      }
    }
    assert b[start..|b|] == b[start..];
    SplitNone(b[start..], sep);
    if start < |b| {
      parts := parts + [b[start..]];
    }
  }

  // bytesplit loses nothing but one trailing separator.
  lemma JoinParts(b: string, sep: char)
    ensures Join(Parts(b, sep), sep) == if b != "" && b[|b| - 1] == sep then b[..|b| - 1] else b
  {
    JoinSplit(b, sep);
    var all := Split(b, sep);
    LastPart(b, sep);
    if all[|all| - 1] == "" {
      JoinFront(all, sep);
    }
  }

  lemma {:induction false} LastPart(b: string, sep: char)
    ensures var all := Split(b, sep);
            all[|all| - 1] == "" <==> b == "" || b[|b| - 1] == sep
    decreases |b|
  {
    if sep in b {
      LastPart(After(b, sep), sep);
      CutFacts(b, sep);
    }
  }

  lemma {:induction false} JoinFront(all: seq<string>, sep: char)
    requires |all| > 0 && all[|all| - 1] == ""
    ensures Join(all, sep) == Join(all[..|all| - 1], sep) + if |all| > 1 then [sep] else ""
  {
    if |all| > 1 {
      JoinFront(all[1..], sep);
      assert all[1..][..|all| - 2] == all[..|all| - 1][1..];
    }
  }

  // ---- Settings

  datatype Pair = Pair(key: string, value: string)

  // Cut at the first '='; a part without one, or with nothing behind it, is skipped.
  function Setting(part: string): Option<Pair>
  {
    var eq := IndexOf(part, '=');
    if eq < 0 || eq >= |part| - 1 then None else Some(Pair(part[..eq], part[eq + 1..]))
  }

  // The value the last setting of `key` gives, "" without one.
  function LastSetting(parts: seq<string>, key: string): string
  {
    if parts == [] then ""
    else
      var last := Setting(parts[|parts| - 1]);
      if last.Some? && last.value.key == key then last.value.value
      else LastSetting(parts[..|parts| - 1], key)
  }

  // The last readable setting of the user's dictionary id, 0 without one.
  function LastUserId(parts: seq<string>): nat
  {
    if parts == [] then 0
    else
      var last := Setting(parts[|parts| - 1]);
      if last.Some? && last.value.key == "Uc" && ScanUint32(last.value.value).Some?
      then ScanUint32(last.value.value).value
      else LastUserId(parts[..|parts| - 1])
  }

  function AuthOf(parts: seq<string>): AuthInfo
  {
    AuthInfo(LastSetting(parts, "p"), LastSetting(parts, "n"), LastSetting(parts, "h"), LastSetting(parts, "o"),
             LastSetting(parts, "r"), LastSetting(parts, "g"), LastSetting(parts, "m"), LastSetting(parts, "x"),
             LastSetting(parts, "y"), LastSetting(parts, "I"))
  }

  function TokenOf(parts: seq<string>): TokenInfo
  {
    TokenInfo(LastUserId(parts), LastSetting(parts, "s"), LastSetting(parts, "n"), LastSetting(parts, "o"),
              LastSetting(parts, "r"), LastSetting(parts, "g"))
  }

  function ServerOf(parts: seq<string>): ServerInfo
  {
    ServerInfo(LastSetting(parts, "site"), LastSetting(parts, "port"), LastSetting(parts, "inst"),
               LastSetting(parts, "pgm"), LastSetting(parts, "ver"))
  }

  // ---- The parsers: a switch on the key, in a loop over the parts

  function SetAuth(info: AuthInfo, p: Pair): AuthInfo
  {
    match p.key
    case "p" => info.(authProtocol := p.value)
    case "n" => info.(dn := p.value)
    case "h" => info.(hostname := p.value)
    case "o" => info.(org := p.value)
    case "r" => info.(role := p.value)
    case "g" => info.(groups := p.value)
    case "m" => info.(info := p.value)
    case "x" => info.(execName := p.value)
    case "y" => info.(monInfo := p.value)
    case "I" => info.(inetVersion := p.value)
    case _ => info
  }

  function SetToken(info: TokenInfo, p: Pair): TokenInfo
  {
    match p.key
    case "Uc" =>
      var udid := ScanUint32(p.value);
      if udid.Some? then info.(userDictId := udid.value) else info
    case "s" => info.(subject := p.value)
    case "n" => info.(username := p.value)
    case "o" => info.(org := p.value)
    case "r" => info.(role := p.value)
    case "g" => info.(groups := p.value)
    case _ => info
  }

  function SetServer(info: ServerInfo, p: Pair): ServerInfo
  {
    match p.key
    case "site" => info.(site := p.value)
    case "port" => info.(port := p.value)
    case "inst" => info.(inst := p.value)
    case "pgm" => info.(program := p.value)
    case "ver" => info.(version := p.value)
    case _ => info
  }

  lemma AuthOfOneMore(parts: seq<string>, part: string)
    ensures AuthOf(parts + [part]) ==
            if Setting(part).Some? then SetAuth(AuthOf(parts), Setting(part).value) else AuthOf(parts)
  {
    hide Setting, ScanUint32;
    assert (parts + [part])[..|parts|] == parts;
  }

  lemma TokenOfOneMore(parts: seq<string>, part: string)
    ensures TokenOf(parts + [part]) ==
            if Setting(part).Some? then SetToken(TokenOf(parts), Setting(part).value) else TokenOf(parts)
  {
    hide Setting, ScanUint32;
    assert (parts + [part])[..|parts|] == parts;
  }

  lemma ServerOfOneMore(parts: seq<string>, part: string)
    ensures ServerOf(parts + [part]) ==
            if Setting(part).Some? then SetServer(ServerOf(parts), Setting(part).value) else ServerOf(parts)
  {
    hide Setting, ScanUint32;
    assert (parts + [part])[..|parts|] == parts;
  }

  method ParseAuthInfo(b: string) returns (info: AuthInfo)
    ensures info == AuthOf(Parts(b, '&'))
  {
    info := NO_AUTH;
    var parts := Bytesplit(b, '&');
    for i := 0 to |parts|
      invariant info == AuthOf(parts[..i])
    {
      assert parts[..i + 1] == parts[..i] + [parts[i]];
      AuthOfOneMore(parts[..i], parts[i]);
      hide AuthOf, Setting, SetAuth;
      var setting := Setting(parts[i]);
      if setting.Some? {
        info := SetAuth(info, setting.value);
      }
    }
    assert parts[..|parts|] == parts;
  }

  method ParseTokenInfo(b: string) returns (info: TokenInfo)
    ensures info == TokenOf(Parts(b, '&'))
  {
    info := NO_TOKEN;
    var parts := Bytesplit(b, '&');
    for i := 0 to |parts|
      invariant info == TokenOf(parts[..i])
    {
      assert parts[..i + 1] == parts[..i] + [parts[i]];
      TokenOfOneMore(parts[..i], parts[i]);
      hide TokenOf, Setting, SetToken;
      var setting := Setting(parts[i]);
      if setting.Some? {
        info := SetToken(info, setting.value);
      }
    }
    assert parts[..|parts|] == parts;
  }

  method ParseServerInfo(b: string) returns (info: ServerInfo)
    ensures info == ServerOf(Parts(b, '&'))
  {
    info := ServerInfo("", "", "", "", "");
    var parts := Bytesplit(b, '&');
    for i := 0 to |parts|
      invariant info == ServerOf(parts[..i])
    {
      assert parts[..i + 1] == parts[..i] + [parts[i]];
      ServerOfOneMore(parts[..i], parts[i]);
      hide ServerOf, Setting, SetServer;
      var setting := Setting(parts[i]);
      if setting.Some? {
        info := SetServer(info, setting.value);
      }
    }
    assert parts[..|parts|] == parts;
  }

  // ---- Experiment and activity codes: only a missing '=' skips a part

  datatype EAInfo = EAInfo(udid: nat, experimentId: int, activityId: int)

  function SetEA(info: EAInfo, p: Pair): EAInfo
  {
    match p.key
    case "Uc" =>
      var udid := ParseUint32(p.value);
      if udid.Some? then info.(udid := udid.value) else info
    case "Ec" => info.(experimentId := Atoi(p.value))
    case "Ac" => info.(activityId := Atoi(p.value))
    case _ => info
  }

  function EAPair(part: string): Option<Pair>
  {
    if '=' in part then Some(Pair(Before(part, '='), After(part, '='))) else None
  }

  // The number in the last setting of `key`, 0 without one; a setting that is
  // no number is one of 0.
  function LastNumber(parts: seq<string>, key: string): int
  {
    if parts == [] then 0
    else
      var last := EAPair(parts[|parts| - 1]);
      if last.Some? && last.value.key == key then Atoi(last.value.value) else LastNumber(parts[..|parts| - 1], key)
  }

  // The last readable user dictionary id, 0 without one.
  function LastUdid(parts: seq<string>): nat
  {
    if parts == [] then 0
    else
      var last := EAPair(parts[|parts| - 1]);
      if last.Some? && last.value.key == "Uc" && ParseUint32(last.value.value).Some?
      then ParseUint32(last.value.value).value
      else LastUdid(parts[..|parts| - 1])
  }

  function EAOf(parts: seq<string>): EAInfo
  {
    EAInfo(LastUdid(parts), LastNumber(parts, "Ec"), LastNumber(parts, "Ac"))
  }

  lemma EAOfOneMore(parts: seq<string>, part: string)
    ensures EAOf(parts + [part]) ==
            if EAPair(part).Some? then SetEA(EAOf(parts), EAPair(part).value) else EAOf(parts)
  {
    hide EAPair, ParseUint32, Atoi;
    assert (parts + [part])[..|parts|] == parts;
  }

  method ParseEAInfo(text: string) returns (info: EAInfo)
    ensures info == EAOf(Split(text, '&'))
  {
    info := EAInfo(0, 0, 0);
    var parts := Split(text, '&');
    for i := 0 to |parts|
      invariant info == EAOf(parts[..i])
    {
      assert parts[..i + 1] == parts[..i] + [parts[i]];
      EAOfOneMore(parts[..i], parts[i]);
      hide EAOf, SetEA;
      if parts[i] != "" {
        var p := EAPair(parts[i]);
        if p.Some? {
          info := SetEA(info, p.value);
        }
      }
    }
    assert parts[..|parts|] == parts;
  }

  // ---- Printing

  function Item(p: Pair): string
  {
    p.key + "=" + p.value
  }

  function Items(pairs: seq<Pair>): (r: seq<string>)
    ensures |r| == |pairs|
  {
    seq(|pairs|, i requires 0 <= i < |pairs| => Item(pairs[i]))
  }

  // &key=value, one after the other.
  function Printed(pairs: seq<Pair>): string
  {
    if pairs == [] then "" else "&" + Item(pairs[0]) + Printed(pairs[1..])
  }

  // A key without '=', and no separator anywhere.
  predicate Printable(p: Pair)
  {
    '=' !in p.key && '&' !in p.key && '&' !in p.value
  }

  predicate AllPrintable(pairs: seq<Pair>)
  {
    forall i :: 0 <= i < |pairs| ==> Printable(pairs[i])
  }

  lemma {:induction false} PrintedIsJoin(pairs: seq<Pair>)
    ensures Printed(pairs) == Join([""] + Items(pairs), '&')
  {
    if pairs != [] {
      PrintedIsJoin(pairs[1..]);
      var items := Items(pairs);
      assert items[1..] == Items(pairs[1..]);
      assert ([""] + items)[1..] == items;
      if |pairs| > 1 {
        assert ([""] + items[1..])[1..] == items[1..];
      }
    }
  }

  lemma PlainItems(pairs: seq<Pair>)
    requires AllPrintable(pairs)
    ensures forall i :: 0 <= i < |pairs| + 1 ==> '&' !in ([""] + Items(pairs))[i]
    ensures pairs != [] ==> Items(pairs)[|pairs| - 1] != ""
  {
    forall i | 0 <= i < |pairs|
      ensures '&' !in Items(pairs)[i] && Items(pairs)[i] != ""
    {
      assert Items(pairs)[i] == pairs[i].key + "=" + pairs[i].value;
    }
  }

  lemma SplitPrinted(pairs: seq<Pair>)
    requires AllPrintable(pairs)
    ensures Split(Printed(pairs), '&') == [""] + Items(pairs)
    ensures pairs != [] ==> Parts(Printed(pairs), '&') == [""] + Items(pairs)
  {
    hide Split, Join, Printed, AllPrintable;
    PrintedIsJoin(pairs);
    PlainItems(pairs);
    hide Items;
    SplitJoin([""] + Items(pairs), '&');
  }

  lemma NoPairs(pairs: seq<Pair>)
    ensures [""] + Items(pairs[..0]) == [""]
    ensures AuthOf([""]) == NO_AUTH && TokenOf([""]) == NO_TOKEN
    ensures ServerOf([""]) == ServerInfo("", "", "", "", "") && EAOf([""]) == EAInfo(0, 0, 0)
  {
    forall key {
      NothingSet(key);
    }
  }

  lemma NothingSet(key: string)
    ensures LastSetting([""], key) == ""
  {}

  lemma SettingOfItem(p: Pair)
    requires '=' !in p.key
    ensures Setting(Item(p)) == if p.value == "" then None else Some(p)
    ensures EAPair(Item(p)) == Some(p)
  {
    CutAt(p.key, '=', p.value);
    IndexAt(p.key, '=', p.value);
  }

  // The parts of the first n pairs, and of one more.
  lemma OneMore(pairs: seq<Pair>, n: nat)
    requires n < |pairs| && '=' !in pairs[n].key
    ensures var parts := [""] + Items(pairs[..n + 1]);
            && parts[..|parts| - 1] == [""] + Items(pairs[..n])
            && Setting(parts[|parts| - 1]) == (if pairs[n].value == "" then None else Some(pairs[n]))
            && EAPair(parts[|parts| - 1]) == Some(pairs[n])
  {
    SettingOfItem(pairs[n]);
    var parts := [""] + Items(pairs[..n + 1]);
    assert parts[|parts| - 1] == Item(pairs[n]);
  }

  // No part, and so no setting, ever holds the separator.
  lemma {:induction false} PlainParts(s: string, c: char)
    ensures forall i :: 0 <= i < |Split(s, c)| ==> c !in Split(s, c)[i]
    decreases |s|
  {
    if c in s {
      CutFacts(s, c);
      PlainParts(After(s, c), c);
    }
  }

  lemma {:induction false} PlainSetting(parts: seq<string>, key: string, c: char)
    requires forall i :: 0 <= i < |parts| ==> c !in parts[i]
    ensures c !in LastSetting(parts, key)
  {
    if parts != [] {
      PlainSetting(parts[..|parts| - 1], key, c);
    }
  }

  lemma PlainValue(s: string, key: string)
    ensures '&' !in LastSetting(Parts(s, '&'), key)
  {
    PlainParts(s, '&');
    PlainSetting(Parts(s, '&'), key, '&');
  }

  // ---- AuthInfo

  function AuthPairs(i: AuthInfo): seq<Pair>
  {
    [Pair("p", i.authProtocol), Pair("n", i.dn), Pair("h", i.hostname), Pair("o", i.org), Pair("r", i.role),
     Pair("g", i.groups), Pair("m", i.info), Pair("x", i.execName), Pair("y", i.monInfo), Pair("I", i.inetVersion)]
  }

  // `i` with only its first n fields set.
  function FirstAuth(i: AuthInfo, n: nat): AuthInfo
  {
    AuthInfo(if n > 0 then i.authProtocol else "", if n > 1 then i.dn else "", if n > 2 then i.hostname else "",
             if n > 3 then i.org else "", if n > 4 then i.role else "", if n > 5 then i.groups else "",
             if n > 6 then i.info else "", if n > 7 then i.execName else "", if n > 8 then i.monInfo else "",
             if n > 9 then i.inetVersion else "")
  }

  lemma AuthStep(pairs: seq<Pair>, n: nat)
    requires n < |pairs| && '=' !in pairs[n].key
    ensures var before := AuthOf([""] + Items(pairs[..n]));
            AuthOf([""] + Items(pairs[..n + 1])) == if pairs[n].value == "" then before else SetAuth(before, pairs[n])
  {
    hide Items, AuthOf, Setting, SetAuth, EAPair;
    OneMore(pairs, n);
    var parts := [""] + Items(pairs[..n + 1]);
    AuthOfOneMore(parts[..|parts| - 1], parts[|parts| - 1]);
    assert parts == parts[..|parts| - 1] + [parts[|parts| - 1]];
  }

  lemma AuthSwitch(i: AuthInfo, n: nat)
    requires n < 10
    ensures var p := AuthPairs(i)[n];
            FirstAuth(i, n + 1) == if p.value == "" then FirstAuth(i, n) else SetAuth(FirstAuth(i, n), p)
  {}

  lemma {:induction false} AuthPrefix(i: AuthInfo, n: nat)
    requires n <= 10
    ensures AuthOf([""] + Items(AuthPairs(i)[..n])) == FirstAuth(i, n)
  {
    if n == 0 {
      NoPairs(AuthPairs(i));
    } else {
      AuthPrefix(i, n - 1);
      AuthStep(AuthPairs(i), n - 1);
      AuthSwitch(i, n - 1);
      hide AuthOf, Items, AuthPairs, FirstAuth, SetAuth;
    }
  }

  lemma AuthRoundTrip(i: AuthInfo)
    ensures AuthOf(Parts(Printed(AuthPairs(i)), '&')) == i <==> AllPrintable(AuthPairs(i))
  {
    hide Items, Parts, LastSetting, Printed;
    var pairs := AuthPairs(i);
    if AllPrintable(pairs) {
      SplitPrinted(pairs);
      assert pairs[..10] == pairs;
      AuthPrefix(i, 10);
    } else {
      var k :| 0 <= k < |pairs| && !Printable(pairs[k]);
      PlainValue(Printed(pairs), pairs[k].key);
    }
  }

  // ---- TokenInfo

  function TokenPairs(i: TokenInfo): seq<Pair>
  {
    [Pair("Uc", Decimal(i.userDictId)), Pair("s", i.subject), Pair("n", i.username), Pair("o", i.org),
     Pair("r", i.role), Pair("g", i.groups)]
  }

  function FirstToken(i: TokenInfo, n: nat): TokenInfo
  {
    TokenInfo(if n > 0 then i.userDictId else 0, if n > 1 then i.subject else "", if n > 2 then i.username else "",
              if n > 3 then i.org else "", if n > 4 then i.role else "", if n > 5 then i.groups else "")
  }

  lemma TokenStep(pairs: seq<Pair>, n: nat)
    requires n < |pairs| && '=' !in pairs[n].key
    ensures var before := TokenOf([""] + Items(pairs[..n]));
            TokenOf([""] + Items(pairs[..n + 1])) == if pairs[n].value == "" then before else SetToken(before, pairs[n])
  {
    OneMore(pairs, n);
    var parts := [""] + Items(pairs[..n + 1]);
    TokenOfOneMore(parts[..|parts| - 1], parts[|parts| - 1]);
    assert parts == parts[..|parts| - 1] + [parts[|parts| - 1]];
    hide *;
  }

  lemma TokenSwitch(i: TokenInfo, n: nat)
    requires n < 6 && i.userDictId <= MAX_UINT32
    ensures var p := TokenPairs(i)[n];
            FirstToken(i, n + 1) == if p.value == "" then FirstToken(i, n) else SetToken(FirstToken(i, n), p)
  {
    ScanUint32RoundTrip(i.userDictId);
    hide ScanUint32, Decimal;
  }

  lemma {:induction false} TokenPrefix(i: TokenInfo, n: nat)
    requires n <= 6 && i.userDictId <= MAX_UINT32
    ensures TokenOf([""] + Items(TokenPairs(i)[..n])) == FirstToken(i, n)
  {
    if n == 0 {
      NoPairs(TokenPairs(i));
    } else {
      TokenPrefix(i, n - 1);
      TokenStep(TokenPairs(i), n - 1);
      TokenSwitch(i, n - 1);
      hide TokenOf, Items, TokenPairs, FirstToken, SetToken;
    }
  }

  lemma {:induction false} UserIdRange(parts: seq<string>)
    ensures LastUserId(parts) <= MAX_UINT32
  {
    if parts != [] {
      UserIdRange(parts[..|parts| - 1]);
      hide Setting, ParseUint;
    }
  }

  lemma TokenRoundTrip(i: TokenInfo)
    ensures TokenOf(Parts(Printed(TokenPairs(i)), '&')) == i <==>
            AllPrintable(TokenPairs(i)) && i.userDictId <= MAX_UINT32
  {
    hide Items, Parts, LastSetting, Printed, LastUserId, Decimal;
    var pairs := TokenPairs(i);
    UserIdRange(Parts(Printed(pairs), '&'));
    if !AllPrintable(pairs) {
      var k :| 0 <= k < |pairs| && !Printable(pairs[k]);
      DigitsHaveNo(i.userDictId, '&');
      PlainValue(Printed(pairs), pairs[k].key);
    } else if i.userDictId <= MAX_UINT32 {
      SplitPrinted(pairs);
      assert pairs[..6] == pairs;
      TokenPrefix(i, 6);
    }
  }

  lemma DigitsHaveNo(n: nat, c: char)
    requires !IsDigit(c)
    ensures c !in Decimal(n)
  {}

  // ---- ServerInfo

  function ServerPairs(i: ServerInfo): seq<Pair>
  {
    [Pair("site", i.site), Pair("port", i.port), Pair("inst", i.inst), Pair("pgm", i.program), Pair("ver", i.version)]
  }

  function FirstServer(i: ServerInfo, n: nat): ServerInfo
  {
    ServerInfo(if n > 0 then i.site else "", if n > 1 then i.port else "", if n > 2 then i.inst else "",
               if n > 3 then i.program else "", if n > 4 then i.version else "")
  }

  lemma ServerStep(pairs: seq<Pair>, n: nat)
    requires n < |pairs| && '=' !in pairs[n].key
    ensures var before := ServerOf([""] + Items(pairs[..n]));
            ServerOf([""] + Items(pairs[..n + 1])) ==
            if pairs[n].value == "" then before else SetServer(before, pairs[n])
  {
    OneMore(pairs, n);
    var parts := [""] + Items(pairs[..n + 1]);
    ServerOfOneMore(parts[..|parts| - 1], parts[|parts| - 1]);
    assert parts == parts[..|parts| - 1] + [parts[|parts| - 1]];
    hide *;
  }

  lemma ServerSwitch(i: ServerInfo, n: nat)
    requires n < 5
    ensures var p := ServerPairs(i)[n];
            FirstServer(i, n + 1) == if p.value == "" then FirstServer(i, n) else SetServer(FirstServer(i, n), p)
  {}

  lemma {:induction false} ServerPrefix(i: ServerInfo, n: nat)
    requires n <= 5
    ensures ServerOf([""] + Items(ServerPairs(i)[..n])) == FirstServer(i, n)
  {
    if n == 0 {
      NoPairs(ServerPairs(i));
    } else {
      ServerPrefix(i, n - 1);
      ServerStep(ServerPairs(i), n - 1);
      ServerSwitch(i, n - 1);
      hide ServerOf, Items, ServerPairs, FirstServer, SetServer;
    }
  }

  lemma ServerRoundTrip(i: ServerInfo)
    ensures ServerOf(Parts(Printed(ServerPairs(i)), '&')) == i <==> AllPrintable(ServerPairs(i))
  {
    hide Items, Parts, LastSetting, Printed;
    var pairs := ServerPairs(i);
    if AllPrintable(pairs) {
      SplitPrinted(pairs);
      assert pairs[..5] == pairs;
      ServerPrefix(i, 5);
    } else {
      var k :| 0 <= k < |pairs| && !Printable(pairs[k]);
      PlainValue(Printed(pairs), pairs[k].key);
    }
  }

  // ---- Experiment and activity codes

  function EAPairs(i: EAInfo): seq<Pair>
  {
    [Pair("Uc", Decimal(i.udid)), Pair("Ec", SignedDecimal(i.experimentId)), Pair("Ac", SignedDecimal(i.activityId))]
  }

  predicate EAInRange(i: EAInfo)
  {
    i.udid <= MAX_UINT32 && IsInt64(i.experimentId) && IsInt64(i.activityId)
  }

  lemma {:induction false} EARange(parts: seq<string>)
    ensures EAInRange(EAOf(parts))
  {
    if parts != [] {
      EARange(parts[..|parts| - 1]);
      hide EAPair, ParseUint;
    }
  }

  lemma EARoundTrip(i: EAInfo)
    ensures EAOf(Split(Printed(EAPairs(i)), '&')) == i <==> EAInRange(i)
  {
    EARange(Split(Printed(EAPairs(i)), '&'));
    hide Split, Printed;
    if EAInRange(i) {
      EAReads(i);
    }
  }

  function FirstEA(i: EAInfo, n: nat): EAInfo
  {
    EAInfo(if n > 0 then i.udid else 0, if n > 1 then i.experimentId else 0, if n > 2 then i.activityId else 0)
  }

  lemma EASwitch(i: EAInfo, n: nat)
    requires n < 3 && EAInRange(i)
    ensures SetEA(FirstEA(i, n), EAPairs(i)[n]) == FirstEA(i, n + 1)
  {
    AtoiRoundTrip(i.experimentId);
    AtoiRoundTrip(i.activityId);
    ParseUintDecimal(i.udid, MAX_UINT32);
    hide Atoi, Decimal, SignedDecimal, ParseUint;
  }

  lemma {:induction false} EAPrefix(i: EAInfo, n: nat)
    requires n <= 3 && EAInRange(i)
    ensures EAOf([""] + Items(EAPairs(i)[..n])) == FirstEA(i, n)
  {
    if n == 0 {
      NoPairs(EAPairs(i));
    } else {
      EAPrefix(i, n - 1);
      EAStep(EAPairs(i), n - 1);
      EASwitch(i, n - 1);
      hide EAOf, Items, FirstEA, EAPairs, SetEA;
    }
  }

  lemma EAStep(pairs: seq<Pair>, n: nat)
    requires n < |pairs| && '=' !in pairs[n].key
    ensures EAOf([""] + Items(pairs[..n + 1])) == SetEA(EAOf([""] + Items(pairs[..n])), pairs[n])
  {
    OneMore(pairs, n);
    var parts := [""] + Items(pairs[..n + 1]);
    var front := parts[..|parts| - 1];
    assert parts == front + [parts[|parts| - 1]];
    hide Items, EAPair, EAOf, SetEA;
    EAOfOneMore(front, parts[|parts| - 1]);
  }

  lemma EAReads(i: EAInfo)
    requires EAInRange(i)
    ensures EAOf(Split(Printed(EAPairs(i)), '&')) == i
  {
    var pairs := EAPairs(i);
    DigitsHaveNo(i.udid, '&');
    DigitsHaveNo(if i.experimentId < 0 then -i.experimentId else i.experimentId, '&');
    DigitsHaveNo(if i.activityId < 0 then -i.activityId else i.activityId, '&');
    hide Split, Printed, Decimal, Items, EAOf;
    SplitPrinted(pairs);
    EAPrefix(i, 3);
    assert pairs[..3] == pairs;
  }
}
