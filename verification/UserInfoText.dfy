// The two parsers of [protocol/]username.pid:sid@host.
module UserInfoText {
  import opened Records
  import opened Text
  import opened Numbers
  import opened Keys

  // The protocol in front of the first '/', if any, and the rest.
  function Protocol(s: string): string
  {
    if '/' in s then Before(s, '/') else ""
  }

  function AfterProtocol(s: string): string
  {
    if '/' in s then After(s, '/') else s
  }

  // collector.parseUserInfo: cuts at the first '@', '/', '.' and ':'.
  function CollectorUserInfo(s: string): Result<UserInfo>
  {
    if '@' !in s then Err
    else
      match CollectorLogin(AfterProtocol(Before(s, '@')))
      case Err => Err
      case Ok(i) => Ok(i.(protocol := Protocol(Before(s, '@')), host := After(s, '@')))
  }

  // username.pid:sid
  function CollectorLogin(login: string): Result<UserInfo>
  {
    if '.' !in login then Err
    else
      var pidSid := After(login, '.');
      var pid := if ':' in pidSid then Atoi(Before(pidSid, ':')) else 0;
      var sid := if ':' in pidSid then Atoi(After(pidSid, ':')) else 0;
      Ok(UserInfo("", Before(login, '.'), pid, sid, ""))
  }

  // parser.parseUserInfo: cuts at the first '/', the last '@', the first ':'
  // and the last '.', and insists on numbers.
  function ParserUserInfo(s: string): Result<UserInfo>
  {
    match ParserLogin(AfterProtocol(s))
    case Err => Err
    case Ok(i) => Ok(i.(protocol := Protocol(s)))
  }

  // username.pid:sid@host
  function ParserLogin(login: string): Result<UserInfo>
  {
    var at := LastIndexOf(login, '@');
    if at < 0 || ':' !in login[..at] then Err
    else
      var name := Before(login[..at], ':');
      var dot := LastIndexOf(name, '.');
      if dot < 0 then Err
      else
        match ScanInt(name[dot + 1..])
        case None => Err
        case Some(pid) =>
          match ScanInt(After(login[..at], ':'))
          case None => Err
          case Some(sid) => Ok(UserInfo("", name[..dot], pid, sid, login[at + 1..]))
  }

  function PrintLogin(i: UserInfo): string
  {
    i.username + "." + (SignedDecimal(i.pid) + ":" + SignedDecimal(i.sid))
  }

  function PrintProtocol(i: UserInfo): string
  {
    if i.protocol == "" then "" else i.protocol + "/"
  }

  function Print(i: UserInfo): string
  {
    PrintProtocol(i) + PrintLogin(i) + "@" + i.host
  }

  // ---- Numbers inside

  lemma PlainNumbers(x: int, c: char)
    requires !IsDigit(c) && c != '-'
    ensures c !in SignedDecimal(x)
  {}

  // ---- The collector's parser

  // The user infos it reads back: exactly these.
  predicate CollectorPrintable(i: UserInfo)
  {
    && '@' !in i.protocol && '/' !in i.protocol
    && '@' !in i.username && '.' !in i.username && (i.protocol == "" ==> '/' !in i.username)
    && IsInt64(i.pid) && IsInt64(i.sid)
  }

  lemma CollectorResult(s: string)
    ensures CollectorUserInfo(s).Ok? ==>
            var i := CollectorUserInfo(s).value;
            && '@' !in i.protocol && '/' !in i.protocol
            && '@' !in i.username && '.' !in i.username
            && IsInt64(i.pid) && IsInt64(i.sid)
  {
    var part := Before(s, '@');
    CutFacts(s, '@');
    CutFacts(part, '/');
    CutFacts(AfterProtocol(part), '.');
    hide Before, After, Atoi;
    IntegersOf(AfterProtocol(part));
  }

  lemma IntegersOf(login: string)
    ensures CollectorLogin(login).Ok? ==>
            IsInt64(CollectorLogin(login).value.pid) && IsInt64(CollectorLogin(login).value.sid)
  {
    hide Before, After, ParseUint;
  }

  lemma CollectorReadsLogin(u: string, pid: int, sid: int)
    requires '.' !in u && IsInt64(pid) && IsInt64(sid)
    ensures CollectorLogin(u + "." + (SignedDecimal(pid) + ":" + SignedDecimal(sid))) ==
            Ok(UserInfo("", u, pid, sid, ""))
  {
    CutAt(u, '.', SignedDecimal(pid) + ":" + SignedDecimal(sid));
    PlainNumbers(pid, ':');
    CutAt(SignedDecimal(pid), ':', SignedDecimal(sid));
    AtoiRoundTrip(pid);
    AtoiRoundTrip(sid);
  }

  // The part before the '@' and what is behind it.
  lemma CollectorSplits(i: UserInfo)
    requires '@' !in i.protocol && '@' !in i.username
    ensures var s := Print(i);
            '@' in s && Before(s, '@') == PrintProtocol(i) + PrintLogin(i) && After(s, '@') == i.host
  {
    PlainNumbers(i.pid, '@');
    PlainNumbers(i.sid, '@');
    CutAt(PrintProtocol(i) + PrintLogin(i), '@', i.host);
  }

  lemma CollectorRoundTrip(i: UserInfo)
    ensures CollectorUserInfo(Print(i)) == Ok(i) <==> CollectorPrintable(i)
  {
    CollectorResult(Print(i));
    if '@' !in i.protocol && '@' !in i.username {
      CollectorSplits(i);
      hide Before, After, CollectorLogin;
      if CollectorPrintable(i) {
        CollectorReads(i);
      } else if i.protocol == "" && '/' in i.username && '.' !in i.username && IsInt64(i.pid) && IsInt64(i.sid) {
        CollectorMisreads(i);
      }
    }
  }

  lemma CollectorReads(i: UserInfo)
    requires CollectorPrintable(i)
    ensures var part := PrintProtocol(i) + PrintLogin(i);
            && Protocol(part) == i.protocol
            && CollectorLogin(AfterProtocol(part)) == Ok(i.(protocol := "", host := ""))
  {
    var part := PrintProtocol(i) + PrintLogin(i);
    CollectorReadsLogin(i.username, i.pid, i.sid);
    if i.protocol == "" {
      PlainNumbers(i.pid, '/');
      PlainNumbers(i.sid, '/');
      assert part == PrintLogin(i);
    } else {
      CutAt(i.protocol, '/', PrintLogin(i));
      assert part == i.protocol + "/" + PrintLogin(i);
    }
  }

  // Without a protocol, a '/' in the username is taken for one.
  lemma CollectorMisreads(i: UserInfo)
    requires i.protocol == "" && '/' in i.username && '.' !in i.username && IsInt64(i.pid) && IsInt64(i.sid)
    ensures CollectorLogin(AfterProtocol(PrintProtocol(i) + PrintLogin(i))) !=
            Ok(i.(protocol := "", host := ""))
  {
    var rest := "." + (SignedDecimal(i.pid) + ":" + SignedDecimal(i.sid));
    assert PrintProtocol(i) + PrintLogin(i) == i.username + rest;
    CutInFront(i.username, '/', rest);
    CutFacts(i.username, '/');
    var u := After(i.username, '/');
    assert u + rest == u + "." + (SignedDecimal(i.pid) + ":" + SignedDecimal(i.sid));
    CollectorReadsLogin(u, i.pid, i.sid);
  }

  // ---- The packet parser's parser

  // The user infos it reads back: exactly these.
  predicate ParserPrintable(i: UserInfo)
  {
    && '/' !in i.protocol
    && (i.protocol == "" ==> '/' !in i.username && '/' !in i.host)
    && ':' !in i.username && '@' !in i.host
    && IsInt64(i.pid) && IsInt64(i.sid)
  }

  lemma ParserResult(s: string)
    ensures ParserUserInfo(s).Ok? ==>
            var i := ParserUserInfo(s).value;
            '/' !in i.protocol && ':' !in i.username && '@' !in i.host && IsInt64(i.pid) && IsInt64(i.sid)
  {
    CutFacts(s, '/');
    ParserLoginResult(AfterProtocol(s));
    hide Before, After, ParserLogin;
  }

  lemma ParserLoginResult(login: string)
    ensures ParserLogin(login).Ok? ==>
            var i := ParserLogin(login).value;
            ':' !in i.username && '@' !in i.host && IsInt64(i.pid) && IsInt64(i.sid)
  {
    hide ParseUint, DigitRun, Unsign, SkipBlanks;
    var at := LastIndexOf(login, '@');
    if at >= 0 {
      CutFacts(login[..at], ':');
      hide Before, After;
    }
  }

  lemma ParserReadsLogin(i: UserInfo)
    requires ':' !in i.username && '@' !in i.host && IsInt64(i.pid) && IsInt64(i.sid)
    ensures ParserLogin(PrintLogin(i) + "@" + i.host) == Ok(i.(protocol := ""))
  {
    hide SignedDecimal, ScanInt, Before, After, LastIndexOf;
    var pid, sid := SignedDecimal(i.pid), SignedDecimal(i.sid);
    var login := PrintLogin(i) + "@" + i.host;
    var name := i.username + "." + pid;
    assert PrintLogin(i) == name + ":" + sid;
    PlainNumbers(i.pid, ':');
    PlainNumbers(i.pid, '.');
    PlainNumbers(i.sid, '@');
    assert ':' !in name;
    hide PrintLogin;
    LastIndexAt(PrintLogin(i), '@', i.host);
    CutAt(name, ':', sid);
    LastIndexAt(i.username, '.', pid);
    assert login[..|PrintLogin(i)|] == PrintLogin(i) && login[|PrintLogin(i)| + 1..] == i.host;
    assert name[..|i.username|] == i.username && name[|i.username| + 1..] == pid;
    ScanIntRoundTrip(i.pid);
    ScanIntRoundTrip(i.sid);
  }

  lemma ParserRoundTrip(i: UserInfo)
    ensures ParserUserInfo(Print(i)) == Ok(i) <==> ParserPrintable(i)
  {
    ParserResult(Print(i));
    if '/' !in i.protocol && ':' !in i.username && '@' !in i.host && IsInt64(i.pid) && IsInt64(i.sid) {
      if ParserPrintable(i) {
        ParserReads(i);
      } else {
        PlainNumbers(i.pid, '/');
        SlashInside(i);
        ParserMisreads(i);
      }
    }
    hide ParserUserInfo, Print;
  }

  lemma SlashInside(i: UserInfo)
    requires i.protocol == "" && ('/' in i.username || '/' in i.host)
    ensures '/' in Print(i)
  {
    if c :| 0 <= c < |i.username| && i.username[c] == '/' {
      assert Print(i)[c] == '/';
    } else {
      var c :| 0 <= c < |i.host| && i.host[c] == '/';
      assert Print(i)[|PrintLogin(i)| + 1 + c] == '/';
    }
  }

  lemma ProtocolCut(i: UserInfo, login: string)
    requires '/' !in i.protocol
    requires i.protocol == "" ==> '/' !in login
    ensures var s := PrintProtocol(i) + login; Protocol(s) == i.protocol && AfterProtocol(s) == login
  {
    if i.protocol == "" {
      assert PrintProtocol(i) + login == login;
    } else {
      CutAt(i.protocol, '/', login);
    }
  }

  lemma NoSlashInside(i: UserInfo)
    requires '/' !in i.username && '/' !in i.host
    ensures '/' !in PrintLogin(i) + "@" + i.host
  {
    PlainNumbers(i.pid, '/');
    PlainNumbers(i.sid, '/');
    hide SignedDecimal;
  }

  lemma ParserReads(i: UserInfo)
    requires ParserPrintable(i)
    ensures ParserUserInfo(Print(i)) == Ok(i)
  {
    hide PrintLogin, ParserLogin, Protocol, AfterProtocol, PrintProtocol;
    var login := PrintLogin(i) + "@" + i.host;
    ParserReadsLogin(i);
    if i.protocol == "" {
      NoSlashInside(i);
    }
    ProtocolCut(i, login);
    assert Print(i) == PrintProtocol(i) + login;
  }

  // Without a protocol, a '/' anywhere else is taken for the end of one.
  lemma ParserMisreads(i: UserInfo)
    requires i.protocol == "" && ':' !in i.username && '@' !in i.host && IsInt64(i.pid) && IsInt64(i.sid)
    requires '/' in Print(i)
    ensures ParserUserInfo(Print(i)) != Ok(i)
  {
    var s := Print(i);
    if Protocol(s) == "" {
      assert s[0] == '/' && i.username[0] == '/';
      var j := i.(username := i.username[1..]);
      assert After(s, '/') == s[1..];
      assert PrintLogin(i)[1..] == PrintLogin(j);
      assert s[1..] == PrintLogin(j) + "@" + i.host;
      ParserReadsLogin(j);
    }
  }

  // ---- What the parsers make of a line

  // The text of a user info whose protocol is cut off by a '/' of its own.
  function Spelled(i: UserInfo): string
  {
    i.protocol + "/" + PrintLogin(i) + "@" + i.host
  }

  lemma SpelledInOneLine(i: UserInfo)
    requires InOneLine(i)
    ensures '\n' !in Spelled(i)
  {
    PlainNumbers(i.pid, '\n');
    PlainNumbers(i.sid, '\n');
    hide SignedDecimal;
  }

  lemma CutInOneLine(s: string, c: char)
    requires '\n' !in s
    ensures '\n' !in Before(s, c) && '\n' !in After(s, c)
  {}

  lemma PacketMadeOf(s: string)
    requires '\n' !in s && ParserUserInfo(s).Ok?
    ensures PacketMade(ParserUserInfo(s).value)
  {
    ParserResult(s);
    CutInOneLine(s, '/');
    var login := AfterProtocol(s);
    var at := LastIndexOf(login, '@');
    CutInOneLine(login[..at], ':');
    hide Before, After, ScanInt;
  }

  lemma CollectorMadeOf(s: string)
    requires '\n' !in s && CollectorUserInfo(s).Ok?
    ensures CollectorMade(CollectorUserInfo(s).value)
  {
    CollectorResult(s);
    CutInOneLine(s, '@');
    CutInOneLine(Before(s, '@'), '/');
    CutInOneLine(AfterProtocol(Before(s, '@')), '.');
    hide Before, After, Atoi;
  }

  lemma PacketReadsSpelled(i: UserInfo)
    requires PacketMade(i) && IsInt64(i.pid) && IsInt64(i.sid)
    ensures ParserUserInfo(Spelled(i)) == Ok(i)
  {
    hide PrintLogin, ParserLogin, Before, After;
    var login := PrintLogin(i) + "@" + i.host;
    assert Spelled(i) == i.protocol + "/" + login;
    hide Spelled;
    ParserReadsLogin(i);
    CutAt(i.protocol, '/', login);
  }

  lemma CollectorReadsSpelled(i: UserInfo)
    requires CollectorMade(i) && IsInt64(i.pid) && IsInt64(i.sid)
    ensures CollectorUserInfo(Spelled(i)) == Ok(i)
  {
    hide Before, After, CollectorLogin, SignedDecimal;
    var part := i.protocol + "/" + PrintLogin(i);
    PlainNumbers(i.pid, '@');
    PlainNumbers(i.sid, '@');
    CollectorReadsLogin(i.username, i.pid, i.sid);
    assert '@' !in part;
    assert Spelled(i) == part + "@" + i.host;
    hide Spelled, PrintLogin;
    CutAt(part, '@', i.host);
    CutAt(i.protocol, '/', PrintLogin(i));
  }

  // Exactly the user infos that come out of each parser.
  lemma PacketMadeExactly(i: UserInfo)
    ensures PacketMade(i) && IsInt64(i.pid) && IsInt64(i.sid) <==>
            exists s :: '\n' !in s && ParserUserInfo(s) == Ok(i)
  {
    if PacketMade(i) && IsInt64(i.pid) && IsInt64(i.sid) {
      SpelledInOneLine(i);
      PacketReadsSpelled(i);
      assert '\n' !in Spelled(i) && ParserUserInfo(Spelled(i)) == Ok(i);
    }
    forall s | '\n' !in s && ParserUserInfo(s) == Ok(i)
      ensures PacketMade(i) && IsInt64(i.pid) && IsInt64(i.sid)
    {
      PacketMadeOf(s);
      ParserResult(s);
    }
    hide ParserUserInfo, PacketMade, Spelled;
  }

  lemma CollectorMadeExactly(i: UserInfo)
    ensures CollectorMade(i) && IsInt64(i.pid) && IsInt64(i.sid) <==>
            exists s :: '\n' !in s && CollectorUserInfo(s) == Ok(i)
  {
    if CollectorMade(i) && IsInt64(i.pid) && IsInt64(i.sid) {
      SpelledInOneLine(i);
      CollectorReadsSpelled(i);
      assert '\n' !in Spelled(i) && CollectorUserInfo(Spelled(i)) == Ok(i);
    }
    forall s | '\n' !in s && CollectorUserInfo(s) == Ok(i)
      ensures CollectorMade(i) && IsInt64(i.pid) && IsInt64(i.sid)
    {
      CollectorMadeOf(s);
      CollectorResult(s);
    }
    hide CollectorUserInfo, CollectorMade, Spelled;
  }

  // What either parser makes of a line has a clean user key.
  lemma ParsedInfosAreClean(s: string)
    requires '\n' !in s
    ensures CollectorUserInfo(s).Ok? ==> Clean(UserKeyOf(CollectorUserInfo(s).value))
    ensures ParserUserInfo(s).Ok? ==> PacketMade(ParserUserInfo(s).value) && Clean(UserKeyOf(ParserUserInfo(s).value))
  {
    if CollectorUserInfo(s).Ok? {
      CollectorMadeOf(s);
      MadeIsClean(CollectorUserInfo(s).value);
    }
    if ParserUserInfo(s).Ok? {
      PacketMadeOf(s);
      MadeIsClean(ParserUserInfo(s).value);
    }
  }

  // The two parsers agree on everything both can print.
  lemma ParsersAgree(i: UserInfo)
    requires CollectorPrintable(i) && ParserPrintable(i)
    ensures CollectorUserInfo(Print(i)) == Ok(i) == ParserUserInfo(Print(i))
  {
    CollectorRoundTrip(i);
    ParserRoundTrip(i);
  }

  // ---- What the parsers make of any text

  // The collector's parser on [protocol/]username.numbers@host, cut at the
  // first of each separator.
  lemma CollectorOf(protocol: Option<string>, username: string, numbers: string, host: string)
    requires var login := username + "." + numbers;
             && '@' !in login && '.' !in username
             && (protocol.Some? ==> '/' !in protocol.value && '@' !in protocol.value)
             && (protocol.None? ==> '/' !in login)
    ensures var login := username + "." + numbers;
            var front := if protocol.Some? then protocol.value + "/" + login else login;
            var p := if protocol.Some? then protocol.value else "";
            CollectorUserInfo(front + "@" + host) ==
            Ok(UserInfo(p, username,
                        if ':' in numbers then Atoi(Before(numbers, ':')) else 0,
                        if ':' in numbers then Atoi(After(numbers, ':')) else 0, host))
  {
    var login := username + "." + numbers;
    var front := if protocol.Some? then protocol.value + "/" + login else login;
    CutAt(username, '.', numbers);
    if protocol.Some? {
      CutAt(protocol.value, '/', login);
    }
    assert '@' !in front;
    hide Before, After, Atoi;
    CutAt(front, '@', host);
  }

  // The two numbers stand before and behind the first ':'.
  lemma NumbersOf(pid: string, sid: string)
    requires ':' !in pid
    ensures var numbers := pid + ":" + sid;
            ':' in numbers && Before(numbers, ':') == pid && After(numbers, ':') == sid
  {
    CutAt(pid, ':', sid);
  }

  // It refuses a text without an '@', and one without a '.' between the first
  // '/', if there is one before it, and the first '@'; nothing else.
  lemma CollectorRefuses(s: string)
    ensures CollectorUserInfo(s).Err? <==>
            '@' !in s || '.' !in (if '/' in Before(s, '@') then After(Before(s, '@'), '/') else Before(s, '@'))
  {
    hide Before, After, Atoi;
  }

  // The packet parser's on [protocol/]username.pid:sid@host, cut at the first
  // '/', the last '@' behind it, the first ':' and the last '.' before that.
  lemma PacketOf(protocol: Option<string>, username: string, pid: string, sid: string, host: string)
    requires var login := username + "." + pid + ":" + sid + "@" + host;
             && '@' !in host && ':' !in username && ':' !in pid && '.' !in pid
             && (protocol.Some? ==> '/' !in protocol.value)
             && (protocol.None? ==> '/' !in login)
    ensures var login := username + "." + pid + ":" + sid + "@" + host;
            var s := if protocol.Some? then protocol.value + "/" + login else login;
            var p := if protocol.Some? then protocol.value else "";
            ParserUserInfo(s) ==
            if ScanInt(pid).Some? && ScanInt(sid).Some?
            then Ok(UserInfo(p, username, ScanInt(pid).value, ScanInt(sid).value, host))
            else Err
  {
    var login := username + "." + pid + ":" + sid + "@" + host;
    PacketLoginOf(username, pid, sid, host);
    if protocol.Some? {
      CutAt(protocol.value, '/', login);
    }
    hide Before, After, ScanInt, ParserLogin;
  }

  lemma PacketLoginOf(username: string, pid: string, sid: string, host: string)
    requires '@' !in host && ':' !in username && ':' !in pid && '.' !in pid
    ensures ParserLogin(username + "." + pid + ":" + sid + "@" + host) ==
            if ScanInt(pid).Some? && ScanInt(sid).Some?
            then Ok(UserInfo("", username, ScanInt(pid).value, ScanInt(sid).value, host))
            else Err
  {
    hide Before, After, ScanInt, LastIndexOf;
    var name := username + "." + pid;
    var front := name + ":" + sid;
    var login := front + "@" + host;
    assert username + "." + pid + ":" + sid + "@" + host == login;
    assert ':' !in name;
    LastIndexAt(front, '@', host);
    CutAt(name, ':', sid);
    LastIndexAt(username, '.', pid);
    assert login[..|front|] == front && login[|front| + 1..] == host;
    assert name[..|username|] == username && name[|username| + 1..] == pid;
  }

  // It refuses a text with no '@' behind the first '/', or no ':' before the
  // last '@' there, or no '.' before that ':'.
  lemma PacketRefuses(protocol: Option<string>, front: string, host: string)
    requires '@' !in host && (protocol.Some? ==> '/' !in protocol.value)
    ensures protocol.Some? ==> ParserUserInfo(protocol.value + "/" + host) == Err
    ensures protocol.None? && '/' !in host ==> ParserUserInfo(host) == Err
    ensures var s := front + "@" + host;
            (':' !in front || '.' !in Before(front, ':')) ==>
              && (protocol.Some? ==> ParserUserInfo(protocol.value + "/" + s) == Err)
              && (protocol.None? && '/' !in s ==> ParserUserInfo(s) == Err)
  {
    var s := front + "@" + host;
    if protocol.Some? {
      CutAt(protocol.value, '/', host);
      CutAt(protocol.value, '/', s);
    }
    LastIndexAt(front, '@', host);
    assert s[..|front|] == front;
    hide Before, After, ScanInt, LastIndexOf;
  }
}
