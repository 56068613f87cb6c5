// A user's session as it is sent, datagram by datagram, and the record it ends in.
module Sessions {
  import opened BigEndian
  import opened Records
  import opened Text
  import opened Numbers
  import opened UserInfoText
  import opened KeyValue
  import opened Keys
  import opened FStream
  import opened FStreamWire
  import opened StateMaps
  import opened CorrelatorModel
  import opened ServerIsolation
  import opened PacketEffects
  import opened Packets
  import opened PacketWire
  import opened WireTransfer
  import opened Datagrams
  import opened History
  import opened CloseRecords
  import CloseMatching
  import Attribution

  type Typed = Tables<LocalKey>

  lemma NoCloseNoRecord(m: Machine<LocalKey>, t: Typed, o: Origin, job: Job, at: int)
    requires !(job.FileJob? && job.file.CloseRecord?)
    ensures Emitted(m, t, Handle(o, job, at)) == []
  {
    hide MappingWrites, UserWrites, DictAt, IdOf, OpenName;
  }

  // ---- What is known at some time of a session, and will be until its end

  datatype Known = Known(site: ServerInfo, dictId: nat, info: UserInfo, user: UserState, end: int)

  ghost predicate Holds(t: Typed, n: Known)
  {
    var id, k := DictIdKey(n.dictId), UserKeyOf(n.info);
    && ServerKey in t.servers && t.servers[ServerKey].value == n.site && n.end <= t.servers[ServerKey].expiresAt
    && id in t.dicts && t.dicts[id].value == KnownUser(n.info) && n.end <= t.dicts[id].expiresAt
    && k in t.users && t.users[k].value == n.user && n.end <= t.users[k].expiresAt
    && forall p: nat :: PathKey(p) !in t.dicts
  }

  // A server identification and a login.
  lemma LoginHolds(ttl: nat, o: Origin, site: ServerInfo, login: UserRecord, t1: int, t2: int, end: int)
    requires login.tokenInfo.userDictId == 0 && end <= t1 + ttl && end <= t2 + ttl
    ensures var m := TypedMachine(ttl);
            var t := Step(m, Step(m, Empty(), Handle(o, ServerJob(site), t1)), Handle(o, UserJob(login), t2));
            Holds(t, Known(site, login.dictId, login.userInfo,
                           UserState(login.dictId, login.userInfo, login.authInfo, login.tokenInfo, "", 0, 0, t2), end))
  {
    hide Step, IdOf, UserKeyOf;
    var m := TypedMachine(ttl);
    ServerTables(m, Empty(), o, site, t1);
    LoginTables(m, Step(m, Empty(), Handle(o, ServerJob(site), t1)), o, login, t2);
  }

  lemma AppHolds(ttl: nat, t: Typed, n: Known, o: Origin, text: string, at: int)
    requires Holds(t, n) && at <= n.end <= at + ttl
    requires FirstLine(text) == Ok(n.info) && '\n' in text
    ensures Holds(Step(TypedMachine(ttl), t, Handle(o, MappingJob('i', n.dictId, text), at)),
                  n.(user := n.user.(appInfo := After(text, '\n'))))
  {
    hide Step, IdOf, UserKeyOf, FirstLine, After;
    AppTables(TypedMachine(ttl), t, o, n.dictId, text, n.info, at);
  }

  lemma CodesHold(ttl: nat, t: Typed, n: Known, o: Origin, id: nat, text: string, named: UserInfo, at: int)
    requires Holds(t, n) && at <= n.end <= at + ttl && n.dictId != 0
    requires FirstLine(text) == Ok(named) && '\n' in text && EAOf(Split(After(text, '\n'), '&')).udid == n.dictId
    ensures var codes := EAOf(Split(After(text, '\n'), '&'));
            Holds(Step(TypedMachine(ttl), t, Handle(o, MappingJob('U', id, text), at)),
                  n.(user := n.user.(experimentId := codes.experimentId, activityId := codes.activityId)))
  {
    hide Step, IdOf, UserKeyOf, FirstLine, After, EAOf, Split;
    CodesTables(TypedMachine(ttl), t, o, id, text, named, n.info, at);
  }

  lemma TokenHolds(ttl: nat, t: Typed, n: Known, o: Origin, rec: UserRecord, at: int)
    requires Holds(t, n) && at <= n.end <= at + ttl && n.dictId != 0 && rec.tokenInfo.userDictId == n.dictId
    ensures Holds(Step(TypedMachine(ttl), t, Handle(o, UserJob(rec), at)),
                  n.(user := n.user.(tokenInfo := rec.tokenInfo)))
  {
    hide Step, IdOf, UserKeyOf;
    TokenTables(TypedMachine(ttl), t, o, rec, n.info, n.user, at);
  }

  // An open and its close, under the user's id.
  lemma TransferHolds(ttl: nat, t: Typed, n: Known, o: Origin, open: FileRecord, close: FileRecord, t6: int)
    requires Holds(t, n) && t6 <= n.end <= t6 + ttl && n.dictId != 0
    requires open.OpenRecord? && open.header.userId == n.dictId
    requires close.CloseRecord? && close.header.fileId == open.header.fileId
    ensures var m, u := TypedMachine(ttl), n.user;
            Emitted(m, Step(m, t, Handle(o, FileJob(open), t6)), Handle(o, FileJob(close), n.end)) ==
            [Record(n.end, o.serverStart, IdOf(o), o.remoteAddr,
                    if n.site.site != "" then n.site.site else "UNKNOWN",
                    u.userInfo.username, u.userInfo.host, u.userInfo.protocol,
                    u.authInfo, u.tokenInfo.(userDictId := 0), u.appInfo, u.experimentId, u.activityId,
                    AsText(open.lfn), open.fileSize, close.xfr, close.ops)]
  {
    hide Step, IdOf, UserKeyOf, AsText, Emitted;
    var m := TypedMachine(ttl);
    OpenTables(m, t, o, open, t6);
    NameGiven(ttl, t, IdOf(o), open, t6);
    var file := OpenState(At(m, t6), t, o, open);
    hide OpenName;
    Attribution.CloseOf(ttl, Step(m, t, Handle(o, FileJob(open), t6)), Handle(o, FileJob(close), n.end), file, n.info,
                        n.user);
    hide OpenState;
  }

  // ---- As datagrams

  // One packet of each kind a session is made of, in the order they are sent.
  datatype Session = Session(origin: Origin, dictId: nat, info: UserInfo, program: string, site: ServerInfo,
                             auth: AuthInfo, app: string, experimentId: int, activityId: int, token: TokenInfo,
                             open: WireRecord, close: WireRecord, leads: (Lead, Lead),
                             seqNos: seq<byte>, times: seq<int>)

  function ServerText(s: Session): string { s.program + "\n" + Printed(ServerPairs(s.site)) }

  function AppText(s: Session): string { Print(s.info) + "\n" + s.app }

  function CodesText(s: Session): string
  {
    Print(s.info) + "\n" + Printed(EAPairs(EAInfo(s.dictId, s.experimentId, s.activityId)))
  }

  // All within the time to live.
  predicate InTime(s: Session, ttl: nat)
  {
    && |s.times| == 7 && |s.seqNos| == 7 && s.times[6] <= s.times[0] + ttl
    && s.times[0] <= s.times[1] <= s.times[2] <= s.times[3] <= s.times[4] <= s.times[5] <= s.times[6]
  }

  // The identification of the server names the program and its settings.
  ghost predicate ServerCanBeSent(s: Session)
  {
    && CanSend(s.origin.serverStart, 0, ServerText(s)) && '\n' !in s.program && AllPrintable(ServerPairs(s.site))
  }

  // Both parsers can read the user info; the id is the token's and the codes' too.
  ghost predicate UserCanBeSent(s: Session)
  {
    var start := s.origin.serverStart;
    && s.dictId != 0 && s.token.userDictId == s.dictId && CollectorPrintable(s.info)
    && Sendable(start, s.dictId, s.info, AuthPairs(s.auth)) && Sendable(start, s.dictId, s.info, TokenPairs(s.token))
    && CanSend(start, s.dictId, AppText(s)) && CanSend(start, s.dictId, CodesText(s))
    && IsInt64(s.experimentId) && IsInt64(s.activityId)
  }

  ghost predicate FilesCanBeSent(s: Session)
  {
    && s.open.WireOpen? && HasUser(s.open.flag) && s.open.user == s.dictId && WellFormedBody(s.leads.0, [s.open])
    && s.close.WireClose? && s.close.id == s.open.id && WellFormedBody(s.leads.1, [s.close])
    && 8 + |BodyBytes(s.leads.0, [s.open])| < Pow256(2) && 8 + |BodyBytes(s.leads.1, [s.close])| < Pow256(2)
    && FitsSigned(s.origin.serverStart, 4)
  }

  // Every text is made of bytes.
  predicate InBytes(s: Session)
  {
    && Narrow(ServerText(s)) && Narrow(LoginText(s.info, AuthPairs(s.auth))) && Narrow(AppText(s))
    && Narrow(CodesText(s)) && Narrow(LoginText(s.info, TokenPairs(s.token)))
  }

  // The i-th datagram.
  function Sent(s: Session, i: nat): Input
    requires i < 7 && |s.times| == 7 && |s.seqNos| == 7 && InBytes(s)
  {
    var seqNo, start, id := s.seqNos[i], s.origin.serverStart, s.dictId;
    var bytes :=
      match i
      case 0 => TextPacket('=' as int, seqNo, start, 0, ServerText(s))
      case 1 => TextPacket('u' as int, seqNo, start, id, LoginText(s.info, AuthPairs(s.auth)))
      case 2 => TextPacket('i' as int, seqNo, start, id, AppText(s))
      case 3 => TextPacket('U' as int, seqNo, start, id, CodesText(s))
      case 4 => TextPacket('T' as int, seqNo, start, id, LoginText(s.info, TokenPairs(s.token)))
      case 5 => StreamPacket(seqNo, start, BodyBytes(s.leads.0, [s.open]))
      case _ => StreamPacket(seqNo, start, BodyBytes(s.leads.1, [s.close]));
    Datagram(bytes, s.origin.remoteAddr, s.times[i])
  }

  // What each is taken for.
  function Told(s: Session, i: nat): Job
    requires i < 7 && Meaning(s.open).Some? && Meaning(s.close).Some?
  {
    match i
    case 0 => ServerJob(s.site)
    case 1 => UserJob(UserRecord(s.dictId, s.info, s.auth, NO_TOKEN))
    case 2 => MappingJob('i', s.dictId, AppText(s))
    case 3 => MappingJob('U', s.dictId, CodesText(s))
    case 4 => UserJob(UserRecord(s.dictId, s.info, NO_AUTH, s.token))
    case 5 => FileJob(Meaning(s.open).value)
    case _ => FileJob(Meaning(s.close).value)
  }

  lemma OneTextPacket(b: seq<byte>, o: Origin, body: Body, job: Job, at: int, json: JsonLine)
    requires Parsed(b, o.remoteAddr, json) == Ok(Packet(o.serverStart, o.remoteAddr, body)) && Jobs(body) == [job]
    ensures InputEvents(Datagram(b, o.remoteAddr, at), json) == [Handle(o, job, at)]
  {
    hide Parsed, Jobs;
  }

  ghost predicate CanBeSent(s: Session)
  {
    && |s.times| == 7 && |s.seqNos| == 7 && InBytes(s)
    && ServerCanBeSent(s) && UserCanBeSent(s) && FilesCanBeSent(s)
  }

  lemma SendableIsNarrow(start: int, dictId: nat, i: UserInfo, pairs: seq<Pair>)
    requires Sendable(start, dictId, i, pairs)
    ensures Narrow(LoginText(i, pairs)) && dictId <= MAX_UINT32
  {
    Powers();
    hide Narrow, LoginText, ParserPrintable, AllPrintable;
  }

  lemma ServerIsTold(s: Session, seqNo: byte, at: int, json: JsonLine)
    requires ServerCanBeSent(s)
    ensures Narrow(ServerText(s))
    ensures InputEvents(Datagram(TextPacket('=' as int, seqNo, s.origin.serverStart, 0, ServerText(s)),
                                 s.origin.remoteAddr, at), json) == [Handle(s.origin, ServerJob(s.site), at)]
  {
    hide TextPacket, Narrow, Parsed, Printed, ServerPairs, AllPrintable, InputEvents;
    ServerPacket(seqNo, s.origin.serverStart, s.origin.remoteAddr, 0, s.program, s.site, json);
    OneTextPacket(TextPacket('=' as int, seqNo, s.origin.serverStart, 0, ServerText(s)), s.origin, Server(s.site),
                  ServerJob(s.site), at, json);
  }

  lemma MappingIsTold(kind: char, o: Origin, dictId: nat, text: string, seqNo: byte, at: int, json: JsonLine)
    requires kind in {'d', 'i', 'U'} && CanSend(o.serverStart, dictId, text)
    ensures InputEvents(Datagram(TextPacket(kind as int, seqNo, o.serverStart, dictId, text), o.remoteAddr, at), json)
            == [Handle(o, MappingJob(kind, dictId, text), at)]
  {
    hide TextPacket, Narrow, Parsed, InputEvents;
    MappingPacket(kind, seqNo, o.serverStart, o.remoteAddr, dictId, text, json);
    OneTextPacket(TextPacket(kind as int, seqNo, o.serverStart, dictId, text), o, Mapping(kind, dictId, text),
                  MappingJob(kind, dictId, text), at, json);
  }

  lemma UserIsTold(o: Origin, b: seq<byte>, rec: UserRecord, at: int, json: JsonLine)
    requires Parsed(b, o.remoteAddr, json) == Ok(Packet(o.serverStart, o.remoteAddr, User(rec)))
    ensures InputEvents(Datagram(b, o.remoteAddr, at), json) == [Handle(o, UserJob(rec), at)]
  {
    OneUserPacket(b, o, rec, at, json);
    hide *;
  }

  lemma SentIsKnown(s: Session)
    requires CanBeSent(s)
    ensures Meaning(s.open).Some? && Meaning(s.close).Some? && s.dictId <= MAX_UINT32
  {
    hide InBytes, Sendable, BodyBytes, WellFormedBody, ServerCanBeSent, AppText, CodesText;
    SendableIsNarrow(s.origin.serverStart, s.dictId, s.info, AuthPairs(s.auth));
  }

  lemma AllTold(s: Session, i: nat, json: JsonLine)
    requires CanBeSent(s) && i < 7
    ensures Meaning(s.open).Some? && Meaning(s.close).Some?
    ensures InputEvents(Sent(s, i), json) == [Handle(s.origin, Told(s, i), s.times[i])]
  {
    SentIsKnown(s);
    hide Narrow, Sendable, TextPacket, StreamPacket, BodyBytes, WellFormedBody, InputEvents, Pow256, FitsSigned;
    hide LoginText, AuthPairs, TokenPairs, ServerCanBeSent, Parsed, AppText, CodesText, ServerText, Meaning, CanSend;
    var o, at, seqNo := s.origin, s.times[i], s.seqNos[i];
    if i == 0 {
      ServerIsTold(s, seqNo, at, json);
    } else if i == 1 {
      LoginPacket(seqNo, o.serverStart, o.remoteAddr, s.dictId, s.info, s.auth, json);
      UserIsTold(o, Sent(s, i).bytes, UserRecord(s.dictId, s.info, s.auth, NO_TOKEN), at, json);
    } else if i == 2 {
      MappingIsTold('i', o, s.dictId, AppText(s), seqNo, at, json);
    } else if i == 3 {
      MappingIsTold('U', o, s.dictId, CodesText(s), seqNo, at, json);
    } else if i == 4 {
      TokenPacket(seqNo, o.serverStart, o.remoteAddr, s.dictId, s.info, s.token, json);
      UserIsTold(o, Sent(s, i).bytes, UserRecord(s.dictId, s.info, NO_AUTH, s.token), at, json);
    } else if i == 5 {
      OneRecordPacket(seqNo, o, s.leads.0, s.open, at, json);
    } else {
      OneRecordPacket(seqNo, o, s.leads.1, s.close, at, json);
    }
  }

  // ---- Streams of one event each

  lemma {:induction false} OneEach(inputs: seq<Input>, events: seq<Event>, json: JsonLine)
    requires |inputs| == |events| && forall i :: 0 <= i < |inputs| ==> InputEvents(inputs[i], json) == [events[i]]
    ensures StreamEvents(inputs, json) == events
  {
    hide InputEvents;
    if inputs != [] {
      OneEach(inputs[1..], events[1..], json);
      assert events == [events[0]] + events[1..];
    }
  }

  lemma {:induction false} QuietRun(m: Machine<LocalKey>, t: Typed, events: seq<Event>, close: Event)
    requires forall e :: e in events ==> e.Handle? && !(e.job.FileJob? && e.job.file.CloseRecord?)
    ensures RunRecords(m, t, events + [close]) == Emitted(m, RunTables(m, t, events), close)
    decreases |events|
  {
    hide Step, Emitted;
    if events == [] {
      assert [] + [close] == [close] && [close][1..] == [];
      assert Emitted(m, t, close) + [] == Emitted(m, t, close);
    } else {
      var e := events[0];
      assert e in events;
      NoCloseNoRecord(m, t, e.origin, e.job, e.at);
      QuietRun(m, Step(m, t, e), events[1..], close);
      assert (events + [close])[1..] == events[1..] + [close];
    }
  }

  lemma ThreeSteps(m: Machine<LocalKey>, t: Typed, e: seq<Event>)
    requires |e| >= 3
    ensures RunTables(m, t, e) == RunTables(m, Step(m, Step(m, Step(m, t, e[0]), e[1]), e[2]), e[3..])
  {
    hide Step;
    assert e[1..][1..] == e[2..] && e[2..][1..] == e[3..];
    assert e[1..][0] == e[1] && e[2..][0] == e[2];
    var t1 := Step(m, t, e[0]);
    assert RunTables(m, t, e) == RunTables(m, t1, e[1..]);
    assert RunTables(m, t1, e[1..]) == RunTables(m, Step(m, t1, e[1]), e[2..]);
  }

  lemma SixSteps(m: Machine<LocalKey>, t: Typed, e: seq<Event>)
    requires |e| == 6
    ensures RunTables(m, t, e) ==
            Step(m, Step(m, Step(m, Step(m, Step(m, Step(m, t, e[0]), e[1]), e[2]), e[3]), e[4]), e[5])
  {
    hide Step;
    var t3 := Step(m, Step(m, Step(m, t, e[0]), e[1]), e[2]);
    ThreeSteps(m, t, e);
    ThreeSteps(m, t3, e[3..]);
    assert e[3..][3..] == [];
  }

  // ---- The record of a session

  // What the session tells, up to the open.
  lemma SessionHolds(ttl: nat, s: Session)
    requires CanBeSent(s) && InTime(s, ttl) && Meaning(s.open).Some? && Meaning(s.close).Some?
    ensures var o, m, at := s.origin, TypedMachine(ttl), s.times;
            var t2 := Step(m, Step(m, Empty(), Handle(o, Told(s, 0), at[0])), Handle(o, Told(s, 1), at[1]));
            var t4 := Step(m, Step(m, t2, Handle(o, Told(s, 2), at[2])), Handle(o, Told(s, 3), at[3]));
            Holds(Step(m, t4, Handle(o, Told(s, 4), at[4])),
                  Known(s.site, s.dictId, s.info,
                        UserState(s.dictId, s.info, s.auth, s.token, s.app, s.experimentId, s.activityId, at[1]),
                        at[6]))
  {
    SentIsKnown(s);
    TextsRead(s);
    hide Step, CanBeSent, FirstLine, After, AppText, CodesText, EAOf, Split, Holds, Meaning, Narrow;
    var o, m, at, id, i := s.origin, TypedMachine(ttl), s.times, s.dictId, s.info;
    var t1 := Step(m, Empty(), Handle(o, Told(s, 0), at[0]));
    var t2 := Step(m, t1, Handle(o, Told(s, 1), at[1]));
    var t3 := Step(m, t2, Handle(o, Told(s, 2), at[2]));
    var t4 := Step(m, t3, Handle(o, Told(s, 3), at[3]));
    var u := UserState(id, i, s.auth, NO_TOKEN, "", 0, 0, at[1]);
    LoginHolds(ttl, o, s.site, UserRecord(id, i, s.auth, NO_TOKEN), at[0], at[1], at[6]);
    var n2 := Known(s.site, id, i, u, at[6]);
    AppHolds(ttl, t2, n2, o, AppText(s), at[2]);
    var n3 := n2.(user := u.(appInfo := s.app));
    CodesHold(ttl, t3, n3, o, id, CodesText(s), i, at[3]);
    var n4 := n3.(user := n3.user.(experimentId := s.experimentId, activityId := s.activityId));
    TokenHolds(ttl, t4, n4, o, UserRecord(id, i, NO_AUTH, s.token), at[4]);
  }

  lemma TextsRead(s: Session)
    requires CanBeSent(s)
    ensures s.dictId != 0 && s.token.userDictId == s.dictId
    ensures FirstLine(AppText(s)) == Ok(s.info) && '\n' in AppText(s) && After(AppText(s), '\n') == s.app
    ensures FirstLine(CodesText(s)) == Ok(s.info) && '\n' in CodesText(s)
    ensures EAOf(Split(After(CodesText(s), '\n'), '&')) == EAInfo(s.dictId, s.experimentId, s.activityId)
  {
    SentIsKnown(s);
    SendableUser(s.origin.serverStart, s.dictId, s.info, AuthPairs(s.auth));
    hide Narrow, Sendable, Printed, EAPairs, Print, After, Before, CollectorUserInfo, ParserUserInfo, EAOf, Split;
    hide CollectorPrintable, ParserPrintable, ServerCanBeSent, FilesCanBeSent, CanSend;
    ParsersAgree(s.info);
    CutAt(Print(s.info), '\n', s.app);
    CutAt(Print(s.info), '\n', Printed(EAPairs(EAInfo(s.dictId, s.experimentId, s.activityId))));
    EARoundTrip(EAInfo(s.dictId, s.experimentId, s.activityId));
  }

  lemma SendableUser(start: int, dictId: nat, i: UserInfo, pairs: seq<Pair>)
    requires Sendable(start, dictId, i, pairs)
    ensures ParserPrintable(i) && '\n' !in Print(i)
  {
    NoNewline(i);
    hide Narrow, Print, Printed, ParserPrintable;
  }

  function SessionEvents(s: Session): (events: seq<Event>)
    requires Meaning(s.open).Some? && Meaning(s.close).Some? && |s.times| == 7
    ensures |events| == 7 && forall i :: 0 <= i < 7 ==> events[i] == Handle(s.origin, Told(s, i), s.times[i])
  {
    seq(7, i requires 0 <= i < 7 => Handle(s.origin, Told(s, i), s.times[i]))
  }

  lemma SessionIsTold(s: Session, own: seq<Input>, json: JsonLine)
    requires CanBeSent(s) && |own| == 7 && forall i :: 0 <= i < 7 ==> own[i] == Sent(s, i)
    ensures Meaning(s.open).Some? && Meaning(s.close).Some? && StreamEvents(own, json) == SessionEvents(s)
  {
    hide Sent, Told, InBytes, ServerCanBeSent, UserCanBeSent, FilesCanBeSent, InputEvents, StreamEvents, Meaning;
    SentIsKnown(s);
    forall i | 0 <= i < 7
      ensures InputEvents(own[i], json) == [SessionEvents(s)[i]]
    {
      AllTold(s, i, json);
    }
    OneEach(own, SessionEvents(s), json);
  }

  // The records for a server are those its own datagrams alone are due.
  lemma OwnRecords(ttl: nat, o: Origin, now: int, inputs: seq<Input>, json: JsonLine)
    requires Orderly(inputs, now, o.serverStart, o.remoteAddr)
    ensures RecordsOf(IdOf(o), RunRecords(StringMachine(ttl, 0), Empty(), StreamEvents(inputs, json))) ==
            RunRecords(TypedMachine(ttl), Empty(),
                       StreamEvents(InputsOf(o.serverStart, o.remoteAddr, inputs), json))
  {
    hide Orderly, InputsOf, StreamEvents, RunRecords, RecordsOf, EventsOf, Admissible, Refines, WellKept;
    OwnDatagrams(o.serverStart, o.remoteAddr, inputs, json);
    StreamsAreAdmissible(inputs, now, o.serverStart, o.remoteAddr, json);
    EmptyRefines(IdOf(o), now);
    RunRefines(Empty(), IdOf(o), Empty(), ttl, now, StreamEvents(inputs, json));
  }

  // A whole session, each packet in a datagram of its own and all within the
  // time to live, among any datagrams of servers that cannot share a user key
  // and any cleanups: exactly one record, with everything that was sent.
  lemma SessionOverTheWire(ttl: nat, s: Session, now: int, inputs: seq<Input>, json: JsonLine)
    requires CanBeSent(s) && InTime(s, ttl)
    requires Orderly(inputs, now, s.origin.serverStart, s.origin.remoteAddr)
    requires var own := InputsOf(s.origin.serverStart, s.origin.remoteAddr, inputs);
             |own| == 7 && forall i :: 0 <= i < 7 ==> own[i] == Sent(s, i)
    ensures var o, i := s.origin, s.info;
            RecordsOf(IdOf(o), RunRecords(StringMachine(ttl, 0), Empty(), StreamEvents(inputs, json))) ==
            [Record(s.times[6], o.serverStart, IdOf(o), o.remoteAddr,
                    if s.site.site != "" then s.site.site else "UNKNOWN",
                    i.username, i.host, i.protocol, s.auth, s.token.(userDictId := 0), s.app,
                    s.experimentId, s.activityId, AsText(Trimmed(s.open.name)), s.open.fileSize, s.close.xfr,
                    if HasOps(s.close.flag) then s.close.ops else NO_OPS)]
  {
    hide Sent, InTime, ServerCanBeSent, UserCanBeSent, InputEvents, StreamEvents, Orderly, InputsOf, RecordsOf;
    hide RunRecords, Told, Meaning, IdOf, AsText, Trimmed, HasOps;
    OwnRecords(ttl, s.origin, now, inputs, json);
    SessionIsTold(s, InputsOf(s.origin.serverStart, s.origin.remoteAddr, inputs), json);
    SessionRun(ttl, s, SessionEvents(s));
  }

  // Six packets that are no closes, and then one more.
  lemma SevenPackets(m: Machine<LocalKey>, t: Typed, e: seq<Event>)
    requires |e| == 7
    requires forall i :: 0 <= i < 6 ==> e[i].Handle? && !(e[i].job.FileJob? && e[i].job.file.CloseRecord?)
    ensures RunRecords(m, t, e) ==
            Emitted(m, Step(m, Step(m, Step(m, Step(m, Step(m, Step(m, t, e[0]), e[1]), e[2]), e[3]), e[4]), e[5]),
                    e[6])
  {
    hide Step, Emitted, RunTables, RunRecords;
    var six := e[..6];
    assert e == six + [e[6]];
    forall x | x in six
      ensures x.Handle? && !(x.job.FileJob? && x.job.file.CloseRecord?)
    {
      var i :| 0 <= i < 6 && six[i] == x;
      assert e[i] == x;
    }
    QuietRun(m, t, six, e[6]);
    SixSteps(m, t, six);
  }

  lemma SessionRun(ttl: nat, s: Session, events: seq<Event>)
    requires CanBeSent(s) && InTime(s, ttl) && Meaning(s.open).Some? && Meaning(s.close).Some?
    requires |events| == 7 && forall i :: 0 <= i < 7 ==> events[i] == Handle(s.origin, Told(s, i), s.times[i])
    ensures var o, i := s.origin, s.info;
            RunRecords(TypedMachine(ttl), Empty(), events) ==
            [Record(s.times[6], o.serverStart, IdOf(o), o.remoteAddr,
                    if s.site.site != "" then s.site.site else "UNKNOWN",
                    i.username, i.host, i.protocol, s.auth, s.token.(userDictId := 0), s.app,
                    s.experimentId, s.activityId, AsText(Trimmed(s.open.name)), s.open.fileSize, s.close.xfr,
                    if HasOps(s.close.flag) then s.close.ops else NO_OPS)]
  {
    hide Step, Holds, CanBeSent, InTime, IdOf, AsText, Emitted, AppText, CodesText, Trimmed, HasOps, HasUser;
    hide RunRecords, Meaning;
    var m, o := TypedMachine(ttl), s.origin;
    SessionHolds(ttl, s);
    SessionTimes(ttl, s);
    FilesKnown(s);
    SevenPackets(m, Empty(), events);
    var t2 := Step(m, Step(m, Empty(), events[0]), events[1]);
    var t5 := Step(m, Step(m, Step(m, t2, events[2]), events[3]), events[4]);
    var u := UserState(s.dictId, s.info, s.auth, s.token, s.app, s.experimentId, s.activityId, s.times[1]);
    TransferHolds(ttl, t5, Known(s.site, s.dictId, s.info, u, s.times[6]), o, Meaning(s.open).value,
                  Meaning(s.close).value, s.times[5]);
  }

  lemma SessionTimes(ttl: nat, s: Session)
    requires InTime(s, ttl)
    ensures |s.times| == 7 && s.times[5] <= s.times[6] <= s.times[5] + ttl
  {}

  lemma FilesKnown(s: Session)
    requires CanBeSent(s)
    ensures s.dictId != 0 && s.open.WireOpen? && s.close.WireClose? && s.close.id == s.open.id
    ensures Meaning(s.open).Some? && Meaning(s.close).Some?
    ensures var open, close := Meaning(s.open).value, Meaning(s.close).value;
            && open.OpenRecord? && open.header.userId == s.dictId && open.lfn == Trimmed(s.open.name)
            && open.fileSize == s.open.fileSize
            && close.CloseRecord? && close.header.fileId == open.header.fileId && close.xfr == s.close.xfr
            && close.ops == if HasOps(s.close.flag) then s.close.ops else NO_OPS
  {
    hide InBytes, Sendable, BodyBytes, WellFormedBody, ServerCanBeSent, AppText, CodesText, HasUser, HasOps;
    hide Trimmed, Pow256;
  }

  // ---- Users known by a path alone

  ghost predicate FileCanBeSent(w: WireRecord, lead: Lead)
  {
    WellFormedBody(lead, [w]) && 8 + |BodyBytes(lead, [w])| < Pow256(2)
  }

  function PathText(info: UserInfo, path: string): string { Print(info) + "\n" + path }

  // A path is sent for a file, and the file is opened, under no user id, and
  // closed: the record is that of the user the path came with.
  lemma PathOverTheWire(ttl: nat, o: Origin, now: int, inputs: seq<Input>, json: JsonLine, info: UserInfo, path: string,
                        open: WireRecord, close: WireRecord, leads: (Lead, Lead), seqNos: (byte, byte, byte),
                        t1: int, t2: int, t3: int)
    requires t1 <= t2 <= t3 <= t1 + ttl
    requires open.WireOpen? && open.id != 0 && (HasUser(open.flag) ==> open.user == 0) && FileCanBeSent(open, leads.0)
    requires close.WireClose? && close.id == open.id && FileCanBeSent(close, leads.1)
    requires CanSend(o.serverStart, open.id, PathText(info, path))
    requires CollectorPrintable(info) && '\n' !in info.protocol && '\n' !in info.username && '\n' !in info.host
    requires Orderly(inputs, now, o.serverStart, o.remoteAddr)
    requires var start, addr := o.serverStart, o.remoteAddr;
             InputsOf(start, addr, inputs) ==
             [Datagram(TextPacket('d' as int, seqNos.0, start, open.id, PathText(info, path)), addr, t1),
              Datagram(StreamPacket(seqNos.1, start, BodyBytes(leads.0, [open])), addr, t2),
              Datagram(StreamPacket(seqNos.2, start, BodyBytes(leads.1, [close])), addr, t3)]
    ensures RecordsOf(IdOf(o), RunRecords(StringMachine(ttl, 0), Empty(), StreamEvents(inputs, json))) ==
            [Record(t3, o.serverStart, IdOf(o), o.remoteAddr, "UNKNOWN", info.username, info.host, info.protocol,
                    NO_AUTH, NO_TOKEN, "", 0, 0, AsText(Trimmed(open.name)), open.fileSize, close.xfr,
                    if HasOps(close.flag) then close.ops else NO_OPS)]
  {
    hide Orderly, InputsOf, RunRecords, RecordsOf, StreamEvents, InputEvents, TextPacket, StreamPacket, BodyBytes;
    hide WellFormedBody, Pow256, FitsSigned, IdOf, AsText, Trimmed, HasOps, HasUser, Narrow, PathText, Meaning;
    hide CollectorPrintable;
    var own, text := InputsOf(o.serverStart, o.remoteAddr, inputs), PathText(info, path);
    OwnRecords(ttl, o, now, inputs, json);
    WireMeanings(open, close);
    var e1 := Handle(o, MappingJob('d', open.id, text), t1);
    var e2, e3 := Handle(o, FileJob(Meaning(open).value), t2), Handle(o, FileJob(Meaning(close).value), t3);
    MappingIsTold('d', o, open.id, text, seqNos.0, t1, json);
    OneRecordPacket(seqNos.1, o, leads.0, open, t2, json);
    OneRecordPacket(seqNos.2, o, leads.1, close, t3, json);
    OneEach(own, [e1, e2, e3], json);
    PathRead(info, path);
    PathRun(ttl, o, text, info, Meaning(open).value, Meaning(close).value, t1, t2, t3);
  }

  lemma WireMeanings(open: WireRecord, close: WireRecord)
    requires open.WireOpen? && (HasUser(open.flag) ==> open.user == 0) && close.WireClose?
    ensures Meaning(open).Some? && Meaning(close).Some?
    ensures var o, c := Meaning(open).value, Meaning(close).value;
            && o.OpenRecord? && o.header.fileId == open.id && UserIdOf(o) == 0
            && o.lfn == Trimmed(open.name) && o.fileSize == open.fileSize
            && c.CloseRecord? && c.header.fileId == close.id && c.header.userId == 0
            && c.xfr == close.xfr && c.ops == if HasOps(close.flag) then close.ops else NO_OPS
  {
    hide HasOps, HasUser, Trimmed;
  }

  lemma PathRead(info: UserInfo, path: string)
    requires CollectorPrintable(info) && '\n' !in info.protocol && '\n' !in info.username && '\n' !in info.host
    ensures var text := PathText(info, path);
            CollectorUserInfo(Before(text, '\n')) == Ok(info) && '\n' in text
  {
    hide Print, CollectorUserInfo, Before, After, CollectorPrintable;
    CollectorRoundTrip(info);
    NoNewline(info);
    CutAt(Print(info), '\n', path);
  }

  lemma PathRun(ttl: nat, o: Origin, text: string, info: UserInfo, open: FileRecord, close: FileRecord,
                t1: int, t2: int, t3: int)
    requires t1 <= t2 <= t3 <= t1 + ttl
    requires open.OpenRecord? && open.header.fileId != 0 && UserIdOf(open) == 0
    requires close.CloseRecord? && close.header.fileId == open.header.fileId
    requires CollectorUserInfo(Before(text, '\n')) == Ok(info) && '\n' in text
    ensures RunRecords(TypedMachine(ttl), Empty(),
                       [Handle(o, MappingJob('d', open.header.fileId, text), t1), Handle(o, FileJob(open), t2),
                        Handle(o, FileJob(close), t3)]) ==
            [Record(t3, o.serverStart, IdOf(o), o.remoteAddr, "UNKNOWN", info.username, info.host, info.protocol,
                    NO_AUTH, NO_TOKEN, "", 0, 0, AsText(open.lfn), open.fileSize, close.xfr, close.ops)]
  {
    hide CollectorUserInfo, Before, After, IdOf, AsText;
    var e1, e2 := Handle(o, MappingJob('d', open.header.fileId, text), t1), Handle(o, FileJob(open), t2);
    var past, e3 := [e1, e2], Handle(o, FileJob(close), t3);
    TwoAndClose(ttl, e1, e2, e3);
    FileSince(ttl, past, 1, open.header.fileId, t3);
    assert past[..1] == [e1];
    PathSince(ttl, past, 0, open.header.fileId, t3);
    PathSince(ttl, [e1], 0, open.header.fileId, t2);
    NothingTold(ttl, past, UserKeyOf(info), t3);
    NoServerSaid(ttl, past, t3);
    assert AsText([]) == "" by {
      NoText();
    }
    hide FileSaid, PathSaid, UserSaid, ServerSaid, StandsFor, UserKeyOf;
  }

  lemma NoText()
    ensures AsText([]) == ""
  {}

  lemma TwoAndClose(ttl: nat, e1: Event, e2: Event, close: Event)
    requires e1.Handle? && e2.Handle? && !IsCloseEvent(e1) && !IsCloseEvent(e2) && IsCloseEvent(close)
    requires e1.at <= e2.at <= close.at
    ensures RunRecords(TypedMachine(ttl), Empty(), [e1, e2, close]) == [DueRecord(ttl, [e1, e2], close)]
  {
    hide DueRecord, RunRecords, Reached;
    var all := [e1, e2, close];
    assert all[1..] == [e2, close] && [e2, close][1..] == [close] && [close][1..] == [];
    assert [] + [e1] == [e1] && [e1] + [e2] == [e1, e2];
    InTurn(e1, e2, close);
    TypedRecordsAreDue(ttl, [], e1.at, all);
    NothingReached(ttl);
    OneDue(ttl, [e1, e2], close);
    assert DueRecords(ttl, [e1], [e2, close]) == [] + DueRecords(ttl, [e1, e2], [close]);
    assert DueRecords(ttl, [], all) == [] + DueRecords(ttl, [e1], [e2, close]);
  }

  lemma InTurn(e1: Event, e2: Event, e3: Event)
    requires e1.Handle? && e2.Handle? && e3.Handle? && e1.at <= e2.at <= e3.at
    ensures CloseMatching.OwnRun([e1, e2, e3], e1.at)
  {
    var all := [e1, e2, e3];
    assert all[1..] == [e2, e3] && [e2, e3][1..] == [e3] && [e3][1..] == [];
    assert CloseMatching.OwnRun([e3], e2.at);
    assert CloseMatching.OwnRun([e2, e3], e1.at);
  }

  lemma NothingReached(ttl: nat)
    ensures Reached(ttl, []) == Empty()
  {}

  lemma OneDue(ttl: nat, past: seq<Event>, close: Event)
    requires IsCloseEvent(close)
    ensures DueRecords(ttl, past, [close]) == [DueRecord(ttl, past, close)]
  {
    assert [close][1..] == [];
    hide DueRecord;
  }

  // ---- A close on its own

  // It has a record all the same, with the start of its server and nobody in it.
  lemma CloseOverTheWire(ttl: nat, o: Origin, now: int, inputs: seq<Input>, json: JsonLine, close: WireRecord,
                         lead: Lead, seqNo: byte, at: int)
    requires close.WireClose? && FileCanBeSent(close, lead) && FitsSigned(o.serverStart, 4)
    requires Orderly(inputs, now, o.serverStart, o.remoteAddr)
    requires InputsOf(o.serverStart, o.remoteAddr, inputs) ==
             [Datagram(StreamPacket(seqNo, o.serverStart, BodyBytes(lead, [close])), o.remoteAddr, at)]
    ensures RecordsOf(IdOf(o), RunRecords(StringMachine(ttl, 0), Empty(), StreamEvents(inputs, json))) ==
            [Record(at, o.serverStart, SignedDecimal(o.serverStart) + "#" + o.remoteAddr, o.remoteAddr, "UNKNOWN",
                    "0", "unknown", "unknown", NO_AUTH, NO_TOKEN, "", 0, 0, "unknown", 0, close.xfr,
                    if HasOps(close.flag) then close.ops else NO_OPS)]
  {
    assert IdOf(o) == SignedDecimal(o.serverStart) + "#" + o.remoteAddr;
    hide Orderly, InputsOf, RecordsOf, RunRecords, StreamEvents, InputEvents, StreamPacket, BodyBytes;
    hide WellFormedBody, Pow256, FitsSigned, IdOf, HasOps;
    OwnRecords(ttl, o, now, inputs, json);
    OneRecordPacket(seqNo, o, lead, close, at, json);
    OneInput(InputsOf(o.serverStart, o.remoteAddr, inputs)[0], json);
    CloseRun(ttl, o, Meaning(close).value, at);
  }

  lemma CloseRun(ttl: nat, o: Origin, close: FileRecord, at: int)
    requires close.CloseRecord? && close.header.userId == 0
    ensures RunRecords(TypedMachine(ttl), Empty(), [Handle(o, FileJob(close), at)]) ==
            [Record(at, o.serverStart, IdOf(o), o.remoteAddr, "UNKNOWN", "0", "unknown", "unknown",
                    NO_AUTH, NO_TOKEN, "", 0, 0, "unknown", 0, close.xfr, close.ops)]
  {
    hide RunRecords, Reached, IdOf;
    var e := Handle(o, FileJob(close), at);
    assert [e][1..] == [];
    TypedRecordsAreDue(ttl, [], at, [e]);
    NothingReached(ttl);
    OneDue(ttl, [], e);
    assert UserHex(0) == "0";
  }
}
