// From datagrams to records: what the program does with a user's packets as
// they are sent, among any other datagrams and cleanups.
module WireTransfer {
  import opened BigEndian
  import opened Records
  import opened UserInfoText
  import opened KeyValue
  import opened Keys
  import opened FStream
  import opened FStreamWire
  import opened StateMaps
  import opened CorrelatorModel
  import opened ServerIsolation
  import opened UserHistory
  import opened Attribution
  import opened Packets
  import opened PacketWire

  // ---- f-stream packets

  function StreamHeader(seqNo: byte, start: int, body: seq<byte>): seq<nat>
  {
    ['f' as int, seqNo, 8 + |body|, Unsigned(start, 4)]
  }

  function StreamPacket(seqNo: byte, start: int, body: seq<byte>): seq<byte>
  {
    Pack(StreamHeader(seqNo, start, body), HEADER) + body
  }

  lemma StreamHeaderFits(seqNo: byte, start: int, body: seq<byte>)
    requires 8 + |body| < Pow256(2)
    ensures var h := StreamHeader(seqNo, start, body);
            Fits(h, HEADER) && Total(HEADER) == 8 && |Pack(h, HEADER)| == 8
  {
    Sizes();
    Powers();
    hide Total;
  }

  // An encoded packet is parsed into exactly its known records.
  lemma StreamPacketRead(seqNo: byte, start: int, addr: string, lead: Lead, ws: seq<WireRecord>, json: JsonLine)
    requires FitsSigned(start, 4) && WellFormedBody(lead, ws) && 8 + |BodyBytes(lead, ws)| < Pow256(2)
    ensures Parsed(StreamPacket(seqNo, start, BodyBytes(lead, ws)), addr, json) ==
            Ok(Packet(start, addr, Files(Meanings(ws))))
  {
    hide BodyBytes, WellFormedBody, Pow256, Pack, Fields, Total, Signed, Unsigned, Meanings, FitsSigned, FileBody;
    var body := BodyBytes(lead, ws);
    var h, b := StreamHeader(seqNo, start, body), StreamPacket(seqNo, start, body);
    StreamHeaderFits(seqNo, start, body);
    FieldsOfPack(h, HEADER, body);
    SignedOfUnsigned(start, 4);
    FirstByte(b);
    PacketRecords(Pack(h, HEADER), lead, ws);
    FilesParsed(b, addr, json);
  }

  lemma FilesParsed(b: seq<byte>, addr: string, json: JsonLine)
    requires |b| >= 8 && Total(HEADER) == 8 && Fields(b, HEADER)[2] == |b| && b[0] == 'f' as int
    ensures Parsed(b, addr, json) == Ok(Packet(Signed(Fields(b, HEADER)[3], 4), addr, FileBody(b)))
  {
    hide Fields, Total, FileBody;
  }

  // One known record in a packet is one event.
  lemma OneRecordPacket(seqNo: byte, o: Origin, lead: Lead, w: WireRecord, at: int, json: JsonLine)
    requires FitsSigned(o.serverStart, 4) && WellFormedBody(lead, [w]) && 8 + |BodyBytes(lead, [w])| < Pow256(2)
    requires Meaning(w).Some?
    ensures var b := StreamPacket(seqNo, o.serverStart, BodyBytes(lead, [w]));
            InputEvents(Datagram(b, o.remoteAddr, at), json) == [Handle(o, FileJob(Meaning(w).value), at)]
  {
    StreamPacketRead(seqNo, o.serverStart, o.remoteAddr, lead, [w], json);
    hide StreamPacket, BodyBytes, WellFormedBody, Parsed, Meaning;
    assert [w][1..] == [] && Meanings([w]) == [Meaning(w).value];
  }

  // ---- Streams

  lemma {:induction false} StreamAppend(a: seq<Input>, b: seq<Input>, json: JsonLine)
    ensures StreamEvents(a + b, json) == StreamEvents(a, json) + StreamEvents(b, json)
  {
    hide InputEvents;
    if a == [] {
      assert a + b == b;
    } else {
      assert (a + b)[1..] == a[1..] + b;
      StreamAppend(a[1..], b, json);
    }
  }

  lemma OneInput(i: Input, json: JsonLine)
    ensures StreamEvents([i], json) == InputEvents(i, json)
  {
    assert [i][1..] == [];
    hide InputEvents;
  }

  // ---- A transfer, from datagrams to the record

  lemma ThreeSteps(ttl: nat, o: Origin, login: UserRecord, open: FileRecord, close: FileRecord, t1: int, t2: int,
                   t3: int)
    requires t1 <= t2 <= t3 <= t1 + ttl
    requires login.tokenInfo == NO_TOKEN && login.dictId != 0
    requires open.OpenRecord? && open.header.userId == login.dictId
    requires close.CloseRecord? && close.header.fileId == open.header.fileId
    ensures var i := login.userInfo;
            RunRecords(TypedMachine(ttl), Empty(),
                       [Handle(o, UserJob(login), t1)] +
                       ([Handle(o, FileJob(open), t2)] + [Handle(o, FileJob(close), t3)])) ==
            [Record(t3, o.serverStart, IdOf(o), o.remoteAddr, "UNKNOWN", i.username, i.host, i.protocol, login.authInfo,
                    NO_TOKEN, "", 0, 0, AsText(open.lfn), open.fileSize, close.xfr, close.ops)]
  {
    hide IdOf, UserKeyOf, AsText, Step, Emitted, RunRecords;
    var m := TypedMachine(ttl);
    var e1, e2, e3 := Handle(o, UserJob(login), t1), Handle(o, FileJob(open), t2), Handle(o, FileJob(close), t3);
    var s1 := Step(m, Empty(), e1);
    var s2 := Step(m, s1, e2);
    LoginTables(m, Empty(), o, login, t1);
    OpenTables(m, s1, o, open, t2);
    FirstEvent(m, Empty(), e1, [e2] + [e3]);
    FirstEvent(m, s1, e2, [e3]);
    FirstEvent(m, s2, e3, []);
    NoMore(m, Step(m, s2, e3));
    assert [e3] + [] == [e3];
    NameGiven(ttl, s1, IdOf(o), open, t2);
    NoSite(ttl, s2, IdOf(o), t3);
    var file := OpenState(Typed(ttl, t2), s1, o, open);
    var u := UserState(login.dictId, login.userInfo, login.authInfo, login.tokenInfo, "", 0, 0, t1);
    hide OpenName;
    CloseOf(ttl, s2, e3, file, login.userInfo, u);
  }

  lemma NoMore(m: Machine, t: Tables)
    ensures RunRecords(m, t, []) == []
  {}

  lemma NameGiven(ttl: nat, t: Tables<LocalKey>, server: string, open: FileRecord, now: int)
    requires open.OpenRecord? && PathKey(open.header.fileId) !in t.dicts
    ensures OpenName(Typed(ttl, now), t, server, open) == AsText(open.lfn)
  {}

  lemma NoSite(ttl: nat, t: Tables<LocalKey>, server: string, now: int)
    requires ServerKey !in t.servers
    ensures SiteFor(Typed(ttl, now), t, server) == "UNKNOWN"
  {}

  // A server sends a login, then an open under its dictionary id, then the
  // close, each in a packet of its own and all within the time to live. Among
  // any datagrams of servers it cannot share a user key with, in any
  // interleaving and with any cleanups, the program emits exactly one record for
  // it: the user and authorization of the login, the name and size of the open
  // and the counters of the close.
  lemma TransferOverTheWire(ttl: nat, o: Origin, now: int, inputs: seq<Input>, json: JsonLine,
                            dictId: nat, i: UserInfo, auth: AuthInfo, open: WireRecord, close: WireRecord,
                            leads: (Lead, Lead), seqNos: (byte, byte, byte), t1: int, t2: int, t3: int)
    requires t1 <= t2 <= t3 <= t1 + ttl && dictId != 0
    requires Sendable(o.serverStart, dictId, i, AuthPairs(auth))
    requires open.WireOpen? && HasUser(open.flag) && open.user == dictId && WellFormedBody(leads.0, [open])
    requires close.WireClose? && close.id == open.id && WellFormedBody(leads.1, [close])
    requires 8 + |BodyBytes(leads.0, [open])| < Pow256(2) && 8 + |BodyBytes(leads.1, [close])| < Pow256(2)
    requires Orderly(inputs, now, o.serverStart, o.remoteAddr)
    requires var start, addr := o.serverStart, o.remoteAddr;
             InputsOf(start, addr, inputs) ==
             [Datagram(TextPacket('u' as int, seqNos.0, start, dictId, LoginText(i, AuthPairs(auth))), addr, t1)] +
             ([Datagram(StreamPacket(seqNos.1, start, BodyBytes(leads.0, [open])), addr, t2)] +
              [Datagram(StreamPacket(seqNos.2, start, BodyBytes(leads.1, [close])), addr, t3)])
    ensures RecordsOf(IdOf(o), RunRecords(StringMachine(ttl, 0), Empty(), StreamEvents(inputs, json))) ==
            [Record(t3, o.serverStart, IdOf(o), o.remoteAddr, "UNKNOWN", i.username, i.host, i.protocol, auth,
                    NO_TOKEN, "", 0, 0, AsText(Trimmed(open.name)), open.fileSize, close.xfr,
                    if HasOps(close.flag) then close.ops else NO_OPS)]
  {
    hide Sendable, WellFormedBody, BodyBytes, Pow256, Orderly, InputsOf, TextPacket, StreamPacket, LoginText, AuthPairs;
    hide RecordsOf, RunRecords, EventsOf, StreamEvents, InputEvents, HasOps, HasUser, AsText, Trimmed;
    hide Admissible, Refines;
    hide WellKept, Parsed, Size, Narrow;
    var start, addr := o.serverStart, o.remoteAddr;
    var login := UserRecord(dictId, i, auth, NO_TOKEN);
    var openRec, closeRec := Meaning(open).value, Meaning(close).value;
    SendableStart(start, dictId, i, AuthPairs(auth));
    LoginPacket(seqNos.0, start, addr, dictId, i, auth, json);
    var d1 := Datagram(TextPacket('u' as int, seqNos.0, start, dictId, LoginText(i, AuthPairs(auth))), addr, t1);
    var d2 := Datagram(StreamPacket(seqNos.1, start, BodyBytes(leads.0, [open])), addr, t2);
    var d3 := Datagram(StreamPacket(seqNos.2, start, BodyBytes(leads.1, [close])), addr, t3);
    OneUserPacket(d1.bytes, o, login, t1, json);
    OneRecordPacket(seqNos.1, o, leads.0, open, t2, json);
    OneRecordPacket(seqNos.2, o, leads.1, close, t3, json);
    ThreeInputs(d1, d2, d3, json);
    OwnDatagrams(start, addr, inputs, json);
    StreamsAreAdmissible(inputs, now, start, addr, json);
    EmptyRefines(IdOf(o), now);
    RunRefines(Empty(), IdOf(o), Empty(), ttl, now, StreamEvents(inputs, json));
    ThreeSteps(ttl, o, login, openRec, closeRec, t1, t2, t3);
  }

  lemma SendableStart(start: int, dictId: nat, i: UserInfo, pairs: seq<Pair>)
    requires Sendable(start, dictId, i, pairs)
    ensures FitsSigned(start, 4) && Narrow(LoginText(i, pairs))
  {}

  lemma ThreeInputs(d1: Input, d2: Input, d3: Input, json: JsonLine)
    ensures StreamEvents([d1] + ([d2] + [d3]), json) ==
            InputEvents(d1, json) + (InputEvents(d2, json) + InputEvents(d3, json))
  {
    hide StreamEvents, InputEvents;
    StreamAppend([d1], [d2] + [d3], json);
    StreamAppend([d2], [d3], json);
    OneInput(d1, json);
    OneInput(d2, json);
    OneInput(d3, json);
  }

  // ---- A token packet that names no user id, likewise

  // Whatever the program knew of the user, after such a datagram its user map
  // holds the token and nothing else.
  lemma TokenWipesInTraffic(ttl: nat, o: Origin, now: int, inputs: seq<Input>, json: JsonLine, earlier: seq<Input>,
                            seqNo: byte, dictId: nat, i: UserInfo, token: TokenInfo, at: int)
    requires Sendable(o.serverStart, dictId, i, TokenPairs(token)) && token.userDictId == 0
    requires Orderly(inputs, now, o.serverStart, o.remoteAddr)
    requires InputsOf(o.serverStart, o.remoteAddr, inputs) == earlier +
             [Datagram(TextPacket('T' as int, seqNo, o.serverStart, dictId, LoginText(i, TokenPairs(token))),
                       o.remoteAddr, at)]
    requires EndOf(now, StreamEvents(inputs, json)) <= at + ttl
    ensures Lookup(RunTables(StringMachine(ttl, 0), Empty(), StreamEvents(inputs, json)).users,
                   Render(IdOf(o), UserKeyOf(i)), EndOf(now, StreamEvents(inputs, json))) ==
            Some(UserState(dictId, i, NO_AUTH, token, "", 0, 0, at))
  {
    SendableIsMade(o.serverStart, dictId, i, TokenPairs(token));
    hide Sendable, Orderly, InputsOf, TextPacket, LoginText, TokenPairs, StreamEvents, InputEvents, Parsed, EndOf;
    hide EventsOf, RunTables, Render, UserKeyOf, Admissible, Clean, Made, PacketMade, Lookup;
    var start, addr := o.serverStart, o.remoteAddr;
    var rec := UserRecord(dictId, i, NO_AUTH, token);
    var e := Handle(o, UserJob(rec), at);
    TokenPacket(seqNo, start, addr, dictId, i, token, json);
    var d := Datagram(TextPacket('T' as int, seqNo, start, dictId, LoginText(i, TokenPairs(token))), addr, at);
    OneUserPacket(d.bytes, o, rec, at, json);
    StreamAppend(earlier, [d], json);
    OneInput(d, json);
    OwnDatagrams(start, addr, inputs, json);
    StreamsAreAdmissible(inputs, now, start, addr, json);
    var before, events := StreamEvents(earlier, json), StreamEvents(inputs, json);
    assert before + [e] + [] == before + [e];
    NothingSince(ttl, RunTables(TypedMachine(ttl), Empty(), before + [e]), at, UserKeyOf(i), EndOf(now, events));
    SinceLogin(ttl, start, addr, now, events, before, e, [], UserKeyOf(i));
  }

  lemma SendableIsMade(start: int, dictId: nat, i: UserInfo, pairs: seq<Pair>)
    requires Sendable(start, dictId, i, pairs)
    ensures PacketMade(i) && UserKeyOf(i).UserKey? && Clean(UserKeyOf(i))
  {
    hide LoginText, Narrow, AllPrintable;
    MadeIsClean(i);
  }

  lemma NothingSince(ttl: nat, t: Tables<LocalKey>, login: int, k: LocalKey, end: int)
    requires end <= login + ttl
    ensures StaysLoggedIn(ttl, t, login, [], k, end) && Effects(ttl, t, [], k) == []
  {}
}
