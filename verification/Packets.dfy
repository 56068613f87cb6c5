// From a datagram to a parsed packet, and from a stream of datagrams to the
// correlator's events.
module Packets {
  import opened BigEndian
  import opened Records
  import opened Text
  import opened UserInfoText
  import opened KeyValue
  import opened Keys
  import opened FStream
  import opened FStreamWire
  import opened StateMaps
  import opened CorrelatorModel
  import opened ServerIsolation

  // ---- ParsePacket as a function

  // parseMapRecord and its like: a dictionary id and a text.
  function MapBody(b: seq<byte>): Option<(nat, string)>
  {
    if |b| < 12 then None else Some((Number(b[8..12]), AsText(b[12..])))
  }

  function ServerBody(b: seq<byte>): Option<Body>
  {
    match MapBody(b)
    case None => None
    case Some((dictId, text)) =>
      if '\n' in text then Some(Server(ServerOf(Parts(After(text, '\n'), '&')))) else Some(Mapping('=', dictId, text))
  }

  function MappingBody(b: seq<byte>, code: char): Option<Body>
  {
    match MapBody(b)
    case None => None
    case Some((dictId, text)) => Some(Mapping(code, dictId, text))
  }

  function UserBody(b: seq<byte>, token: bool): Option<Body>
  {
    match MapBody(b)
    case None => None
    case Some((dictId, text)) =>
      match ParserUserInfo(Before(text, '\n'))
      case Err => None
      case Ok(info) =>
        var parts := Parts(After(text, '\n'), '&');
        Some(User(if token then UserRecord(dictId, info, NO_AUTH, TokenOf(parts))
                  else UserRecord(dictId, info, AuthOf(parts), NO_TOKEN)))
  }

  // An f-stream the walker gives up on yields no records.
  function FileBody(b: seq<byte>): Body
    requires |b| >= 8
  {
    var w := WalkFrom(AfterTimeOfDay(b[8..]));
    Files(if w.ok then w.records else [])
  }

  // Whether a line of a g-stream packet is blank or decodes as a JSON object.
  type JsonLine = string -> bool

  // A g-stream packet is refused for a missing header or a line that is no JSON.
  function EventLines(b: seq<byte>): seq<string>
  {
    if |b| < 24 || Trimmed(b[24..]) == [] then [] else Split(AsText(Trimmed(b[24..])), '\n')
  }

  function GStreamBody(b: seq<byte>, json: JsonLine): Option<Body>
  {
    if |b| >= 24 && forall i :: 0 <= i < |EventLines(b)| ==> json(EventLines(b)[i]) then Some(Files([])) else None
  }

  function BodyOf(b: seq<byte>, code: char, json: JsonLine): Option<Body>
    requires |b| >= 8
  {
    match code
    case '=' => ServerBody(b)
    case 'u' => UserBody(b, false)
    case 'T' => UserBody(b, true)
    case 'd' => MappingBody(b, code)
    case 'i' => MappingBody(b, code)
    case 'U' => MappingBody(b, code)
    case 'f' => Some(FileBody(b))
    case 'g' => GStreamBody(b, json)
    // Accepted, with nothing in them for the correlator.
    case 't' => Some(Files([]))
    case 'x' => Some(Files([]))
    case 'p' => Some(Files([]))
    case 'r' => Some(Files([]))
    case _ => None
  }

  function Parsed(b: seq<byte>, addr: string, json: JsonLine): Result<Packet>
  {
    if |b| < 1 then Err
    else if b[0] as char == '<' then Ok(Packet(0, addr, Xml))
    else if |b| < 8 then Err
    else
      Sizes();
      var h := Fields(b, HEADER);
      if h[2] != |b| then Err
      else
        match BodyOf(b, b[0] as char, json)
        case None => Err
        case Some(body) => Ok(Packet(Signed(h[3], 4), addr, body))
  }

  // ---- ParsePacket

  method ParseUserRecord(b: seq<byte>, token: bool) returns (body: Option<Body>)
    ensures body == UserBody(b, token)
  {
    hide ParserUserInfo, Before, After, AsText, AuthOf, TokenOf, Parts, Number;
    if |b| < 12 {
      return None;
    }
    var text := AsText(b[12..]);
    var info := ParserUserInfo(Before(text, '\n'));
    if info.Err? {
      return None;
    }
    if token {
      var tokenInfo := ParseTokenInfo(After(text, '\n'));
      body := Some(User(UserRecord(Number(b[8..12]), info.value, NO_AUTH, tokenInfo)));
    } else {
      var authInfo := ParseAuthInfo(After(text, '\n'));
      body := Some(User(UserRecord(Number(b[8..12]), info.value, authInfo, NO_TOKEN)));
    }
  }

  method ParseGStream(b: seq<byte>, json: JsonLine) returns (body: Option<Body>)
    ensures body == GStreamBody(b, json)
  {
    hide EventLines, Split, AsText, Trimmed;
    if |b| < 24 {
      return None;
    }
    var lines := ReadLines(b);
    for i := 0 to |lines|
      invariant forall j :: 0 <= j < i ==> json(lines[j])
    {
      if !json(lines[i]) {
        return None;
      }
    }
    return Some(Files([]));
  }

  method ReadLines(b: seq<byte>) returns (lines: seq<string>)
    requires |b| >= 24
    ensures lines == EventLines(b)
  {
    var data := TrimNuls(b[24..]);
    hide Split, AsText, Trimmed;
    lines := if data == [] then [] else Split(AsText(data), '\n');
  }

  method ParseBody(b: seq<byte>, code: char, json: JsonLine) returns (body: Option<Body>)
    requires |b| >= 8
    ensures body == BodyOf(b, code, json)
  {
    match code {
      case '=' =>
        body := MappingBody(b, code);
        if body.Some? && '\n' in body.value.text {
          var info := ParseServerInfo(After(body.value.text, '\n'));
          body := Some(Server(info));
        }
      case 'u' => body := ParseUserRecord(b, false);
      case 'T' => body := ParseUserRecord(b, true);
      case 'd' => body := MappingBody(b, code);
      case 'i' => body := MappingBody(b, code);
      case 'U' => body := MappingBody(b, code);
      case 'f' =>
        var records, ok := ParseFileRecords(b[8..]);
        body := Some(Files(if ok then records else []));
      case 'g' => body := ParseGStream(b, json);
      case _ =>
        body := if code in {'t', 'x', 'p', 'r'} then Some(Files([])) else None;
    }
  }

  method ParsePacket(b: seq<byte>, addr: string, json: JsonLine) returns (packet: Result<Packet>)
    ensures packet == Parsed(b, addr, json)
  {
    if |b| < 1 {
      return Err;
    }
    if b[0] as char == '<' {
      return Ok(Packet(0, addr, Xml));
    }
    if |b| < 8 {
      return Err;
    }
    Sizes();
    hide Fields, BodyOf;
    var header := Fields(b, HEADER);
    if |b| != header[2] {
      return Err;
    }
    var body := ParseBody(b, b[0] as char, json);
    packet := if body.None? then Err else Ok(Packet(Signed(header[3], 4), addr, body.value));
  }

  // ---- Parsed packets are what the correlator's theorems ask for

  lemma ParsedIsShaped(b: seq<byte>, addr: string, json: JsonLine)
    requires Parsed(b, addr, json).Ok?
    ensures var p := Parsed(b, addr, json).value;
            p.remoteAddr == addr && forall i :: 0 <= i < |Jobs(p.body)| ==> Shaped(Jobs(p.body)[i])
  {
    hide Fields, WalkFrom, AfterTimeOfDay, ParserUserInfo, AsText, Before, After, Parts, Clean, UserKeyOf;
    hide Number, PacketMade;
    if |b| >= 12 {
      CutFacts(AsText(b[12..]), '\n');
      ParsedInfosAreClean(Before(AsText(b[12..]), '\n'));
    }
  }

  // What reaches the collector: datagrams, and its own cleanups.
  datatype Input = Datagram(bytes: seq<byte>, addr: string, at: int) | Sweep(which: MapName, at: int)

  function InputEvents(i: Input, json: JsonLine): seq<Event>
  {
    match i
    case Sweep(which, at) => [Cleanup(which, at)]
    case Datagram(bytes, addr, at) =>
      match Parsed(bytes, addr, json)
      case Err => []
      case Ok(p) => PacketEvents(p, at)
  }

  function StreamEvents(inputs: seq<Input>, json: JsonLine): seq<Event>
  {
    if inputs == [] then [] else InputEvents(inputs[0], json) + StreamEvents(inputs[1..], json)
  }

  // The server start time in a datagram's header.
  function StartOf(bytes: seq<byte>): int
  {
    Sizes();
    if |bytes| < 8 then 0 else Signed(Fields(bytes, HEADER)[3], 4)
  }

  predicate SentBy(i: Input, start: int, addr: string)
  {
    i.Datagram? && i.addr == addr && StartOf(i.bytes) == start
  }

  // A server's own datagrams, told by address and header alone.
  function InputsOf(start: int, addr: string, inputs: seq<Input>): seq<Input>
  {
    if inputs == [] then []
    else (if SentBy(inputs[0], start, addr) then [inputs[0]] else []) + InputsOf(start, addr, inputs[1..])
  }

  // The clock never runs backwards, and no sender can share a user key with the
  // server at hand.
  ghost predicate Orderly(inputs: seq<Input>, now: int, start: int, addr: string)
    decreases |inputs|
  {
    inputs != [] ==>
      && now <= inputs[0].at
      && (inputs[0].Datagram? && StartOf(inputs[0].bytes) == start ==> Apart(inputs[0].addr, addr))
      && Orderly(inputs[1..], inputs[0].at, start, addr)
  }

  // Every event of a datagram is its sender's.
  lemma SendersEvents(i: Input, json: JsonLine)
    requires i.Datagram?
    ensures forall e :: e in InputEvents(i, json) ==>
              e.Handle? && e.origin == Origin(StartOf(i.bytes), i.addr) && e.at == i.at && Shaped(e.job)
  {
    if Parsed(i.bytes, i.addr, json).Ok? {
      ParsedIsShaped(i.bytes, i.addr, json);
    }
    hide Shaped, BodyOf, Fields;
  }

  // Events of one instant in front of later ones.
  lemma {:induction false} OneInstant(es: seq<Event>, rest: seq<Event>, now: int, at: int, server: string)
    requires now <= at && Admissible(rest, at, server)
    requires forall e :: e in es ==> e.at == at && (e.Handle? ==> Apart(IdOf(e.origin), server) && Shaped(e.job))
    ensures Admissible(es + rest, now, server)
    decreases |es|
  {
    hide Apart, Shaped, IdOf;
    if es == [] {
      assert es + rest == rest;
    } else {
      OneInstant(es[1..], rest, at, at, server);
      assert (es + rest)[1..] == es[1..] + rest;
      assert es[0] in es;
    }
  }

  lemma {:induction false} StreamsAreAdmissible(inputs: seq<Input>, now: int, start: int, addr: string, json: JsonLine)
    requires Orderly(inputs, now, start, addr)
    ensures Admissible(StreamEvents(inputs, json), now, ServerId(start, addr))
    decreases |inputs|
  {
    if inputs != [] {
      var i, es := inputs[0], InputEvents(inputs[0], json);
      StreamsAreAdmissible(inputs[1..], i.at, start, addr, json);
      if i.Datagram? {
        SendersEvents(i, json);
        ApartAddresses(StartOf(i.bytes), i.addr, start, addr);
        hide Apart, ServerId, Shaped, InputEvents, StartOf;
        assert forall e :: e in es ==> IdOf(e.origin) == ServerId(StartOf(i.bytes), i.addr);
      }
      hide Apart, ServerId, Shaped, Parsed, Jobs, StartOf;
      OneInstant(es, StreamEvents(inputs[1..], json), now, i.at, ServerId(start, addr));
    }
  }

  lemma {:induction false} EventsAppend(server: string, a: seq<Event>, b: seq<Event>)
    ensures EventsOf(server, a + b) == EventsOf(server, a) + EventsOf(server, b)
  {
    hide Mine;
    if a == [] {
      assert a + b == b;
      hide EventsOf;
    } else {
      var first := if Mine(a[0], server) then [a[0]] else [];
      assert (a + b)[1..] == a[1..] + b && (a + b)[0] == a[0];
      EventsAppend(server, a[1..], b);
      assert EventsOf(server, a + b) == first + EventsOf(server, a[1..] + b);
      assert EventsOf(server, a) == first + EventsOf(server, a[1..]);
      hide EventsOf;
    }
  }

  lemma {:induction false} NotMine(server: string, events: seq<Event>)
    requires forall e :: e in events ==> !Mine(e, server)
    ensures EventsOf(server, events) == []
  {
    if events != [] {
      NotMine(server, events[1..]);
    }
  }

  // A server's events are those of its own datagrams.
  lemma {:induction false} OwnDatagrams(start: int, addr: string, inputs: seq<Input>, json: JsonLine)
    ensures EventsOf(ServerId(start, addr), StreamEvents(inputs, json)) ==
            StreamEvents(InputsOf(start, addr, inputs), json)
  {
    if inputs != [] {
      var s, i, rest := ServerId(start, addr), inputs[0], inputs[1..];
      var es, own := InputEvents(i, json), InputsOf(start, addr, rest);
      OwnDatagrams(start, addr, rest, json);
      EventsAppend(s, es, StreamEvents(rest, json));
      OneDatagram(start, addr, i, json);
      hide ServerId, InputEvents, SentBy, EventsOf;
      if SentBy(i, start, addr) {
        assert ([i] + own)[1..] == own;
      } else {
        assert [] + own == own;
      }
    }
  }

  lemma OneDatagram(start: int, addr: string, i: Input, json: JsonLine)
    ensures EventsOf(ServerId(start, addr), InputEvents(i, json)) ==
            if SentBy(i, start, addr) then InputEvents(i, json) else []
  {
    var s, es := ServerId(start, addr), InputEvents(i, json);
    if i.Datagram? {
      SendersEvents(i, json);
      if StartOf(i.bytes) == start && i.addr == addr {
        hide InputEvents, ServerId, StartOf;
        assert forall e :: e in es ==> Mine(e, s);
        OwnEventsOnly(s, es);
      } else {
        hide InputEvents, StartOf, Shaped;
        forall e | e in es
          ensures !Mine(e, s)
        {
          if IdOf(e.origin) == s {
            ServerIdInjective(StartOf(i.bytes), i.addr, start, addr);
          }
        }
        NotMine(s, es);
      }
    } else {
      NotMine(s, es);
    }
  }

  // Isolation, from datagrams to records: no bytes another server sends, in any
  // order and with any cleanups, change a server's records.
  lemma DatagramIsolation(ttl: nat, start: int, addr: string, now: int, inputs: seq<Input>, inputs': seq<Input>,
                          json: JsonLine)
    requires Orderly(inputs, now, start, addr) && Orderly(inputs', now, start, addr)
    requires InputsOf(start, addr, inputs) == InputsOf(start, addr, inputs')
    ensures var s, m := ServerId(start, addr), StringMachine(ttl, 0);
            RecordsOf(s, RunRecords(m, Empty(), StreamEvents(inputs, json))) ==
            RecordsOf(s, RunRecords(m, Empty(), StreamEvents(inputs', json)))
  {
    StreamsAreAdmissible(inputs, now, start, addr, json);
    StreamsAreAdmissible(inputs', now, start, addr, json);
    OwnDatagrams(start, addr, inputs, json);
    OwnDatagrams(start, addr, inputs', json);
    hide StreamEvents, Apart;
    Isolation(ttl, start, addr, now, StreamEvents(inputs, json), StreamEvents(inputs', json));
  }

  // In particular a server's records are those of a run with its datagrams alone.
  lemma DatagramsAlone(ttl: nat, start: int, addr: string, now: int, inputs: seq<Input>, json: JsonLine)
    requires Orderly(inputs, now, start, addr)
    ensures var s, m := ServerId(start, addr), StringMachine(ttl, 0);
            RecordsOf(s, RunRecords(m, Empty(), StreamEvents(inputs, json))) ==
            RecordsOf(s, RunRecords(m, Empty(), StreamEvents(InputsOf(start, addr, inputs), json)))
  {
    StreamsAreAdmissible(inputs, now, start, addr, json);
    OwnDatagrams(start, addr, inputs, json);
    AsIfAlone(ttl, start, addr, now, StreamEvents(inputs, json));
  }

  // ---- Whole f-stream packets

  // A packet of n bytes has at most (n - 8) / 8 records.
  lemma PacketRecordBound(b: seq<byte>)
    requires |b| >= 8
    ensures |FileBody(b).records| <= (|b| - 8) / 8
  {
    RecordBound(AfterTimeOfDay(b[8..]));
    hide WalkFrom, Fields;
  }

  // A packet with a well-formed body carries exactly its known records to the
  // correlator, and one that ends with XRootD's 24-byte time record none at all.
  lemma PacketRecords(head: seq<byte>, lead: Lead, ws: seq<WireRecord>)
    requires |head| == 8 && WellFormedBody(lead, ws)
    ensures FileBody(head + BodyBytes(lead, ws)) == Files(Meanings(ws))
  {
    assert (head + BodyBytes(lead, ws))[8..] == BodyBytes(lead, ws);
    hide BodyBytes, WalkFrom, AfterTimeOfDay, WellFormedBody, Meanings;
    RoundTrip(lead, ws);
  }

  lemma PacketLosesRecords(head: seq<byte>, lead: Lead, ws: seq<WireRecord>, last: Lead)
    requires |head| == 8 && lead.TimeOfDay? && WellFormedBody(lead, ws)
    requires last.TimeOfDay? && WellFormedLead(last) && |last.tail| == 16
    ensures FileBody(head + BodyBytes(lead, ws) + LeadBytes(last)) == Files([])
  {
    var body := BodyBytes(lead, ws) + LeadBytes(last);
    assert head + BodyBytes(lead, ws) + LeadBytes(last) == head + body && (head + body)[8..] == body;
    hide BodyBytes, LeadBytes, WalkFrom, AfterTimeOfDay, WellFormedBody;
    TrailingTimeOfDay(lead, ws, last);
  }
}
