// Datagrams of every kind: which are taken for what, and which are refused.
module Datagrams {
  import opened BigEndian
  import opened Records
  import opened Text
  import opened UserInfoText
  import opened KeyValue
  import opened FStream
  import opened FStreamWire
  import opened FStreamOffsets
  import opened CorrelatorModel
  import opened Packets
  import opened PacketWire
  import opened WireTransfer

  // ---- Refused, byte by byte

  lemma HeaderRead(b: seq<byte>)
    requires |b| >= 8
    ensures Total(HEADER) == 8 && Fields(b, HEADER) == [b[0], b[1], U(b, 2, 2), U(b, 4, 4)]
  {
    HeaderAt(b);
    OneByte(b, 0);
    OneByte(b, 1);
    hide Total, Fields, U;
  }

  // Whatever does not have the length its header gives, cut or extended.
  lemma WrongLength(b: seq<byte>, addr: string, json: JsonLine)
    requires |b| == 0 || (b[0] != '<' as int && (|b| < 8 || U(b, 2, 2) != |b|))
    ensures Parsed(b, addr, json) == Err
  {
    if |b| >= 8 {
      HeaderRead(b);
    }
    hide Total, Fields, U, BodyOf;
  }

  // XML is passed by, with no header at all.
  lemma XmlRead(b: seq<byte>, addr: string, json: JsonLine)
    requires b != [] && b[0] == '<' as int
    ensures Parsed(b, addr, json) == Ok(Packet(0, addr, Xml))
    ensures forall at :: InputEvents(Datagram(b, addr, at), json) == []
  {}

  ghost predicate Whole(b: seq<byte>)
  {
    |b| >= 8 && b[0] != '<' as int && U(b, 2, 2) == |b|
  }

  // The kind is the first byte, the start of the server the fifth to eighth.
  lemma KindRead(b: seq<byte>, addr: string, json: JsonLine)
    requires Whole(b)
    ensures Parsed(b, addr, json) ==
            match BodyOf(b, b[0] as char, json)
            case Some(body) => Ok(Packet(S(b, 4, 4), addr, body))
            case None => Err
  {
    HeaderRead(b);
    hide Total, Fields, U, BodyOf, Signed;
  }

  // A kind that is none of XRootD's.
  lemma UnknownKind(b: seq<byte>, addr: string, json: JsonLine)
    requires Whole(b)
    requires b[0] as char !in {'=', 'd', 'i', 'U', 'u', 'T', 'f', 'g', 't', 'x', 'p', 'r'}
    ensures Parsed(b, addr, json) == Err
  {
    KindRead(b, addr, json);
    hide U, S, Parsed;
  }

  // Kinds that are accepted with nothing in them.
  lemma PassedBy(b: seq<byte>, addr: string, json: JsonLine)
    requires Whole(b) && b[0] as char in {'t', 'x', 'p', 'r'}
    ensures Parsed(b, addr, json) == Ok(Packet(S(b, 4, 4), addr, Files([])))
    ensures forall at :: InputEvents(Datagram(b, addr, at), json) == []
  {
    KindRead(b, addr, json);
    hide U, S, Parsed;
  }

  // A monitoring stream packet has a header of 24 bytes and then, up to the NUL
  // bytes at its end, lines that are all JSON.
  lemma GStreamRead(b: seq<byte>, addr: string, json: JsonLine)
    requires Whole(b) && b[0] as char == 'g'
    ensures |b| < 24 ==> Parsed(b, addr, json) == Err
    ensures |b| >= 24 ==>
              var lines := Split(AsText(Trimmed(b[24..])), '\n');
              Parsed(b, addr, json) ==
              if Trimmed(b[24..]) == [] || (forall i :: 0 <= i < |lines| ==> json(lines[i]))
              then Ok(Packet(S(b, 4, 4), addr, Files([]))) else Err
  {
    hide Parsed, Trimmed, AsText, Split, GStreamBody, Whole, S;
    KindRead(b, addr, json);
    if |b| >= 24 {
      LinesRead(b, json);
    } else {
      NoLines(b, json);
    }
  }

  lemma NoLines(b: seq<byte>, json: JsonLine)
    requires |b| < 24
    ensures GStreamBody(b, json) == None
  {}

  lemma LinesRead(b: seq<byte>, json: JsonLine)
    requires |b| >= 24
    ensures var data := Trimmed(b[24..]);
            var lines := Split(AsText(data), '\n');
            GStreamBody(b, json) ==
            if data == [] || (forall i :: 0 <= i < |lines| ==> json(lines[i])) then Some(Files([])) else None
  {
    hide Trimmed, AsText, Split;
    var data := Trimmed(b[24..]);
    if data == [] {
      assert EventLines(b) == [];
    } else {
      assert EventLines(b) == Split(AsText(data), '\n');
    }
  }

  // Dictionary ids lie in the bytes 8 to 11 and texts behind them.
  lemma MappingRead(b: seq<byte>, addr: string, json: JsonLine, kind: char)
    requires Whole(b) && kind in {'d', 'i', 'U'} && b[0] == kind as int
    ensures Parsed(b, addr, json) ==
            if |b| < 12 then Err else Ok(Packet(S(b, 4, 4), addr, Mapping(kind, U(b, 8, 4), AsText(b[12..]))))
  {
    KindRead(b, addr, json);
    hide S, Parsed, AsText, Number;
  }

  lemma ServerRead(b: seq<byte>, addr: string, json: JsonLine)
    requires Whole(b) && b[0] as char == '='
    ensures |b| < 12 ==> Parsed(b, addr, json) == Err
    ensures |b| >= 12 && '\n' !in AsText(b[12..]) ==>
              Parsed(b, addr, json) == Ok(Packet(S(b, 4, 4), addr, Mapping('=', U(b, 8, 4), AsText(b[12..]))))
    ensures |b| >= 12 && '\n' in AsText(b[12..]) ==>
              Parsed(b, addr, json) ==
              Ok(Packet(S(b, 4, 4), addr, Server(ServerOf(Parts(After(AsText(b[12..]), '\n'), '&')))))
  {
    KindRead(b, addr, json);
    hide S, Parsed, AsText, Number, ServerOf, Parts, After;
  }

  // Logins and tokens whose first line is no user info.
  lemma NoUserInfo(b: seq<byte>, addr: string, json: JsonLine)
    requires Whole(b) && b[0] as char in {'u', 'T'}
    requires |b| < 12 || ParserUserInfo(Before(AsText(b[12..]), '\n')).Err?
    ensures Parsed(b, addr, json) == Err
  {
    KindRead(b, addr, json);
    hide U, S, Parsed, AsText, Number, ParserUserInfo, Before;
  }

  // ---- Sent and read

  // What every packet with a text can be sent with.
  ghost predicate CanSend(start: int, dictId: nat, text: string)
  {
    FitsSigned(start, 4) && dictId < Pow256(4) && Narrow(text) && 12 + |text| < Pow256(2)
  }

  // A path, application or codes packet keeps its kind, its id and its text.
  lemma MappingPacket(kind: char, seqNo: byte, start: int, addr: string, dictId: nat, text: string, json: JsonLine)
    requires kind in {'d', 'i', 'U'} && CanSend(start, dictId, text)
    ensures Parsed(TextPacket(kind as int, seqNo, start, dictId, text), addr, json) ==
            Ok(Packet(start, addr, Mapping(kind, dictId, text)))
  {
    hide TextPacket, MapBody, Fields, Total, Narrow, Pow256, Signed, FitsSigned;
    TextPacketRead(kind as int, seqNo, start, dictId, text);
    TextBody(TextPacket(kind as int, seqNo, start, dictId, text), addr, json);
  }

  lemma TextBody(b: seq<byte>, addr: string, json: JsonLine)
    requires |b| >= 8 && Total(HEADER) == 8 && Fields(b, HEADER)[2] == |b| && b[0] != '<' as int
    ensures Parsed(b, addr, json) ==
            match BodyOf(b, b[0] as char, json)
            case Some(body) => Ok(Packet(Signed(Fields(b, HEADER)[3], 4), addr, body))
            case None => Err
  {
    hide BodyOf, Fields, Total, Signed;
  }

  // A server identification is read as its settings; without a second line it is
  // one more dictionary packet.
  lemma ServerPacket(seqNo: byte, start: int, addr: string, dictId: nat, head: string, info: ServerInfo,
                     json: JsonLine)
    requires CanSend(start, dictId, head + "\n" + Printed(ServerPairs(info)))
    requires '\n' !in head && AllPrintable(ServerPairs(info))
    ensures Parsed(TextPacket('=' as int, seqNo, start, dictId, head + "\n" + Printed(ServerPairs(info))), addr, json)
            == Ok(Packet(start, addr, Server(info)))
  {
    hide TextPacket, MapBody, Fields, Total, Narrow, Pow256, Signed, FitsSigned, Printed, ServerPairs, ServerOf, Parts;
    hide After;
    var text := head + "\n" + Printed(ServerPairs(info));
    TextPacketRead('=' as int, seqNo, start, dictId, text);
    TextBody(TextPacket('=' as int, seqNo, start, dictId, text), addr, json);
    CutAt(head, '\n', Printed(ServerPairs(info)));
    ServerRoundTrip(info);
  }

  lemma PlainServerPacket(seqNo: byte, start: int, addr: string, dictId: nat, text: string, json: JsonLine)
    requires CanSend(start, dictId, text) && '\n' !in text
    ensures Parsed(TextPacket('=' as int, seqNo, start, dictId, text), addr, json) ==
            Ok(Packet(start, addr, Mapping('=', dictId, text)))
  {
    hide TextPacket, MapBody, Fields, Total, Narrow, Pow256, Signed, FitsSigned;
    TextPacketRead('=' as int, seqNo, start, dictId, text);
    TextBody(TextPacket('=' as int, seqNo, start, dictId, text), addr, json);
  }

  // An f-stream packet is one event for each of its known records, in order.
  lemma RecordsInOrder(seqNo: byte, o: Origin, lead: Lead, ws: seq<WireRecord>, at: int, json: JsonLine)
    requires FitsSigned(o.serverStart, 4) && WellFormedBody(lead, ws) && 8 + |BodyBytes(lead, ws)| < Pow256(2)
    ensures var b := StreamPacket(seqNo, o.serverStart, BodyBytes(lead, ws));
            var events := InputEvents(Datagram(b, o.remoteAddr, at), json);
            && |events| == |Meanings(ws)|
            && forall i :: 0 <= i < |events| ==> events[i] == Handle(o, FileJob(Meanings(ws)[i]), at)
  {
    StreamPacketRead(seqNo, o.serverStart, o.remoteAddr, lead, ws, json);
    hide StreamPacket, BodyBytes, WellFormedBody, Parsed, Meanings;
  }
}
