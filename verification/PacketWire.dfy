// Logins and tokens as whole datagrams: what is sent is what the correlator is
// told, and what it then makes of it.
module PacketWire {
  import opened BigEndian
  import opened Records
  import opened Text
  import Numbers
  import opened UserInfoText
  import opened KeyValue
  import opened Keys
  import opened FStream
  import opened FStreamWire
  import opened StateMaps
  import opened CorrelatorModel
  import opened ServerIsolation
  import opened UserHistory
  import opened Packets

  // Text that is made of bytes.
  predicate Narrow(text: string)
  {
    forall i :: 0 <= i < |text| ==> text[i] < 256 as char
  }

  function AsBytes(text: string): seq<byte>
    requires Narrow(text)
  {
    seq(|text|, i requires 0 <= i < |text| => text[i] as int)
  }

  function PacketHeader(code: byte, seqNo: byte, start: int, text: string): seq<nat>
  {
    [code, seqNo, 12 + |text|, Unsigned(start, 4)]
  }

  // A packet with a dictionary id and a text.
  function TextPacket(code: byte, seqNo: byte, start: int, dictId: nat, text: string): seq<byte>
    requires Narrow(text)
  {
    Pack(PacketHeader(code, seqNo, start, text), HEADER) + Bytes(dictId, 4) + AsBytes(text)
  }

  lemma TextPacketRead(code: byte, seqNo: byte, start: int, dictId: nat, text: string)
    requires Narrow(text) && 12 + |text| < Pow256(2) && FitsSigned(start, 4) && dictId < Pow256(4)
    ensures var b := TextPacket(code, seqNo, start, dictId, text);
            && |b| == 12 + |text| && Total(HEADER) == 8 && b[0] == code
            && Fields(b, HEADER) == PacketHeader(code, seqNo, start, text) && Fields(b, HEADER)[2] == |b|
            && Signed(Fields(b, HEADER)[3], 4) == start
            && MapBody(b) == Some((dictId, text))
  {
    var b := TextPacket(code, seqNo, start, dictId, text);
    var h, id, bytes := PacketHeader(code, seqNo, start, text), Bytes(dictId, 4), AsBytes(text);
    HeaderFits(code, seqNo, start, text);
    assert b == Pack(h, HEADER) + (id + bytes);
    hide TextPacket, PacketHeader, Pow256, Fields, Pack, Signed, Unsigned, Number, Bytes, AsText, AsBytes, Total;
    FieldsOfPack(h, HEADER, id + bytes);
    IdAndText(Pack(h, HEADER), id, bytes);
    SignedOfUnsigned(start, 4);
    FirstByte(b);
    BytesOfText(text);
    NumberOfBytes(dictId, 4);
  }

  lemma HeaderFits(code: byte, seqNo: byte, start: int, text: string)
    requires 12 + |text| < Pow256(2)
    ensures var h := PacketHeader(code, seqNo, start, text);
            Fits(h, HEADER) && Total(HEADER) == 8 && |Pack(h, HEADER)| == 8
  {
    Sizes();
    Powers();
    hide Total;
  }

  lemma IdAndText(head: seq<byte>, id: seq<byte>, text: seq<byte>)
    requires |head| == 8 && |id| == 4
    ensures var b := head + (id + text); b[8..12] == id && b[12..] == text
  {}

  lemma FirstByte(b: seq<byte>)
    requires |b| >= 8 && Total(HEADER) == 8
    ensures Fields(b, HEADER)[0] == b[0]
  {
    assert b[..1][..0] == [] && Number(b[..1]) == b[0];
  }

  lemma BytesOfText(text: string)
    requires Narrow(text)
    ensures AsText(AsBytes(text)) == text
  {}

  // The text of a login or token packet.
  function LoginText(i: UserInfo, pairs: seq<Pair>): string
  {
    Print(i) + "\n" + Printed(pairs)
  }

  lemma LoginTextRead(i: UserInfo, pairs: seq<Pair>)
    requires ParserPrintable(i) && '\n' !in i.protocol && '\n' !in i.username && '\n' !in i.host
    ensures var text := LoginText(i, pairs);
            ParserUserInfo(Before(text, '\n')) == Ok(i) && After(text, '\n') == Printed(pairs)
  {
    hide Print, Printed, ParserUserInfo, Before, After, ParserPrintable;
    ParserRoundTrip(i);
    NoNewline(i);
    CutAt(Print(i), '\n', Printed(pairs));
  }

  lemma NoNewline(i: UserInfo)
    requires '\n' !in i.protocol && '\n' !in i.username && '\n' !in i.host
    ensures '\n' !in Print(i)
  {
    PlainNumbers(i.pid, '\n');
    PlainNumbers(i.sid, '\n');
    hide SignedDecimal;
  }

  // What can be sent.
  ghost predicate Sendable(start: int, dictId: nat, i: UserInfo, pairs: seq<Pair>)
  {
    && FitsSigned(start, 4) && dictId < Pow256(4)
    && ParserPrintable(i) && '\n' !in i.protocol && '\n' !in i.username && '\n' !in i.host
    && Narrow(LoginText(i, pairs)) && 12 + |LoginText(i, pairs)| < Pow256(2) && AllPrintable(pairs)
  }

  // A packet of either kind that has been read so far.
  lemma UserPacket(b: seq<byte>, addr: string, json: JsonLine, token: bool)
    requires |b| >= 8 && Total(HEADER) == 8 && Fields(b, HEADER)[2] == |b|
    requires b[0] == (if token then 'T' else 'u') as int
    ensures Parsed(b, addr, json) ==
            match UserBody(b, token)
            case Some(body) => Ok(Packet(Signed(Fields(b, HEADER)[3], 4), addr, body))
            case None => Err
  {
    hide UserBody, Fields, Total;
  }

  // A login packet is parsed into exactly the record it was made of.
  lemma LoginPacket(seqNo: byte, start: int, addr: string, dictId: nat, i: UserInfo, auth: AuthInfo, json: JsonLine)
    requires Sendable(start, dictId, i, AuthPairs(auth))
    ensures Parsed(TextPacket('u' as int, seqNo, start, dictId, LoginText(i, AuthPairs(auth))), addr, json) ==
            Ok(Packet(start, addr, User(UserRecord(dictId, i, auth, NO_TOKEN))))
  {
    hide TextPacket, LoginText, MapBody, Fields, Total, Parts, AuthOf, TokenOf, Printed, AuthPairs;
    hide ParserUserInfo, Before;
    hide After, Parsed, ParserPrintable, Narrow, Pow256, Signed, Printable, FitsSigned;
    var pairs := AuthPairs(auth);
    var b := TextPacket('u' as int, seqNo, start, dictId, LoginText(i, pairs));
    TextPacketRead('u' as int, seqNo, start, dictId, LoginText(i, pairs));
    LoginTextRead(i, pairs);
    AuthRoundTrip(auth);
    UserPacket(b, addr, json, false);
  }

  // So is a token packet.
  lemma TokenPacket(seqNo: byte, start: int, addr: string, dictId: nat, i: UserInfo, token: TokenInfo, json: JsonLine)
    requires Sendable(start, dictId, i, TokenPairs(token)) && token.userDictId <= Numbers.MAX_UINT32
    ensures Parsed(TextPacket('T' as int, seqNo, start, dictId, LoginText(i, TokenPairs(token))), addr, json) ==
            Ok(Packet(start, addr, User(UserRecord(dictId, i, NO_AUTH, token))))
  {
    hide TextPacket, LoginText, MapBody, Fields, Total, Parts, AuthOf, TokenOf, Printed, TokenPairs;
    hide ParserUserInfo, Before;
    hide After, Parsed, ParserPrintable, Narrow, Pow256, Signed, Printable, FitsSigned;
    var pairs := TokenPairs(token);
    var b := TextPacket('T' as int, seqNo, start, dictId, LoginText(i, pairs));
    TextPacketRead('T' as int, seqNo, start, dictId, LoginText(i, pairs));
    LoginTextRead(i, pairs);
    TokenRoundTrip(token);
    UserPacket(b, addr, json, true);
  }

  // ---- A token packet that names no user id wipes the user

  // A 'T' packet as it could arrive: token settings, but none that names a
  // user id. Any user it is about loses its authorization, its application and
  // its codes.
  lemma TokenPacketWipes(ttl: nat, t: Tables<LocalKey>, seqNo: byte, o: Origin, dictId: nat, i: UserInfo,
                         token: TokenInfo, at: int, json: JsonLine)
    requires Sendable(o.serverStart, dictId, i, TokenPairs(token)) && token.userDictId == 0
    requires LiveUser(t, UserKeyOf(i), at)
    ensures var b := TextPacket('T' as int, seqNo, o.serverStart, dictId, LoginText(i, TokenPairs(token)));
            var events := InputEvents(Datagram(b, o.remoteAddr, at), json);
            UserIn(RunTables(TypedMachine(ttl), t, events), UserKeyOf(i)) ==
            Some(Entry(UserState(dictId, i, NO_AUTH, token, "", 0, 0, at), at + ttl))
  {
    hide TextPacket, LoginText, TokenPairs, Parsed, UserKeyOf, InputEvents, Step, ParserPrintable, AllPrintable, Narrow;
    TokenPacket(seqNo, o.serverStart, o.remoteAddr, dictId, i, token, json);
    var b := TextPacket('T' as int, seqNo, o.serverStart, dictId, LoginText(i, TokenPairs(token)));
    var rec := UserRecord(dictId, i, NO_AUTH, token);
    OneUserPacket(b, o, rec, at, json);
    LoginStep(ttl, t, Handle(o, UserJob(rec), at), UserKeyOf(i));
    assert [Handle(o, UserJob(rec), at)][1..] == [];
  }

  lemma OneUserPacket(b: seq<byte>, o: Origin, rec: UserRecord, at: int, json: JsonLine)
    requires Parsed(b, o.remoteAddr, json) == Ok(Packet(o.serverStart, o.remoteAddr, User(rec)))
    ensures InputEvents(Datagram(b, o.remoteAddr, at), json) == [Handle(o, UserJob(rec), at)]
  {
    hide Parsed;
  }

  // For example this one.
  const EXAMPLE := UserInfo("xroot", "u", 1, 2, "h")
  const SUBJECT := TokenInfo(0, "subj", "", "", "", "")

  lemma SubjectOnly()
    ensures LoginText(EXAMPLE, TokenPairs(SUBJECT)) == "xroot/u.1:2@h" + "\n" + "&Uc=0&s=subj&n=&o=&r=&g="
    ensures Sendable(0, 7, EXAMPLE, TokenPairs(SUBJECT))
  {
    hide Print, Printed, ParserPrintable, AllPrintable, TokenPairs, Pow256, LoginText, Narrow;
    ExampleText();
    SubjectText();
    NarrowAppend("xroot/u.1:2@h", "\n");
    NarrowAppend("xroot/u.1:2@h" + "\n", "&Uc=0&s=subj&n=&o=&r=&g=");
    ExampleIsNarrow();
    LoginTextIs(EXAMPLE, TokenPairs(SUBJECT));
    ExamplePrintable();
    Powers();
  }

  lemma LoginTextIs(i: UserInfo, pairs: seq<Pair>)
    ensures LoginText(i, pairs) == Print(i) + "\n" + Printed(pairs)
  {}

  lemma ExampleIsNarrow()
    ensures Narrow("xroot/u.1:2@h") && Narrow("\n") && Narrow("&Uc=0&s=subj&n=&o=&r=&g=")
  {}

  lemma NarrowAppend(a: string, b: string)
    ensures Narrow(a) && Narrow(b) ==> Narrow(a + b)
  {}

  lemma ExamplePrintable()
    ensures ParserPrintable(EXAMPLE) && AllPrintable(TokenPairs(SUBJECT))
  {
    Digit(0);
    hide Decimal;
  }

  lemma ExampleText()
    ensures Print(EXAMPLE) == "xroot/u.1:2@h"
  {
    Digit(1);
    Digit(2);
    hide Decimal;
    assert PrintLogin(EXAMPLE) == "u.1:2";
  }

  lemma SubjectText()
    ensures Printed(TokenPairs(SUBJECT)) == "&Uc=0&s=subj&n=&o=&r=&g="
  {
    var ps := TokenPairs(SUBJECT);
    SubjectItems();
    assert ps[0..] == ps;
    hide TokenPairs, Item, Printed;
    SubjectTail();
    OnePair(ps, 1);
    OnePair(ps, 0);
    FirstSettings(Printed(ps[2..]));
  }

  lemma FirstSettings(rest: string)
    requires rest == "&n=&o=&r=&g="
    ensures "&" + "Uc=0" + ("&" + "s=subj" + rest) == "&Uc=0&s=subj&n=&o=&r=&g="
  {}

  lemma SubjectTail()
    ensures var ps := TokenPairs(SUBJECT); |ps| == 6 && Printed(ps[2..]) == "&n=&o=&r=&g="
  {
    var ps := TokenPairs(SUBJECT);
    SubjectItems();
    assert ps[6..] == [] && Printed([]) == "";
    hide TokenPairs, Item, Printed;
    OnePair(ps, 5);
    OnePair(ps, 4);
    OnePair(ps, 3);
    OnePair(ps, 2);
  }

  lemma SubjectItems()
    ensures var ps := TokenPairs(SUBJECT);
            && |ps| == 6
            && Item(ps[0]) == "Uc=0" && Item(ps[1]) == "s=subj" && Item(ps[2]) == "n="
            && Item(ps[3]) == "o=" && Item(ps[4]) == "r=" && Item(ps[5]) == "g="
  {
    Digit(0);
    hide Decimal;
  }

  lemma Digit(n: nat)
    requires n < 10
    ensures Decimal(n) == ["0123456789"[n]]
  {}

  lemma OnePair(ps: seq<Pair>, n: nat)
    requires n < |ps|
    ensures Printed(ps[n..]) == "&" + Item(ps[n]) + Printed(ps[n + 1..])
  {
    assert ps[n..][1..] == ps[n + 1..];
  }
}
