// The f-stream wire format and what the walker makes of it.
module FStreamWire {
  import opened BigEndian
  import opened Records
  import opened FStream

  // Records as a server sends them. `name` may end in padding NULs, `tail` is
  // whatever else the record's size covers.
  datatype WireRecord =
    | WireTime(flag: byte, id: nat, nRecs0: int, nRecs1: int, tBeg: int, tEnd: int, sid: int)
    | WireClose(flag: byte, id: nat, xfr: StatXFR, ops: StatOPS)
    | WireOpen(flag: byte, id: nat, fileSize: int, user: nat, name: seq<byte>)
    | WireDisconnect(flag: byte, id: nat, tail: seq<byte>)
    | WireUnknown(code: byte, flag: byte, id: nat, tail: seq<byte>)

  function Code(w: WireRecord): nat
  {
    match w
    case WireTime(_, _, _, _, _, _, _) => REC_TIME
    case WireClose(_, _, _, _) => REC_CLOSE
    case WireOpen(_, _, _, _, _) => REC_OPEN
    case WireDisconnect(_, _, _) => REC_DISC
    case WireUnknown(code, _, _, _) => code
  }

  function TimeFields(w: WireRecord): seq<nat>
    requires w.WireTime?
  {
    [Unsigned(w.nRecs0, 2), Unsigned(w.nRecs1, 2), Unsigned(w.tBeg, 4), Unsigned(w.tEnd, 4), Unsigned(w.sid, 8)]
  }

  function XfrFields(x: StatXFR): seq<nat>
  {
    [Unsigned(x.read, 8), Unsigned(x.readv, 8), Unsigned(x.write, 8)]
  }

  function OpsFields(o: StatOPS): seq<nat>
  {
    [Unsigned(o.read, 4), Unsigned(o.readv, 4), Unsigned(o.write, 4), Unsigned(o.rsMin, 2), Unsigned(o.rsMax, 2),
     Unsigned(o.rsegs, 8), Unsigned(o.rdMin, 4), Unsigned(o.rdMax, 4), Unsigned(o.rvMin, 4), Unsigned(o.rvMax, 4),
     Unsigned(o.wrMin, 4), Unsigned(o.wrMax, 4)]
  }

  // The bytes after the record header.
  function Payload(w: WireRecord): seq<byte>
  {
    match w
    case WireTime(_, _, _, _, _, _, _) => Pack(TimeFields(w), TIME_BODY)
    case WireClose(flag, _, xfr, ops) =>
      Pack(XfrFields(xfr), CLOSE_BODY) + if HasOps(flag) then Pack(OpsFields(ops), OPS) else []
    case WireOpen(flag, _, fileSize, user, name) =>
      Pack([Unsigned(fileSize, 8)], OPEN_BODY) + (if HasUser(flag) then Pack([user], USER_ID) else []) + name
    case WireDisconnect(_, _, tail) => tail
    case WireUnknown(_, _, _, tail) => tail
  }

  function Size(w: WireRecord): nat { 8 + |Payload(w)| }

  function HeaderFields(w: WireRecord): seq<nat>
  {
    [Code(w), w.flag, Size(w), w.id]
  }

  function Encode(w: WireRecord): seq<byte>
  {
    Pack(HeaderFields(w), HEADER) + Payload(w)
  }

  function EncodeAll(ws: seq<WireRecord>): seq<byte>
  {
    if ws == [] then [] else Encode(ws[0]) + EncodeAll(ws[1..])
  }

  // ---- Well-formed records and what they mean

  ghost predicate FitsOps(o: StatOPS)
  {
    && FitsSigned(o.read, 4) && FitsSigned(o.readv, 4) && FitsSigned(o.write, 4)
    && FitsSigned(o.rsMin, 2) && FitsSigned(o.rsMax, 2) && FitsSigned(o.rsegs, 8)
    && FitsSigned(o.rdMin, 4) && FitsSigned(o.rdMax, 4) && FitsSigned(o.rvMin, 4)
    && FitsSigned(o.rvMax, 4) && FitsSigned(o.wrMin, 4) && FitsSigned(o.wrMax, 4)
  }

  ghost predicate FitsXfr(x: StatXFR)
  {
    FitsSigned(x.read, 8) && FitsSigned(x.readv, 8) && FitsSigned(x.write, 8)
  }

  ghost predicate WellFormed(w: WireRecord)
  {
    && w.id < Pow256(4)
    && Size(w) <= 16384
    && match w
       case WireTime(_, _, n0, n1, b, e, sid) =>
         FitsSigned(n0, 2) && FitsSigned(n1, 2) && FitsSigned(b, 4) && FitsSigned(e, 4) && FitsSigned(sid, 8)
       case WireClose(_, _, xfr, ops) => FitsXfr(xfr) && FitsOps(ops)
       case WireOpen(_, _, fileSize, user, _) => FitsSigned(fileSize, 8) && user < Pow256(4)
       case WireDisconnect(_, _, _) => true
       case WireUnknown(code, _, _, _) => code !in {REC_TIME, REC_CLOSE, REC_OPEN, REC_DISC}
  }

  // The record a reader of the protocol expects: no padding, and nothing at
  // all for a type it does not know.
  function Meaning(w: WireRecord): Option<FileRecord>
  {
    var header := FileHeader(Code(w), w.flag, Size(w), w.id, 0, 0, 0);
    match w
    case WireTime(_, _, n0, n1, b, e, sid) => Some(TimeRecord(header.(nRecs0 := n0, nRecs1 := n1), b, e, sid))
    case WireClose(flag, _, xfr, ops) => Some(CloseRecord(header, xfr, if HasOps(flag) then ops else NO_OPS))
    case WireOpen(flag, _, fileSize, user, name) =>
      var u := if HasUser(flag) then user else 0;
      Some(OpenRecord(header.(userId := u), fileSize, u, Trimmed(name)))
    case WireDisconnect(_, id, _) => Some(DisconnectRecord(header, id))
    case WireUnknown(_, _, _, _) => None
  }

  function Meanings(ws: seq<WireRecord>): seq<FileRecord>
  {
    if ws == [] then [] else Listed(Meaning(ws[0])) + Meanings(ws[1..])
  }

  // ---- One record, then whatever follows it

  lemma HeaderRead(h: seq<nat>, bs: seq<byte>)
    requires Fits(h, HEADER)
    requires Pack(h, HEADER) <= bs
    ensures |bs| >= Total(HEADER) && Fields(bs, HEADER) == h
  {
    hide Fields, Pack, Total;
    var head := Pack(h, HEADER);
    assert bs == head + bs[|head|..];
    FieldsOfPack(h, HEADER, bs[|head|..]);
  }

  lemma HeaderOfEncoded(w: WireRecord, bs: seq<byte>)
    requires WellFormed(w)
    requires Pack(HeaderFields(w), HEADER) <= bs
    ensures |bs| >= Total(HEADER) && Fields(bs, HEADER) == HeaderFields(w)
  {
    Powers();
    hide Fields, Pack, Total, Payload;
    HeaderRead(HeaderFields(w), bs);
  }

  // A whole struct: the header and the body layout behind it.
  lemma StructOfEncoded(w: WireRecord, body: seq<nat>, layout: Layout, rest: seq<byte>)
    requires WellFormed(w) && Fits(body, layout)
    ensures var bs := Pack(HeaderFields(w), HEADER) + Pack(body, layout) + rest;
            && |bs| >= Total(HEADER + layout)
            && Fields(bs, HEADER + layout) == HeaderFields(w) + body
            && bs[Total(HEADER + layout)..] == rest
  {
    hide Fields, Pack, Total;
    var head := Pack(HeaderFields(w), HEADER);
    var bs := head + Pack(body, layout) + rest;
    HeaderOfEncoded(w, bs);
    FieldsAppend(bs, HEADER, layout);
    assert bs[Total(HEADER)..] == Pack(body, layout) + rest;
    FieldsOfPack(body, layout, rest);
  }

  lemma EncodedTime(w: WireRecord, rest: seq<byte>)
    requires WellFormed(w) && w.WireTime?
    ensures TurnOn(Encode(w) + rest) == Advance(Meaning(w), |Encode(w)|)
  {
    Sizes();
    Powers();
    hide Fields, Pack, Total;
    var bs := Encode(w) + rest;
    HeaderOfEncoded(w, bs);
    assert Fits(TimeFields(w), TIME_BODY);
    StructOfEncoded(w, TimeFields(w), TIME_BODY, rest);
    SignedOfUnsigned(w.nRecs0, 2);
    SignedOfUnsigned(w.nRecs1, 2);
    SignedOfUnsigned(w.tBeg, 4);
    SignedOfUnsigned(w.tEnd, 4);
    SignedOfUnsigned(w.sid, 8);
  }

  lemma OpsRoundTrip(o: StatOPS, rest: seq<byte>)
    requires FitsOps(o)
    ensures Total(OPS) == 48 && OpsOf(Fields(Pack(OpsFields(o), OPS) + rest, OPS)) == o
  {
    Sizes();
    Powers();
    hide Fields, Pack, Total;
    assert Fits(OpsFields(o), OPS);
    FieldsOfPack(OpsFields(o), OPS, rest);
    SignedOfUnsigned(o.read, 4);
    SignedOfUnsigned(o.readv, 4);
    SignedOfUnsigned(o.write, 4);
    SignedOfUnsigned(o.rsMin, 2);
    SignedOfUnsigned(o.rsMax, 2);
    SignedOfUnsigned(o.rsegs, 8);
    SignedOfUnsigned(o.rdMin, 4);
    SignedOfUnsigned(o.rdMax, 4);
    SignedOfUnsigned(o.rvMin, 4);
    SignedOfUnsigned(o.rvMax, 4);
    SignedOfUnsigned(o.wrMin, 4);
    SignedOfUnsigned(o.wrMax, 4);
  }

  lemma EncodedClose(w: WireRecord, rest: seq<byte>)
    requires WellFormed(w) && w.WireClose?
    ensures TurnOn(Encode(w) + rest) == Advance(Meaning(w), |Encode(w)|)
  {
    Sizes();
    Powers();
    hide Fields, Pack, Total;
    var bs := Encode(w) + rest;
    HeaderOfEncoded(w, bs);
    var after := (if HasOps(w.flag) then Pack(OpsFields(w.ops), OPS) else []) + rest;
    assert bs == Pack(HeaderFields(w), HEADER) + Pack(XfrFields(w.xfr), CLOSE_BODY) + after;
    StructOfEncoded(w, XfrFields(w.xfr), CLOSE_BODY, after);
    var f := Fields(bs, HEADER + CLOSE_BODY);
    assert f[4..] == XfrFields(w.xfr);
    SignedOfUnsigned(w.xfr.read, 8);
    SignedOfUnsigned(w.xfr.readv, 8);
    SignedOfUnsigned(w.xfr.write, 8);
    if HasOps(w.flag) {
      OpsRoundTrip(w.ops, rest);
    }
  }

  lemma EncodedOpen(w: WireRecord, rest: seq<byte>)
    requires WellFormed(w) && w.WireOpen?
    ensures TurnOn(Encode(w) + rest) == Advance(Meaning(w), |Encode(w)|)
  {
    Sizes();
    Powers();
    hide Fields, Pack, Total, Trimmed, HasUser;
    var bs := Encode(w) + rest;
    HeaderOfEncoded(w, bs);
    SignedOfUnsigned(w.fileSize, 8);
    var user := if HasUser(w.flag) then Pack([w.user], USER_ID) else [];
    var head, size := Pack(HeaderFields(w), HEADER), Pack([Unsigned(w.fileSize, 8)], OPEN_BODY);
    assert bs == head + (size + user + w.name) + rest;
    assert |user| == if HasUser(w.flag) then 4 else 0;
    StructOfEncoded(w, [Unsigned(w.fileSize, 8)], OPEN_BODY, user + w.name + rest);
    OpenSlices(head, size, user, w.name, rest);
    if HasUser(w.flag) {
      FieldsOfPack([w.user], USER_ID, w.name + rest);
    }
    assert |bs| >= Size(w) && Size(w) == 16 + |user| + |w.name|;
    hide Signed, Unsigned, Pow256, Encode, Payload, FitsSigned;
    OpenTurnOf(bs, w, user);
    assert TurnOn(bs) == OpenTurn(bs, Size(w)) by {
      hide OpenTurn;
    }
  }

  lemma OpenTurnOf(bs: seq<byte>, w: WireRecord, user: seq<byte>)
    requires w.WireOpen? && 8 <= Size(w) <= |bs| && Size(w) == 16 + |user| + |w.name|
    requires |user| == (if HasUser(w.flag) then 4 else 0) && bs[16 + |user|..Size(w)] == w.name
    requires Total(HEADER + OPEN_BODY) == 16 && Total(USER_ID) == 4
    requires Fields(bs, HEADER + OPEN_BODY) == HeaderFields(w) + [Unsigned(w.fileSize, 8)]
    requires Signed(Unsigned(w.fileSize, 8), 8) == w.fileSize
    requires HasUser(w.flag) ==> Fields(bs[16..], USER_ID) == [w.user]
    ensures OpenTurn(bs, Size(w)) == Advance(Meaning(w), Size(w))
  {
    hide Fields, Total, Trimmed, HasUser, Signed, Unsigned, Payload;
  }

  lemma OpenSlices(head: seq<byte>, size: seq<byte>, user: seq<byte>, name: seq<byte>, rest: seq<byte>)
    requires |head| == 8 && |size| == 8
    ensures var bs, at := head + (size + user + name) + rest, 16 + |user|;
            && bs == head + size + (user + name + rest)
            && bs[16..] == user + (name + rest)
            && bs[at..at + |name|] == name
  {
    assert head + (size + user + name) + rest == head + size + (user + name + rest);
    assert user + name + rest == user + (name + rest);
  }

  lemma EncodedOther(w: WireRecord, rest: seq<byte>)
    requires WellFormed(w) && (w.WireDisconnect? || w.WireUnknown?)
    ensures TurnOn(Encode(w) + rest) == Advance(Meaning(w), |Encode(w)|)
  {
    Sizes();
    hide Fields, Pack, Total, CloseTurn, OpenTurn;
    HeaderOfEncoded(w, Encode(w) + rest);
  }

  lemma EncodedRecord(w: WireRecord, rest: seq<byte>)
    requires WellFormed(w)
    ensures TurnOn(Encode(w) + rest) == Advance(Meaning(w), |Encode(w)|)
  {
    hide *;
    match w
    case WireTime(_, _, _, _, _, _, _) => EncodedTime(w, rest);
    case WireClose(_, _, _, _) => EncodedClose(w, rest);
    case WireOpen(_, _, _, _, _) => EncodedOpen(w, rest);
    case WireDisconnect(_, _, _) => EncodedOther(w, rest);
    case WireUnknown(_, _, _, _) => EncodedOther(w, rest);
  }

  // ---- Whole bodies

  // The time-of-day record every f-stream packet starts with, or its absence.
  datatype Lead = NoLead | TimeOfDay(flag: byte, id: nat, tail: seq<byte>)

  ghost predicate WellFormedLead(lead: Lead)
  {
    lead.TimeOfDay? ==> lead.id < Pow256(4) && 8 + |lead.tail| < Pow256(2)
  }

  function LeadFields(lead: Lead): seq<nat>
    requires lead.TimeOfDay?
  {
    [REC_TIME, lead.flag, 8 + |lead.tail|, lead.id]
  }

  function LeadBytes(lead: Lead): seq<byte>
  {
    if lead.NoLead? then [] else Pack(LeadFields(lead), HEADER) + lead.tail
  }

  function BodyBytes(lead: Lead, ws: seq<WireRecord>): seq<byte>
  {
    LeadBytes(lead) + EncodeAll(ws)
  }

  ghost predicate WellFormedBody(lead: Lead, ws: seq<WireRecord>)
  {
    && WellFormedLead(lead)
    && (forall i :: 0 <= i < |ws| ==> WellFormed(ws[i]))
    && (lead.NoLead? && ws != [] ==> !ws[0].WireTime?)
  }

  lemma LeadHeader(lead: Lead, bs: seq<byte>)
    requires lead.TimeOfDay? && WellFormedLead(lead)
    requires Pack(LeadFields(lead), HEADER) <= bs
    ensures |bs| >= 8 && Total(HEADER) == 8 && Fields(bs, HEADER) == LeadFields(lead)
  {
    Sizes();
    Powers();
    hide Fields, Pack, Total;
    HeaderRead(LeadFields(lead), bs);
  }

  lemma LeadIsSkipped(lead: Lead, ws: seq<WireRecord>)
    requires WellFormedBody(lead, ws)
    ensures AfterTimeOfDay(BodyBytes(lead, ws)) == EncodeAll(ws)
  {
    Sizes();
    hide Fields, Total;
    var bs := BodyBytes(lead, ws);
    if lead.TimeOfDay? {
      LeadHeader(lead, bs);
    } else if ws != [] {
      assert bs == EncodeAll(ws);
      HeaderOfEncoded(ws[0], bs);
    }
  }

  lemma WalkEncoded(w: WireRecord, rest: seq<byte>)
    requires WellFormed(w)
    ensures var tail := WalkFrom(rest);
            WalkFrom(Encode(w) + rest) == Walk(Listed(Meaning(w)) + tail.records, tail.ok)
  {
    EncodedRecord(w, rest);
    hide TurnOn, Encode, Meaning;
    assert (Encode(w) + rest)[|Encode(w)|..] == rest;
  }

  lemma EncodeFirst(ws: seq<WireRecord>, rest: seq<byte>)
    requires ws != []
    ensures EncodeAll(ws) + rest == Encode(ws[0]) + (EncodeAll(ws[1..]) + rest)
  {
    hide Encode;
  }

  // Encoded records in front of any other bytes are read first.
  lemma {:induction false} WalkOfEncoded(ws: seq<WireRecord>, rest: seq<byte>)
    requires forall i :: 0 <= i < |ws| ==> WellFormed(ws[i])
    ensures var tail := WalkFrom(rest);
            WalkFrom(EncodeAll(ws) + rest) == Walk(Meanings(ws) + tail.records, tail.ok)
  {
    hide WellFormed, Encode, Meaning, WalkFrom;
    if ws == [] {
      assert EncodeAll(ws) + rest == rest;
    } else {
      EncodeFirst(ws, rest);
      WalkEncoded(ws[0], EncodeAll(ws[1..]) + rest);
      hide EncodeAll;
      WalkOfEncoded(ws[1..], rest);
      assert Meanings(ws) + WalkFrom(rest).records ==
             Listed(Meaning(ws[0])) + (Meanings(ws[1..]) + WalkFrom(rest).records);
    }
  }

  // Round trip: a sent body is read back as exactly its known records.
  lemma RoundTrip(lead: Lead, ws: seq<WireRecord>)
    requires WellFormedBody(lead, ws)
    ensures WalkFrom(AfterTimeOfDay(BodyBytes(lead, ws))) == Walk(Meanings(ws), true)
  {
    LeadIsSkipped(lead, ws);
    WalkOfEncoded(ws, []);
    EndOfData();
    assert EncodeAll(ws) + [] == EncodeAll(ws);
  }

  // ---- Truncation

  // The records that end within the first `k` bytes.
  function WhollyBefore(ws: seq<WireRecord>, k: int): seq<WireRecord>
  {
    if ws == [] || k < |Encode(ws[0])| then [] else [ws[0]] + WhollyBefore(ws[1..], k - |Encode(ws[0])|)
  }

  // They are the first so many, and end where the last of them does.
  lemma {:induction false} WhollyBeforeIsFront(ws: seq<WireRecord>, k: nat)
    ensures var r := WhollyBefore(ws, k); r <= ws && |EncodeAll(r)| <= k
  {
    hide Encode;
    if ws != [] && |Encode(ws[0])| <= k {
      var rest := WhollyBefore(ws[1..], k - |Encode(ws[0])|);
      WhollyBeforeIsFront(ws[1..], k - |Encode(ws[0])|);
      assert ws == [ws[0]] + ws[1..] && ([ws[0]] + rest)[1..] == rest;
    }
  }

  lemma CutRecord(w: WireRecord, k: nat)
    requires WellFormed(w) && k < |Encode(w)|
    ensures WalkFrom(Encode(w)[..k]) == Walk([], true)
  {
    Sizes();
    hide Fields, Total;
    if k >= 8 {
      assert Pack(HeaderFields(w), HEADER) <= Encode(w)[..k];
      HeaderOfEncoded(w, Encode(w)[..k]);
    }
  }

  // A cut beyond the first record leaves it whole.
  lemma CutBehindFirst(ws: seq<WireRecord>, k: nat)
    requires ws != [] && |Encode(ws[0])| <= k <= |EncodeAll(ws)|
    ensures k - |Encode(ws[0])| <= |EncodeAll(ws[1..])|
    ensures EncodeAll(ws)[..k] == Encode(ws[0]) + EncodeAll(ws[1..])[..k - |Encode(ws[0])|]
    ensures Meanings(WhollyBefore(ws, k)) ==
            Listed(Meaning(ws[0])) + Meanings(WhollyBefore(ws[1..], k - |Encode(ws[0])|))
  {
    hide Encode, Meaning;
    var rest := WhollyBefore(ws[1..], k - |Encode(ws[0])|);
    assert ([ws[0]] + rest)[1..] == rest;
  }

  lemma {:induction false} WalkOfCut(ws: seq<WireRecord>, k: nat)
    requires forall i :: 0 <= i < |ws| ==> WellFormed(ws[i])
    requires k <= |EncodeAll(ws)|
    ensures WalkFrom(EncodeAll(ws)[..k]) == Walk(Meanings(WhollyBefore(ws, k)), true)
  {
    hide WellFormed, Encode, Meaning, WalkFrom;
    if ws == [] {
      EndOfData();
    } else if k < |Encode(ws[0])| {
      assert EncodeAll(ws)[..k] == Encode(ws[0])[..k];
      CutRecord(ws[0], k);
    } else {
      CutBehindFirst(ws, k);
      hide EncodeAll, WhollyBefore, Meanings;
      WalkEncoded(ws[0], EncodeAll(ws[1..])[..k - |Encode(ws[0])|]);
      WalkOfCut(ws[1..], k - |Encode(ws[0])|);
    }
  }

  // A body cut at any byte yields exactly the records that lie wholly before
  // the cut, and no error.
  lemma Truncation(lead: Lead, ws: seq<WireRecord>, k: nat)
    requires WellFormedBody(lead, ws) && k <= |BodyBytes(lead, ws)|
    ensures WalkFrom(AfterTimeOfDay(BodyBytes(lead, ws)[..k])) ==
            Walk(Meanings(WhollyBefore(ws, k - |LeadBytes(lead)|)), true)
  {
    if k < |LeadBytes(lead)| {
      CutLead(lead, ws, k);
    } else {
      CutBody(lead, ws, k);
      hide WellFormed, EncodeAll, WhollyBefore, Meanings, WalkFrom, AfterTimeOfDay, LeadBytes;
      WalkOfCut(ws, k - |LeadBytes(lead)|);
    }
  }

  lemma CutBody(lead: Lead, ws: seq<WireRecord>, k: nat)
    requires WellFormedBody(lead, ws) && |LeadBytes(lead)| <= k <= |BodyBytes(lead, ws)|
    ensures AfterTimeOfDay(BodyBytes(lead, ws)[..k]) == EncodeAll(ws)[..k - |LeadBytes(lead)|]
  {
    var part := EncodeAll(ws)[..k - |LeadBytes(lead)|];
    assert BodyBytes(lead, ws)[..k] == LeadBytes(lead) + part;
    hide WellFormed, Encode, EncodeAll, BodyBytes;
    if lead.TimeOfDay? {
      BehindLead(lead, part);
    } else {
      assert LeadBytes(lead) + part == part;
      hide LeadBytes;
      if |part| >= 8 && ws != [] {
        FirstIsNoTime(ws, |part|);
      }
    }
  }

  lemma BehindLead(lead: Lead, part: seq<byte>)
    requires lead.TimeOfDay? && WellFormedLead(lead)
    ensures AfterTimeOfDay(LeadBytes(lead) + part) == part
  {
    Sizes();
    LeadHeader(lead, LeadBytes(lead) + part);
    hide Fields, Total, Pack;
    assert (LeadBytes(lead) + part)[8 + |lead.tail|..] == part;
  }

  lemma FirstIsNoTime(ws: seq<WireRecord>, k: nat)
    requires ws != [] && WellFormed(ws[0]) && !ws[0].WireTime? && 8 <= k <= |EncodeAll(ws)|
    ensures AfterTimeOfDay(EncodeAll(ws)[..k]) == EncodeAll(ws)[..k]
  {
    Sizes();
    var bs := EncodeAll(ws)[..k];
    assert Pack(HeaderFields(ws[0]), HEADER) <= bs;
    hide EncodeAll, Encode, Pack, Fields, Total;
    HeaderOfEncoded(ws[0], bs);
  }

  lemma CutLead(lead: Lead, ws: seq<WireRecord>, k: nat)
    requires WellFormedBody(lead, ws) && k < |LeadBytes(lead)|
    ensures WalkFrom(AfterTimeOfDay(BodyBytes(lead, ws)[..k])) == Walk([], true)
    ensures WhollyBefore(ws, k - |LeadBytes(lead)|) == []
  {
    Sizes();
    hide Fields, Total;
    if k >= 8 {
      LeadHeader(lead, BodyBytes(lead, ws)[..k]);
    }
  }

  // ---- Any bytes at all

  // Every turn takes at least 8 bytes.
  lemma {:induction false} RecordBound(bs: seq<byte>)
    ensures 8 * |WalkFrom(bs).records| <= |bs|
    decreases |bs|
  {
    var t := TurnOn(bs);
    if t.Advance? {
      RecordBound(bs[t.step..]);
    }
  }

  // A time record met inside the loop is always taken to be 28 bytes long. One
  // of any other size puts the cursor off, and one with fewer than 28 bytes
  // left ends the walk in failure.
  lemma LaterTimeOfDay(lead: Lead, rest: seq<byte>)
    requires lead.TimeOfDay? && WellFormedLead(lead)
    ensures var bs := LeadBytes(lead) + rest;
            && (TurnOn(bs).Stop? <==> 8 + |lead.tail| > 16384)
            && (TurnOn(bs).Fail? <==> 8 + |lead.tail| <= 16384 && |bs| < 28)
            && (TurnOn(bs).Advance? ==> (bs[TurnOn(bs).step..] == rest <==> |lead.tail| == 20))
  {
    Sizes();
    hide Fields, Total;
    var bs := LeadBytes(lead) + rest;
    LeadHeader(lead, bs);
    if TurnOn(bs).Advance? && |lead.tail| == 20 {
      assert bs[28..] == rest;
    }
  }

  // XRootD's own 24-byte time record at the end of a body is such a case.
  lemma TrailingTimeOfDay(lead: Lead, ws: seq<WireRecord>, last: Lead)
    requires lead.TimeOfDay? && WellFormedBody(lead, ws)
    requires last.TimeOfDay? && WellFormedLead(last) && |last.tail| == 16
    ensures !WalkFrom(AfterTimeOfDay(BodyBytes(lead, ws) + LeadBytes(last))).ok
  {
    var rest := EncodeAll(ws) + LeadBytes(last);
    assert BodyBytes(lead, ws) + LeadBytes(last) == LeadBytes(lead) + rest;
    hide WalkFrom, EncodeAll, LeadBytes, AfterTimeOfDay, WellFormed;
    FailingLead(last);
    WalkOfEncoded(ws, LeadBytes(last));
    BehindLead(lead, rest);
  }

  lemma FailingLead(lead: Lead)
    requires lead.TimeOfDay? && WellFormedLead(lead) && |lead.tail| == 16
    ensures !WalkFrom(LeadBytes(lead)).ok
  {
    assert LeadBytes(lead) + [] == LeadBytes(lead);
    Sizes();
    LaterTimeOfDay(lead, []);
    hide TurnOn;
  }

  // ---- Records that are read past their end

  // Which records, of the size their header says, are read from their own bytes
  // alone.
  predicate SelfContained(r: seq<byte>)
    requires |r| >= 8
  {
    Sizes();
    var h := Fields(r, HEADER);
    if h[0] == REC_TIME then |r| >= 28
    else if h[0] == REC_CLOSE then |r| >= 80 || (|r| >= 32 && !HasOps(h[1]))
    else if h[0] == REC_OPEN then |r| >= 20 || (|r| >= 16 && !HasUser(h[1]))
    else true
  }

  lemma {:induction false} FieldsOfFront(r: seq<byte>, rest: seq<byte>, layout: Layout)
    requires |r| >= Total(layout)
    ensures Fields(r + rest, layout) == Fields(r, layout)
  {
    if layout != [] {
      var n := layout[0];
      assert (r + rest)[..n] == r[..n] && (r + rest)[n..] == r[n..] + rest;
      FieldsOfFront(r[n..], rest, layout[1..]);
    }
  }

  ghost predicate IsWhole(r: seq<byte>)
  {
    Sizes();
    8 <= |r| <= 16384 && Fields(r, HEADER)[2] == |r|
  }

  lemma OwnBytes(r: seq<byte>, rest: seq<byte>)
    requires IsWhole(r) && SelfContained(r)
    ensures TurnOn(r + rest) == TurnOn(r)
  {
    var kind := Fields(r, HEADER)[0];
    if kind == REC_CLOSE {
      OwnClose(r, rest);
    } else if kind == REC_OPEN {
      OwnOpen(r, rest);
    } else {
      OwnOther(r, rest);
    }
    TurnOfRecord(r, []);
    TurnOfRecord(r, rest);
    assert r + [] == r;
    hide Fields, Total, CloseTurn, OpenTurn, TurnOn;
  }

  lemma OwnOther(r: seq<byte>, rest: seq<byte>)
    requires IsWhole(r) && SelfContained(r) && Fields(r, HEADER)[0] !in {REC_CLOSE, REC_OPEN}
    ensures TurnOn(r + rest) == TurnOn(r)
  {
    Sizes();
    hide Fields, Total, CloseTurn, OpenTurn, TimeOf, HasOps, HasUser;
    FieldsOfFront(r, rest, HEADER);
    if Fields(r, HEADER)[0] == REC_TIME {
      FieldsOfFront(r, rest, HEADER + TIME_BODY);
    }
  }

  lemma FlagOf(r: seq<byte>, layout: Layout)
    requires |r| >= Total(HEADER) + Total(layout)
    ensures Total(HEADER + layout) == Total(HEADER) + Total(layout)
    ensures Fields(r, HEADER + layout)[1] == Fields(r, HEADER)[1]
  {
    FieldsAppend(r, HEADER, layout);
  }

  lemma OwnClose(r: seq<byte>, rest: seq<byte>)
    requires IsWhole(r) && SelfContained(r) && Fields(r, HEADER)[0] == REC_CLOSE
    ensures CloseTurn(r + rest, |r|) == CloseTurn(r, |r|)
  {
    hide Fields, Total, HasOps, HasUser, OpsOf, XfrOf, HeaderOf, CloseTurn;
    Sizes();
    assert |r| >= 32 && (|r| >= 80 || !HasOps(Fields(r, HEADER)[1]));
    hide SelfContained, IsWhole;
    FlagOf(r, CLOSE_BODY);
    FieldsOfFront(r, rest, HEADER + CLOSE_BODY);
    if |r| >= 80 {
      assert (r + rest)[32..] == r[32..] + rest;
      FieldsOfFront(r[32..], rest, OPS);
    }
    CloseAlike(r, r + rest, |r|);
  }

  // Equal fields make equal closes.
  lemma CloseAlike(a: seq<byte>, b: seq<byte>, size: nat)
    requires 32 <= size <= |a| && size <= |b| && Total(HEADER + CLOSE_BODY) == 32 && Total(OPS) == 48
    requires Fields(a, HEADER + CLOSE_BODY) == Fields(b, HEADER + CLOSE_BODY)
    requires || !HasOps(Fields(a, HEADER + CLOSE_BODY)[1])
             || (|a| >= 80 && |b| >= 80 && Fields(a[32..], OPS) == Fields(b[32..], OPS))
    ensures CloseTurn(a, size) == CloseTurn(b, size)
  {
    hide Fields, Total, HasOps, OpsOf, XfrOf, HeaderOf;
  }

  lemma OwnOpen(r: seq<byte>, rest: seq<byte>)
    requires IsWhole(r) && SelfContained(r) && Fields(r, HEADER)[0] == REC_OPEN
    ensures OpenTurn(r + rest, |r|) == OpenTurn(r, |r|)
  {
    hide Fields, Total, Trimmed, HasOps, HasUser, HeaderOf, OpenTurn;
    Sizes();
    assert |r| >= 16 && (|r| >= 20 || !HasUser(Fields(r, HEADER)[1]));
    hide SelfContained, IsWhole;
    FlagOf(r, OPEN_BODY);
    FieldsOfFront(r, rest, HEADER + OPEN_BODY);
    if |r| >= 20 {
      assert (r + rest)[16..] == r[16..] + rest;
      FieldsOfFront(r[16..], rest, USER_ID);
      assert (r + rest)[20..|r|] == r[20..|r|];
    }
    assert (r + rest)[16..|r|] == r[16..|r|];
    OpenAlike(r, r + rest, |r|);
  }

  lemma OpenAlike(a: seq<byte>, b: seq<byte>, size: nat)
    requires 16 <= size <= |a| && size <= |b| && Total(HEADER + OPEN_BODY) == 16 && Total(USER_ID) == 4
    requires Fields(a, HEADER + OPEN_BODY) == Fields(b, HEADER + OPEN_BODY) && a[16..size] == b[16..size]
    requires || !HasUser(Fields(a, HEADER + OPEN_BODY)[1])
             || (size >= 20 && Fields(a[16..], USER_ID) == Fields(b[16..], USER_ID) && a[20..size] == b[20..size])
    ensures OpenTurn(a, size) == OpenTurn(b, size)
  {
    hide Fields, Total, HasUser, HeaderOf, Trimmed;
  }

  // Neighbours that show: enough bytes, none of them zero.
  const ONES: seq<byte> := seq(80, _ => 1)

  lemma OddNumber(bs: seq<byte>)
    requires bs != [] && bs[|bs| - 1] == 1
    ensures Number(bs) > 0
  {}

  // The last of the operation statistics.
  lemma LastOfOps(bs: seq<byte>)
    requires |bs| >= 48
    ensures Total(OPS) == 48 && Fields(bs, OPS)[11] == Number(bs[44..][..4])
  {
    var front: Layout := [4, 4, 4, 2, 2, 8, 4, 4, 4, 4, 4];
    assert front + [4] == OPS;
    Sizes();
    hide Fields, Number, Total;
    LastField(bs, front, 4);
  }

  lemma OpsFromNeighbour(r: seq<byte>)
    requires 32 <= |r| < 80
    ensures Total(OPS) == 48 && OpsOf(Fields((r + ONES)[32..], OPS)).wrMax != 0
  {
    NeighbourByte(r, 79);
    hide Fields, Number, Total, ONES;
    var bs := (r + ONES)[32..];
    assert bs[44..][..4][3] == 1;
    OddNumber(bs[44..][..4]);
    LastOfOps(bs);
  }

  lemma UserFromNeighbour(r: seq<byte>)
    requires 16 <= |r| < 20
    ensures Total(USER_ID) == 4 && Fields((r + ONES)[16..], USER_ID)[0] > 0
  {
    var bs := (r + ONES)[16..];
    NeighbourByte(r, 19);
    OneId(bs);
    hide Fields, Number, Total, ONES;
    assert bs[..4][3] == 1;
    OddNumber(bs[..4]);
  }

  lemma NeighbourByte(r: seq<byte>, k: nat)
    requires |r| <= k < |r| + 80
    ensures |r + ONES| == |r| + 80 && (r + ONES)[k] == 1
  {}

  lemma OneId(bs: seq<byte>)
    requires |bs| >= 4
    ensures Total(USER_ID) == 4 && Fields(bs, USER_ID)[0] == Number(bs[..4])
  {
    BodySizes();
    hide Number;
  }

  // A record is read from its own bytes, whatever follows it, exactly if it is
  // self-contained: close statistics and user ids are guarded by what is left of
  // the packet, not of the record.
  lemma NeighboursDoNotShow(r: seq<byte>)
    requires IsWhole(r)
    ensures (forall rest: seq<byte> :: TurnOn(r + rest) == TurnOn(r)) <==> SelfContained(r)
  {
    if SelfContained(r) {
      forall rest: seq<byte>
        ensures TurnOn(r + rest) == TurnOn(r)
      {
        OwnBytes(r, rest);
      }
    } else {
      NeighbourShows(r);
    }
  }

  lemma NeighbourShows(r: seq<byte>)
    requires IsWhole(r) && !SelfContained(r)
    ensures TurnOn(r + ONES) != TurnOn(r)
  {
    var kind := Fields(r, HEADER)[0];
    if kind == REC_CLOSE {
      NeighbourShowsInClose(r);
    } else if kind == REC_OPEN {
      NeighbourShowsInOpen(r);
    }
    TurnOfRecord(r, []);
    TurnOfRecord(r, ONES);
    assert r + [] == r;
    hide Fields, Total, ONES, HasOps, HasUser, CloseTurn, OpenTurn, TimeOf, TurnOn;
  }

  // What the loop does with a record and what follows it.
  lemma TurnOfRecord(r: seq<byte>, rest: seq<byte>)
    requires IsWhole(r)
    ensures var kind, bs := Fields(r, HEADER)[0], r + rest;
            && (kind == REC_CLOSE ==> TurnOn(bs) == CloseTurn(bs, |r|))
            && (kind == REC_OPEN ==> TurnOn(bs) == OpenTurn(bs, |r|))
            && (kind == REC_TIME ==> (TurnOn(bs).Fail? <==> |bs| < 28))
  {
    Sizes();
    FieldsOfFront(r, rest, HEADER);
    hide Fields, Total, CloseTurn, OpenTurn, TimeOf;
  }

  lemma NeighbourShowsInClose(r: seq<byte>)
    requires IsWhole(r) && !SelfContained(r) && Fields(r, HEADER)[0] == REC_CLOSE
    ensures CloseTurn(r + ONES, |r|) != CloseTurn(r, |r|)
  {
    Sizes();
    hide Fields, Total, HasOps, HasUser, OpsOf, XfrOf, HeaderOf;
    if |r| >= 32 {
      FlagOf(r, CLOSE_BODY);
      FieldsOfFront(r, ONES, HEADER + CLOSE_BODY);
      OpsFromNeighbour(r);
    }
  }

  lemma NeighbourShowsInOpen(r: seq<byte>)
    requires IsWhole(r) && !SelfContained(r) && Fields(r, HEADER)[0] == REC_OPEN
    ensures OpenTurn(r + ONES, |r|) != OpenTurn(r, |r|)
  {
    Sizes();
    hide Fields, Total, HasOps, HasUser, HeaderOf, Trimmed;
    if |r| >= 16 {
      FlagOf(r, OPEN_BODY);
      FieldsOfFront(r, ONES, HEADER + OPEN_BODY);
      UserFromNeighbour(r);
    }
  }
}
