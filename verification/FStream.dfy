// The f-stream record walker: a cursor over untrusted bytes.
module FStream {
  import opened BigEndian
  import opened Records

  const REC_CLOSE := 0
  const REC_OPEN := 1
  const REC_TIME := 2
  const REC_DISC := 4

  const HEADER: Layout := [1, 1, 2, 4]
  const TIME_BODY: Layout := [2, 2, 4, 4, 8]
  const CLOSE_BODY: Layout := [8, 8, 8]
  const OPS: Layout := [4, 4, 4, 2, 2, 8, 4, 4, 4, 4, 4, 4]
  const OPEN_BODY: Layout := [8]
  const USER_ID: Layout := [4]

  lemma OpsSize()
    ensures Total(OPS) == 48
  {}

  lemma BodySizes()
    ensures Total(HEADER) == 8 && Total(TIME_BODY) == 20 && Total(CLOSE_BODY) == 24
    ensures Total(OPEN_BODY) == 8 && Total(USER_ID) == 4
  {}

  lemma Sizes()
    ensures Total(HEADER) == 8 && Total(TIME_BODY) == 20 && Total(CLOSE_BODY) == 24
    ensures Total(OPEN_BODY) == 8 && Total(USER_ID) == 4 && Total(OPS) == 48
    ensures Total(HEADER + TIME_BODY) == 28 && Total(HEADER + CLOSE_BODY) == 32
    ensures Total(HEADER + OPEN_BODY) == 16
  {
    OpsSize();
    BodySizes();
    TotalAppend(HEADER, TIME_BODY);
    TotalAppend(HEADER, CLOSE_BODY);
    TotalAppend(HEADER, OPEN_BODY);
  }

  lemma CloseSizes()
    ensures Total(HEADER + CLOSE_BODY) == 32 && |HEADER + CLOSE_BODY| == 7 && Total(OPS) == 48 && |OPS| == 12
  {
    Sizes();
    hide Total;
  }

  // ---- The specification: one record at a time, on the bytes still unread

  function HeaderOf(h: seq<nat>): FileHeader
    requires |h| >= 4
  {
    FileHeader(h[0], h[1], h[2], h[3], 0, 0, 0)
  }

  function TimeOf(f: seq<nat>): FileRecord
    requires |f| == 9
  {
    TimeRecord(HeaderOf(f).(nRecs0 := Signed(f[4], 2), nRecs1 := Signed(f[5], 2)),
               Signed(f[6], 4), Signed(f[7], 4), Signed(f[8], 8))
  }

  function XfrOf(f: seq<nat>): StatXFR
    requires |f| == 3
  {
    StatXFR(Signed(f[0], 8), Signed(f[1], 8), Signed(f[2], 8))
  }

  function OpsOf(f: seq<nat>): StatOPS
    requires |f| == 12
  {
    StatOPS(Signed(f[0], 4), Signed(f[1], 4), Signed(f[2], 4), Signed(f[3], 2), Signed(f[4], 2), Signed(f[5], 8),
            Signed(f[6], 4), Signed(f[7], 4), Signed(f[8], 4), Signed(f[9], 4), Signed(f[10], 4), Signed(f[11], 4))
  }

  predicate HasUser(flag: nat) { flag % 2 == 1 }
  predicate HasOps(flag: nat) { flag / 2 % 2 == 1 }

  // A file name without its trailing NUL bytes.
  function Trimmed(name: seq<byte>): (r: seq<byte>)
    ensures r <= name
    ensures forall i :: |r| <= i < |name| ==> name[i] == 0
    ensures r == [] || r[|r| - 1] != 0
  {
    if name != [] && name[|name| - 1] == 0 then Trimmed(name[..|name| - 1]) else name
  }

  // What one turn of the loop does with the unread bytes: stop, give up on the
  // whole packet, or move on with or without a record.
  datatype Turn = Stop | Fail | Advance(rec: Option<FileRecord>, step: nat)

  function CloseTurn(bs: seq<byte>, size: nat): (t: Turn)
    requires 8 <= size <= |bs|
    ensures t.Advance? ==> t.step == size && t.rec.Some?
    ensures !t.Stop?
  {
    CloseSizes();
    if |bs| < 32 then Fail
    else
      var f := Fields(bs, HEADER + CLOSE_BODY);
      var ops := if HasOps(f[1]) && |bs| - 32 >= 48 then OpsOf(Fields(bs[32..], OPS)) else NO_OPS;
      Advance(Some(CloseRecord(HeaderOf(f), XfrOf(f[4..]), ops)), size)
  }

  function OpenTurn(bs: seq<byte>, size: nat): (t: Turn)
    requires 8 <= size <= |bs|
    ensures t.Advance? ==> t.step == size && t.rec.Some?
    ensures !t.Stop?
  {
    Sizes();
    if |bs| < 16 then Fail
    else
      var f := Fields(bs, HEADER + OPEN_BODY);
      var withUser := HasUser(f[1]) && |bs| - 16 >= 4;
      var user := if withUser then Fields(bs[16..], USER_ID)[0] else 0;
      // A user id cut short by the end of the packet uses up what was left.
      var at := if withUser then 20 else if HasUser(f[1]) then |bs| else 16;
      var lfn := if size > at then Trimmed(bs[at..size]) else [];
      Advance(Some(OpenRecord(HeaderOf(f).(userId := user), Signed(f[4], 8), user, lfn)), size)
  }

  function TurnOn(bs: seq<byte>): (t: Turn)
    ensures t.Advance? ==> 8 <= t.step <= |bs|
  {
    Sizes();
    if |bs| < 8 then Stop
    else
      var h := Fields(bs, HEADER);
      var size := h[2];
      if size < 8 || size > 16384 || |bs| < size then Stop
      else if h[0] == REC_TIME then
        if |bs| < 28 then Fail else Advance(Some(TimeOf(Fields(bs, HEADER + TIME_BODY))), 28)
      else if h[0] == REC_CLOSE then CloseTurn(bs, size)
      else if h[0] == REC_OPEN then OpenTurn(bs, size)
      else if h[0] == REC_DISC then Advance(Some(DisconnectRecord(HeaderOf(h), h[3])), size)
      else Advance(None, size)
  }

  datatype Walk = Walk(records: seq<FileRecord>, ok: bool)

  function Listed(rec: Option<FileRecord>): seq<FileRecord>
  {
    if rec.Some? then [rec.value] else []
  }

  function WalkFrom(bs: seq<byte>): Walk
    decreases |bs|
  {
    match TurnOn(bs)
    case Stop => Walk([], true)
    case Fail => Walk([], false)
    case Advance(rec, n) =>
      var rest := WalkFrom(bs[n..]);
      Walk(Listed(rec) + rest.records, rest.ok)
  }

  lemma OneTurn(bs: seq<byte>)
    ensures var t := TurnOn(bs);
            WalkFrom(bs) ==
            if t.Advance? then Walk(Listed(t.rec) + WalkFrom(bs[t.step..]).records, WalkFrom(bs[t.step..]).ok)
            else Walk([], t.Stop?)
  {
    hide TurnOn;
  }

  lemma EndOfData()
    ensures WalkFrom([]) == Walk([], true)
  {}

  // A leading time-of-day record is skipped by its own size.
  function AfterTimeOfDay(bs: seq<byte>): seq<byte>
  {
    Sizes();
    if |bs| < 8 then bs
    else
      var h := Fields(bs, HEADER);
      if h[0] != REC_TIME then bs else if h[2] <= |bs| then bs[h[2]..] else []
  }

  // ---- The walker itself

  // bytes.Reader: a position that may also lie past the end.
  class Reader {
    const data: seq<byte>
    var pos: nat

    constructor (data: seq<byte>)
      ensures this.data == data && pos == 0
    {
      this.data := data;
      pos := 0;
    }

    function Unread(): seq<byte>
      reads this
    {
      if pos <= |data| then data[pos..] else []
    }

    function Len(): nat
      reads this
    {
      |Unread()|
    }

    method Seek(to: nat)
      modifies this
      ensures pos == to
    {
      pos := to;
    }

    // binary.Read of a struct: a short read uses up what is left.
    method Read(layout: Layout) returns (ok: bool, fields: seq<nat>)
      modifies this
      ensures ok == (old(Len()) >= Total(layout))
      ensures ok ==> fields == Fields(old(Unread()), layout) && Unread() == old(Unread())[Total(layout)..]
      ensures ok && old(pos) <= |data| ==> pos == old(pos) + Total(layout)
      ensures !ok ==> pos == (if old(pos) < |data| then |data| else old(pos)) && Unread() == []
    {
      ok := Len() >= Total(layout);
      if ok {
        fields := Fields(Unread(), layout);
        pos := pos + Total(layout);
      } else {
        fields := [];
        if pos < |data| {
          pos := |data|;
        }
      }
    }

    // io.ReadFull into a fresh buffer.
    method ReadFull(n: nat) returns (ok: bool, bytes: seq<byte>)
      modifies this
      ensures ok == (old(Len()) >= n)
      ensures ok ==> bytes == old(Unread())[..n]
    {
      ok := Len() >= n;
      if ok {
        bytes := Unread()[..n];
        pos := pos + n;
      } else {
        bytes := [];
        if pos < |data| {
          pos := |data|;
        }
      }
    }
  }

  method TrimNuls(name: seq<byte>) returns (r: seq<byte>)
    ensures r == Trimmed(name)
  {
    r := name;
    while |r| > 0 && r[|r| - 1] == 0
      invariant Trimmed(r) == Trimmed(name)
    {
      r := r[..|r| - 1];
    }
  }

  // The loop's close case; the cursor stands at the record.
  method ReadClose(reader: Reader, size: nat) returns (t: Turn)
    requires reader.pos <= |reader.data|
    requires 8 <= size <= reader.Len()
    modifies reader
    ensures t == CloseTurn(old(reader.Unread()), size)
    ensures t.Advance? ==> reader.pos == old(reader.pos) + size
  {
    Sizes();
    hide Fields, Total;
    var pos := reader.pos;
    var ok, f := reader.Read(HEADER + CLOSE_BODY);
    if !ok {
      return Fail;
    }
    var rec := CloseRecord(HeaderOf(f), XfrOf(f[4..]), NO_OPS);
    if HasOps(f[1]) && reader.Len() >= 48 {
      var got, ops := reader.Read(OPS);
      rec := rec.(ops := OpsOf(ops));
    }
    reader.Seek(pos + size);
    t := Advance(Some(rec), size);
  }

  // The loop's open case.
  method ReadOpen(reader: Reader, size: nat) returns (t: Turn)
    requires reader.pos <= |reader.data|
    requires 8 <= size <= reader.Len()
    modifies reader
    ensures t == OpenTurn(old(reader.Unread()), size)
    ensures t.Advance? ==> reader.pos == old(reader.pos) + size
  {
    Sizes();
    hide Fields, Total, Trimmed;
    var pos := reader.pos;
    ghost var bs := reader.Unread();
    var ok, f := reader.Read(HEADER + OPEN_BODY);
    if !ok {
      return Fail;
    }
    var rec := OpenRecord(HeaderOf(f), Signed(f[4], 8), 0, []);
    if HasUser(f[1]) {
      var got, user := reader.Read(USER_ID);
      if got {
        rec := rec.(user := user[0], header := rec.header.(userId := user[0]));
      }
    }
    var recordEnd := pos + size;
    if recordEnd > reader.pos {
      ghost var at := reader.pos - pos;
      assert reader.Unread() == bs[at..];
      var got, name := reader.ReadFull(recordEnd - reader.pos);
      assert name == bs[at..size];
      name := TrimNuls(name);
      rec := rec.(lfn := name);
    }
    reader.Seek(recordEnd);
    t := Advance(Some(rec), size);
  }

  // One turn of the loop.
  method ReadRecord(reader: Reader) returns (t: Turn)
    requires reader.pos <= |reader.data|
    modifies reader
    ensures t == TurnOn(old(reader.Unread()))
    ensures t.Advance? ==> reader.pos == old(reader.pos) + t.step
  {
    Sizes();
    hide Fields, Total;
    var pos := reader.pos;
    var got, h := reader.Read(HEADER);
    if !got || h[2] < 8 || h[2] > 16384 || reader.Len() + 8 < h[2] {
      return Stop;
    }
    reader.Seek(pos);
    if h[0] == REC_TIME {
      var read, f := reader.Read(HEADER + TIME_BODY);
      t := if read then Advance(Some(TimeOf(f)), 28) else Fail;
    } else if h[0] == REC_CLOSE {
      t := ReadClose(reader, h[2]);
    } else if h[0] == REC_OPEN {
      t := ReadOpen(reader, h[2]);
    } else {
      reader.Seek(pos + h[2]);
      t := Advance(if h[0] == REC_DISC then Some(DisconnectRecord(HeaderOf(h), h[3])) else None, h[2]);
    }
  }

  // Peeks at the first record and seeks past it if it is a time record.
  method SkipTimeOfDay(reader: Reader)
    requires reader.pos == 0
    modifies reader
    ensures reader.Unread() == AfterTimeOfDay(reader.data)
  {
    Sizes();
    hide Fields, Total;
    assert reader.data[0..] == reader.data;
    if reader.Len() >= 8 {
      var got, first := reader.Read(HEADER);
      reader.Seek(if first[0] == REC_TIME then first[2] else 0);
    }
  }

  // parseFileRecords, after the 8-byte packet header. On an error the source
  // also hands back the records read so far.
  method ParseFileRecords(body: seq<byte>) returns (records: seq<FileRecord>, ok: bool)
    ensures Walk(records, ok) == WalkFrom(AfterTimeOfDay(body))
  {
    hide TurnOn, AfterTimeOfDay, WalkFrom, Behind;
    var reader := new Reader(body);
    SkipTimeOfDay(reader);
    records, ok := [], true;
    ghost var whole := WalkFrom(reader.Unread());
    NothingAhead(whole);
    while ok && reader.Len() > 0
      invariant reader.data == body
      invariant whole == Behind(records, if ok then WalkFrom(reader.Unread()) else Walk([], false))
      decreases ok, reader.Len()
    {
      OneTurn(reader.Unread());
      ghost var bs := reader.Unread();
      var t := ReadRecord(reader);
      match t
      case Stop =>
        NothingBehind(records, true);
        return;
      case Fail =>
        ok := false;
      case Advance(rec, n) =>
        assert reader.Unread() == bs[n..];
        OneMoreAhead(records, rec, WalkFrom(bs[n..]));
        records := records + Listed(rec);
    }
    if ok {
      EndOfData();
    }
    NothingBehind(records, ok);
  }

  // What a walk comes to with some records in front of it.
  function Behind(records: seq<FileRecord>, w: Walk): Walk
  {
    Walk(records + w.records, w.ok)
  }

  lemma NothingAhead(w: Walk)
    ensures Behind([], w) == w
  {}

  lemma NothingBehind(records: seq<FileRecord>, ok: bool)
    ensures Behind(records, Walk([], ok)) == Walk(records, ok)
  {}

  lemma OneMoreAhead(records: seq<FileRecord>, rec: Option<FileRecord>, w: Walk)
    ensures Behind(records, Walk(Listed(rec) + w.records, w.ok)) == Behind(records + Listed(rec), w)
  {
    assert records + (Listed(rec) + w.records) == records + Listed(rec) + w.records;
  }
}
