// The f-stream records byte by byte: every type code, flag bit and field
// position as a number.
module FStreamOffsets {
  import opened BigEndian
  import opened Records
  import opened FStream

  // The unsigned and the signed number in the bytes from `at` on.
  function U(bs: seq<byte>, at: nat, width: nat): nat
    requires at + width <= |bs|
  {
    Number(bs[at..at + width])
  }

  function S(bs: seq<byte>, at: nat, width: nat): int
    requires at + width <= |bs|
  {
    Signed(U(bs, at, width), width)
  }

  // The fields of a layout, from position `at` on.
  function FieldsFrom(bs: seq<byte>, at: nat, layout: Layout): (vs: seq<nat>)
    requires at + Total(layout) <= |bs|
    ensures |vs| == |layout|
    decreases |layout|
  {
    if layout == [] then [] else [U(bs, at, layout[0])] + FieldsFrom(bs, at + layout[0], layout[1..])
  }

  lemma {:induction false} FieldsFromFront(bs: seq<byte>, at: nat, layout: Layout)
    requires at + Total(layout) <= |bs|
    ensures Fields(bs[at..], layout) == FieldsFrom(bs, at, layout)
    decreases |layout|
  {
    hide Number;
    if layout != [] {
      var n := layout[0];
      assert bs[at..][..n] == bs[at..at + n] && bs[at..][n..] == bs[at + n..];
      FieldsFromFront(bs, at + n, layout[1..]);
    }
  }

  lemma Next(bs: seq<byte>, at: nat, n: nat, rest: Layout)
    ensures Total([n] + rest) == n + Total(rest)
    ensures at + n + Total(rest) <= |bs| ==>
              FieldsFrom(bs, at, [n] + rest) == [U(bs, at, n)] + FieldsFrom(bs, at + n, rest)
  {
    assert ([n] + rest)[1..] == rest;
    hide U;
  }

  lemma NoMore(bs: seq<byte>, at: nat)
    ensures Total([]) == 0
    ensures at <= |bs| ==> FieldsFrom(bs, at, []) == []
  {}

  lemma HeaderAt(bs: seq<byte>)
    requires |bs| >= 8
    ensures Total(HEADER) == 8 && Fields(bs, HEADER) == [U(bs, 0, 1), U(bs, 1, 1), U(bs, 2, 2), U(bs, 4, 4)]
  {
    hide Fields, FieldsFrom, Total, U;
    assert bs[0..] == bs && HEADER == [1] + ([1] + ([2] + ([4] + [])));
    NoMore(bs, 8);
    Next(bs, 4, 4, []);
    Next(bs, 2, 2, [4] + []);
    Next(bs, 1, 1, [2] + ([4] + []));
    Next(bs, 0, 1, [1] + ([2] + ([4] + [])));
    FieldsFromFront(bs, 0, HEADER);
  }

  lemma TimeBodyAt(bs: seq<byte>)
    requires |bs| >= 28
    ensures Total(TIME_BODY) == 20
    ensures Fields(bs[8..], TIME_BODY) == [U(bs, 8, 2), U(bs, 10, 2), U(bs, 12, 4), U(bs, 16, 4), U(bs, 20, 8)]
  {
    hide Fields, FieldsFrom, Total, U;
    assert TIME_BODY == [2] + ([2] + ([4] + ([4] + ([8] + []))));
    NoMore(bs, 28);
    Next(bs, 20, 8, []);
    Next(bs, 16, 4, [8] + []);
    Next(bs, 12, 4, [4] + ([8] + []));
    Next(bs, 10, 2, [4] + ([4] + ([8] + [])));
    Next(bs, 8, 2, [2] + ([4] + ([4] + ([8] + []))));
    FieldsFromFront(bs, 8, TIME_BODY);
  }

  lemma CloseBodyAt(bs: seq<byte>)
    requires |bs| >= 32
    ensures Total(CLOSE_BODY) == 24
    ensures Fields(bs[8..], CLOSE_BODY) == [U(bs, 8, 8), U(bs, 16, 8), U(bs, 24, 8)]
  {
    hide Fields, FieldsFrom, Total, U;
    assert CLOSE_BODY == [8] + ([8] + ([8] + []));
    NoMore(bs, 32);
    Next(bs, 24, 8, []);
    Next(bs, 16, 8, [8] + []);
    Next(bs, 8, 8, [8] + ([8] + []));
    FieldsFromFront(bs, 8, CLOSE_BODY);
  }

  lemma OpsAt(bs: seq<byte>)
    requires |bs| >= 80
    ensures Total(OPS) == 48
    ensures Fields(bs[32..], OPS) ==
            [U(bs, 32, 4), U(bs, 36, 4), U(bs, 40, 4), U(bs, 44, 2), U(bs, 46, 2), U(bs, 48, 8)] +
            [U(bs, 56, 4), U(bs, 60, 4), U(bs, 64, 4), U(bs, 68, 4), U(bs, 72, 4), U(bs, 76, 4)]
  {
    hide Fields, FieldsFrom, Total, U;
    LastOpsAt(bs);
    var tail := [4] + ([4] + ([4] + ([4] + ([4] + ([4] + [])))));
    assert OPS == [4] + ([4] + ([4] + ([2] + ([2] + ([8] + tail)))));
    Next(bs, 48, 8, tail);
    Next(bs, 46, 2, [8] + tail);
    Next(bs, 44, 2, [2] + ([8] + tail));
    Next(bs, 40, 4, [2] + ([2] + ([8] + tail)));
    Next(bs, 36, 4, [4] + ([2] + ([2] + ([8] + tail))));
    Next(bs, 32, 4, [4] + ([4] + ([2] + ([2] + ([8] + tail)))));
    FieldsFromFront(bs, 32, OPS);
  }

  lemma LastOpsAt(bs: seq<byte>)
    requires |bs| >= 80
    ensures var tail := [4] + ([4] + ([4] + ([4] + ([4] + ([4] + [])))));
            && Total(tail) == 24
            && FieldsFrom(bs, 56, tail) ==
               [U(bs, 56, 4), U(bs, 60, 4), U(bs, 64, 4), U(bs, 68, 4), U(bs, 72, 4), U(bs, 76, 4)]
  {
    hide FieldsFrom, Total, U;
    NoMore(bs, 80);
    Next(bs, 76, 4, []);
    Next(bs, 72, 4, [4] + []);
    Next(bs, 68, 4, [4] + ([4] + []));
    Next(bs, 64, 4, [4] + ([4] + ([4] + [])));
    Next(bs, 60, 4, [4] + ([4] + ([4] + ([4] + []))));
    Next(bs, 56, 4, [4] + ([4] + ([4] + ([4] + ([4] + [])))));
  }

  // A whole record at the front of the unread bytes.
  ghost predicate AtFront(bs: seq<byte>)
  {
    |bs| >= 8 && 8 <= U(bs, 2, 2) <= 16384 && U(bs, 2, 2) <= |bs|
  }

  function HeaderBytes(bs: seq<byte>): FileHeader
    requires |bs| >= 8
  {
    FileHeader(U(bs, 0, 1), U(bs, 1, 1), U(bs, 2, 2), U(bs, 4, 4), 0, 0, 0)
  }

  lemma Behind(bs: seq<byte>, layout: Layout)
    requires |bs| >= 8 + Total(layout)
    ensures Total(HEADER + layout) == 8 + Total(layout)
    ensures Fields(bs, HEADER + layout) ==
            [U(bs, 0, 1), U(bs, 1, 1), U(bs, 2, 2), U(bs, 4, 4)] + Fields(bs[8..], layout)
  {
    HeaderAt(bs);
    hide Fields, Total, U;
    FieldsAppend(bs, HEADER, layout);
  }

  // Type 2 is a time record of 28 bytes.
  lemma TimeAt(bs: seq<byte>)
    requires AtFront(bs) && bs[0] == 2
    ensures TurnOn(bs) ==
            if |bs| < 28 then Fail
            else Advance(Some(TimeRecord(HeaderBytes(bs).(nRecs0 := S(bs, 8, 2), nRecs1 := S(bs, 10, 2)),
                                         S(bs, 12, 4), S(bs, 16, 4), S(bs, 20, 8))), 28)
  {
    HeaderAt(bs);
    OneByte(bs, 0);
    if |bs| >= 28 {
      TimeBodyAt(bs);
      Behind(bs, TIME_BODY);
    }
    hide Fields, Total, U, Signed;
  }

  lemma OneByte(bs: seq<byte>, at: nat)
    requires at < |bs|
    ensures U(bs, at, 1) == bs[at]
  {
    assert bs[at..at + 1][..0] == [] && Number([]) == 0;
  }

  lemma CloseTurnAt(bs: seq<byte>)
    requires AtFront(bs) && bs[0] == 0
    ensures TurnOn(bs) == CloseTurn(bs, U(bs, 2, 2))
  {
    HeaderAt(bs);
    OneByte(bs, 0);
    hide Fields, Total, U, CloseTurn, OpenTurn;
  }

  // Type 0 is a close: three counters of 8 bytes and, with bit 1 of the flags
  // and 80 bytes left, the statistics behind them.
  lemma CloseAt(bs: seq<byte>)
    requires AtFront(bs) && bs[0] == 0
    ensures TurnOn(bs) ==
            if |bs| < 32 then Fail
            else
              var ops := if bs[1] / 2 % 2 == 1 && |bs| >= 80 then OpsBytes(bs) else NO_OPS;
              Advance(Some(CloseRecord(HeaderBytes(bs), StatXFR(S(bs, 8, 8), S(bs, 16, 8), S(bs, 24, 8)), ops)),
                      U(bs, 2, 2))
  {
    hide Fields, Total, U, Signed, OpsOf, OpsBytes, TurnOn, AtFront;
    CloseTurnAt(bs);
    if |bs| >= 32 {
      OneByte(bs, 0);
      OneByte(bs, 1);
      CloseBodyAt(bs);
      Behind(bs, CLOSE_BODY);
      CloseOpsAt(bs);
    } else {
      NoCloseBody(bs);
    }
  }

  lemma NoCloseBody(bs: seq<byte>)
    requires AtFront(bs) && |bs| < 32
    ensures CloseTurn(bs, U(bs, 2, 2)) == Fail
  {
    hide Fields, Total, U;
  }

  lemma CloseOpsAt(bs: seq<byte>)
    requires |bs| >= 32
    ensures HasOps(bs[1]) <==> bs[1] / 2 % 2 == 1
    ensures |bs| >= 80 ==> Total(OPS) == 48 && OpsOf(Fields(bs[32..], OPS)) == OpsBytes(bs)
  {
    hide Fields, Total, U, OpsOf, OpsBytes;
    if |bs| >= 80 {
      OpsAreBytes(bs);
    }
  }

  function OpsBytes(bs: seq<byte>): StatOPS
    requires |bs| >= 80
  {
    StatOPS(S(bs, 32, 4), S(bs, 36, 4), S(bs, 40, 4), S(bs, 44, 2), S(bs, 46, 2), S(bs, 48, 8),
            S(bs, 56, 4), S(bs, 60, 4), S(bs, 64, 4), S(bs, 68, 4), S(bs, 72, 4), S(bs, 76, 4))
  }

  lemma OpsAreBytes(bs: seq<byte>)
    requires |bs| >= 80
    ensures Total(OPS) == 48 && OpsOf(Fields(bs[32..], OPS)) == OpsBytes(bs)
  {
    OpsAt(bs);
    hide Fields, Total, U, Signed;
  }

  // Type 1 is an open: the size in 8 bytes, with bit 0 of the flags a user id in
  // 4 more if there are any, and the rest of the record as name.
  lemma OpenAt(bs: seq<byte>)
    requires AtFront(bs) && bs[0] == 1
    ensures TurnOn(bs) ==
            if |bs| < 16 then Fail
            else
              var size, flagged := U(bs, 2, 2), bs[1] % 2 == 1;
              var user := if flagged && |bs| >= 20 then U(bs, 16, 4) else 0;
              var at := if !flagged then 16 else if |bs| >= 20 then 20 else |bs|;
              var name := if size > at then Trimmed(bs[at..size]) else [];
              Advance(Some(OpenRecord(HeaderBytes(bs).(userId := user), S(bs, 8, 8), user, name)), size)
  {
    HeaderAt(bs);
    OneByte(bs, 0);
    OneByte(bs, 1);
    if |bs| >= 16 {
      OpenBodyAt(bs);
      Behind(bs, OPEN_BODY);
    }
    if |bs| >= 20 {
      UserIdAt(bs);
    }
    hide Fields, Total, U, Signed, Trimmed;
  }

  lemma OpenBodyAt(bs: seq<byte>)
    requires |bs| >= 16
    ensures Total(OPEN_BODY) == 8 && Fields(bs[8..], OPEN_BODY) == [U(bs, 8, 8)]
  {
    hide Fields, FieldsFrom, Total, U;
    assert OPEN_BODY == [8] + [];
    NoMore(bs, 16);
    Next(bs, 8, 8, []);
    FieldsFromFront(bs, 8, OPEN_BODY);
  }

  lemma UserIdAt(bs: seq<byte>)
    requires |bs| >= 20
    ensures Total(USER_ID) == 4 && Fields(bs[16..], USER_ID) == [U(bs, 16, 4)]
  {
    hide Fields, FieldsFrom, Total, U;
    assert USER_ID == [4] + [];
    NoMore(bs, 20);
    Next(bs, 16, 4, []);
    FieldsFromFront(bs, 16, USER_ID);
  }

  // Type 4 is a disconnect, whose id is the user's; any other type is stepped
  // over, and without a whole record the walk stops.
  lemma OthersAt(bs: seq<byte>)
    ensures !AtFront(bs) ==> TurnOn(bs) == Stop
    ensures AtFront(bs) && bs[0] == 4 ==>
              TurnOn(bs) == Advance(Some(DisconnectRecord(HeaderBytes(bs), U(bs, 4, 4))), U(bs, 2, 2))
    ensures AtFront(bs) && bs[0] !in {0, 1, 2, 4} ==> TurnOn(bs) == Advance(None, U(bs, 2, 2))
  {
    if |bs| >= 8 {
      HeaderAt(bs);
      OneByte(bs, 0);
    }
    hide Fields, Total, U, CloseTurn, OpenTurn, TimeOf;
  }

  // The leading record is skipped if it is of type 2, by the size it claims.
  lemma LeadAt(bs: seq<byte>)
    ensures AfterTimeOfDay(bs) ==
            if |bs| < 8 || bs[0] != 2 then bs
            else if U(bs, 2, 2) <= |bs| then bs[U(bs, 2, 2)..] else []
  {
    if |bs| >= 8 {
      HeaderAt(bs);
      OneByte(bs, 0);
    }
    hide Fields, Total, U;
  }
}
