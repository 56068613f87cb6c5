// Big-endian numbers and fixed struct layouts, as encoding/binary reads and
// writes them.
module BigEndian {
  type byte = x: int | 0 <= x < 256

  function Pow256(n: nat): (p: nat)
    ensures p > 0
  {
    if n == 0 then 1 else 256 * Pow256(n - 1)
  }

  lemma Powers()
    ensures Pow256(1) == 0x100 && Pow256(2) == 0x1_0000
    ensures Pow256(4) == 0x1_0000_0000 && Pow256(8) == 0x1_0000_0000_0000_0000
  {
    assert Pow256(3) == 256 * Pow256(2);
    assert Pow256(5) == 256 * Pow256(4);
    assert Pow256(7) == 256 * Pow256(6);
  }

  // The unsigned number a byte string spells.
  function Number(bs: seq<byte>): (v: nat)
    ensures v < Pow256(|bs|)
  {
    if bs == [] then 0 else Number(bs[..|bs| - 1]) * 256 + bs[|bs| - 1]
  }

  // The `width` low-order bytes of `v`, most significant first.
  function Bytes(v: nat, width: nat): (bs: seq<byte>)
    ensures |bs| == width
  {
    if width == 0 then [] else Bytes(v / 256, width - 1) + [v % 256]
  }

  lemma {:induction false} NumberOfBytes(v: nat, width: nat)
    requires v < Pow256(width)
    ensures Number(Bytes(v, width)) == v
  {
    if width > 0 {
      NumberOfBytes(v / 256, width - 1);
      assert Bytes(v, width)[..width - 1] == Bytes(v / 256, width - 1);
    }
  }

  // Two's complement: int16(x), int32(x), int64(x) of an unsigned field.
  function Signed(v: nat, width: nat): int
  {
    if 2 * v < Pow256(width) then v else v - Pow256(width)
  }

  function Unsigned(x: int, width: nat): (v: nat)
    ensures v < Pow256(width)
  {
    x % Pow256(width)
  }

  predicate FitsSigned(x: int, width: nat)
  {
    2 * x < Pow256(width) && -2 * x <= Pow256(width)
  }

  // Exactly the numbers that fit survive the way there and back.
  lemma SignedOfUnsigned(x: int, width: nat)
    ensures Signed(Unsigned(x, width), width) == x <==> FitsSigned(x, width)
  {
    var p := Pow256(width);
    hide Pow256;
    if FitsSigned(x, width) {
      Remainder(x, p);
    }
  }

  lemma Remainder(x: int, p: int)
    requires p > 0 && -p <= x < p
    ensures x % p == if x < 0 then x + p else x
  {
    var q, r := x / p, x % p;
    assert x == q * p + r;
    if q >= 1 {
      Stretch(q, p);
    } else if q <= -2 {
      Stretch(-q - 1, p);
    }
  }

  lemma Stretch(k: int, p: int)
    requires k >= 1 && p > 0
    ensures k * p >= p
  {
    assert (k - 1) * p >= 0;
  }

  // A struct layout is the list of its field widths in bytes.
  type Layout = seq<nat>

  function Total(layout: Layout): nat
  {
    if layout == [] then 0 else layout[0] + Total(layout[1..])
  }

  // The fields binary.Read fills from the front of `bs`.
  function Fields(bs: seq<byte>, layout: Layout): (vs: seq<nat>)
    requires |bs| >= Total(layout)
    ensures |vs| == |layout|
  {
    if layout == [] then []
    else [Number(bs[..layout[0]])] + Fields(bs[layout[0]..], layout[1..])
  }

  ghost predicate Fits(vs: seq<nat>, layout: Layout)
  {
    |vs| == |layout| && forall i :: 0 <= i < |vs| ==> vs[i] < Pow256(layout[i])
  }

  function Pack(vs: seq<nat>, layout: Layout): (bs: seq<byte>)
    requires |vs| == |layout|
    ensures |bs| == Total(layout)
  {
    if vs == [] then [] else Bytes(vs[0], layout[0]) + Pack(vs[1..], layout[1..])
  }

  // Reading back a packed struct returns its fields, whatever follows it.
  lemma {:induction false} FieldsOfPack(vs: seq<nat>, layout: Layout, rest: seq<byte>)
    requires Fits(vs, layout)
    ensures Fields(Pack(vs, layout) + rest, layout) == vs
  {
    hide Number, Bytes;
    if vs != [] {
      var head, tail, n := Bytes(vs[0], layout[0]), Pack(vs[1..], layout[1..]), layout[0];
      var all := Pack(vs, layout) + rest;
      assert all == head + (tail + rest);
      assert all[..n] == head && all[n..] == tail + rest;
      NumberOfBytes(vs[0], n);
      FieldsOfPack(vs[1..], layout[1..], rest);
      assert Fields(all, layout) == [Number(all[..n])] + Fields(all[n..], layout[1..]);
      hide Fields, Pack;
      assert [vs[0]] + vs[1..] == vs;
    }
  }

  lemma {:induction false} TotalAppend(a: Layout, b: Layout)
    ensures Total(a + b) == Total(a) + Total(b)
  {
    if a == [] {
      assert a + b == b;
    } else {
      assert (a + b)[1..] == a[1..] + b;
      TotalAppend(a[1..], b);
    }
  }

  // A struct that starts with another struct's fields reads those first.
  lemma {:induction false} FieldsAppend(bs: seq<byte>, a: Layout, b: Layout)
    requires |bs| >= Total(a) + Total(b)
    ensures Total(a + b) == Total(a) + Total(b)
    ensures Fields(bs, a + b) == Fields(bs, a) + Fields(bs[Total(a)..], b)
  {
    hide Number, Fields, Total;
    if a == [] {
      NothingAhead(bs, a, b);
    } else {
      var n, rest := a[0], a[1..];
      assert a == [n] + rest;
      OneMoreField(bs, n, rest);
      FieldsAppend(bs[n..], rest, b);
      OneMoreAhead(bs, n, rest, b);
    }
  }

  lemma NothingAhead(bs: seq<byte>, a: Layout, b: Layout)
    requires a == [] && |bs| >= Total(b)
    ensures Total(a) == 0 && a + b == b && Fields(bs, b) == Fields(bs, a) + Fields(bs[0..], b)
  {
    assert bs[0..] == bs && Fields(bs, a) == [];
    hide Number;
  }

  lemma OneMoreField(bs: seq<byte>, n: nat, layout: Layout)
    ensures Total([n] + layout) == n + Total(layout)
    ensures |bs| >= n + Total(layout) ==>
              Fields(bs, [n] + layout) == [Number(bs[..n])] + Fields(bs[n..], layout)
  {
    assert ([n] + layout)[1..] == layout;
    hide Number;
  }

  lemma OneMoreAhead(bs: seq<byte>, n: nat, a: Layout, b: Layout)
    requires Total(a + b) == Total(a) + Total(b) && |bs| >= n + Total(a + b)
    requires Fields(bs[n..], a + b) == Fields(bs[n..], a) + Fields(bs[n..][Total(a)..], b)
    ensures Total([n] + a + b) == n + Total(a) + Total(b) && Total([n] + a) == n + Total(a)
    ensures Fields(bs, [n] + a + b) == Fields(bs, [n] + a) + Fields(bs[n + Total(a)..], b)
  {
    hide Number, Fields, Total;
    assert [n] + a + b == [n] + (a + b);
    OneMoreField(bs, n, a);
    OneMoreField(bs, n, a + b);
    assert bs[n..][Total(a)..] == bs[n + Total(a)..];
  }

  lemma LastField(bs: seq<byte>, front: Layout, n: nat)
    requires |bs| >= Total(front + [n])
    ensures Total(front + [n]) == Total(front) + n
    ensures Fields(bs, front + [n])[|front|] == Number(bs[Total(front)..][..n])
  {
    TotalAppend(front, [n]);
    OneMoreField(bs[Total(front)..], n, []);
    assert [n] + [] == [n] && Total([]) == 0;
    hide Fields, Number, Total;
    FieldsAppend(bs, front, [n]);
  }
}
