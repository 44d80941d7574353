/**
 * Bitlists (bytesutil/bytes.go): growable byte arrays that stand for finite sets of naturals.
 */
module Bitlists {
  import opened Wrappers

  // ---------- bits of a byte ----------

  function Bit(k: nat): bv8
    requires k < 8
  {
    1 << k
  }

  predicate Has(x: bv8, k: nat)
    requires k < 8
  {
    x & Bit(k) != 0
  }

  lemma BitCases(k: nat)
    requires k < 8
    ensures Bit(k) == if k == 0 then 1 else if k == 1 then 2 else if k == 2 then 4 else if k == 3 then 8
      else if k == 4 then 16 else if k == 5 then 32 else if k == 6 then 64 else 128
  {
  }

  lemma OrBit(x: bv8, j: nat, k: nat)
    requires j < 8 && k < 8
    ensures Has(x | Bit(j), k) <==> Has(x, k) || k == j
  {
  }

  /** bits.Len8: how many bits are needed to write the byte. */
  function Len8(x: bv8): nat {
    if x >= 128 then 8 else if x >= 64 then 7 else if x >= 32 then 6 else if x >= 16 then 5
    else if x >= 8 then 4 else if x >= 4 then 3 else if x >= 2 then 2 else if x >= 1 then 1 else 0
  }

  // ---------- bytes as a set ----------

  predicate HasBit(s: seq<bv8>, i: nat)
    requires i < 8 * |s|
  {
    Has(s[i / 8], i % 8)
  }

  /** The set a bitlist stands for. */
  function Bits(s: seq<bv8>): set<nat> {
    set i: nat | i < 8 * |s| && HasBit(s, i)
  }

  function Zeros(n: nat): seq<bv8> {
    seq(n, _ => 0)
  }

  /** The bytes after the bit is set: grown to hold it, to exactly i / 8 + 1 bytes, if they are too short. */
  function WithBit(s: seq<bv8>, i: nat): (t: seq<bv8>)
    ensures |t| == if i < 8 * |s| then |s| else i / 8 + 1
  {
    var grown := if i < 8 * |s| then s else s + Zeros(i / 8 + 1 - |s|);
    grown[i / 8 := grown[i / 8] | Bit(i % 8)]
  }

  function WithoutBit(s: seq<bv8>, i: nat): (t: seq<bv8>)
    ensures |t| == |s|
  {
    if i < 8 * |s| then s[i / 8 := s[i / 8] & !Bit(i % 8)] else s
  }

  lemma ZerosHaveNone(n: nat)
    ensures Bits(Zeros(n)) == {}
  {
  }

  lemma GrowKeepsBits(s: seq<bv8>, n: nat)
    ensures Bits(s + Zeros(n)) == Bits(s)
  {
  }

  lemma ByteChanged(s: seq<bv8>, b: nat, x: bv8, i: nat)
    requires b < |s| && i < 8 * |s|
    ensures HasBit(s[b := x], i) <==> if i / 8 == b then Has(x, i % 8) else HasBit(s, i)
  {
  }

  lemma BitAdded(s: seq<bv8>, i: nat)
    requires i < 8 * |s|
    ensures Bits(s[i / 8 := s[i / 8] | Bit(i % 8)]) == Bits(s) + {i}
  {
    var x := s[i / 8] | Bit(i % 8);
    forall j: nat | j < 8 * |s| ensures HasBit(s[i / 8 := x], j) <==> HasBit(s, j) || j == i {
      ByteChanged(s, i / 8, x, j);
      OrBit(s[i / 8], i % 8, j % 8);
    }
  }

  lemma WithBitAdds(s: seq<bv8>, i: nat)
    ensures Bits(WithBit(s, i)) == Bits(s) + {i}
  {
    if i < 8 * |s| {
      BitAdded(s, i);
    } else {
      GrowKeepsBits(s, i / 8 + 1 - |s|);
      BitAdded(s + Zeros(i / 8 + 1 - |s|), i);
    }
  }

  lemma WithoutBitRemoves(s: seq<bv8>, i: nat)
    ensures Bits(WithoutBit(s, i)) == Bits(s) - {i}
  {
  }

  // ---------- the operations on slices ----------

  /** A slice: the first len elements of a backing array. */
  datatype Slice = Slice(arr: array<bv8>, len: nat)

  ghost predicate Valid(b: Slice) {
    b.len <= b.arr.Length
  }

  function Contents(b: Slice): seq<bv8>
    requires Valid(b)
    reads b.arr
  {
    b.arr[..b.len]
  }

  /** append(b, make([]byte, n)...): in the spare capacity if that suffices, else in a new array of some capacity. */
  method AppendZeros(b: Slice, n: nat, spare: nat) returns (r: Slice)
    requires Valid(b)
    modifies b.arr
    ensures Valid(r) && Contents(r) == old(Contents(b)) + Zeros(n)
    ensures r.arr == b.arr || fresh(r.arr)
    ensures b.arr[..b.len] == old(b.arr[..b.len])
  {
    if b.len + n <= b.arr.Length {
      forall i | b.len <= i < b.len + n {
        b.arr[i] := 0;
      }
      r := Slice(b.arr, b.len + n);
    } else {
      var arr := new bv8[b.len + n + spare];
      forall i | 0 <= i < b.len {
        arr[i] := b.arr[i];
      }
      forall i | b.len <= i < b.len + n {
        arr[i] := 0;
      }
      r := Slice(arr, b.len + n);
    }
  }

  /** An index within the list changes it in place; a larger one grows it first. */
  method SetBit(b: Slice, i: nat, spare: nat) returns (r: Slice)
    requires Valid(b)
    modifies b.arr
    ensures Valid(r) && Contents(r) == WithBit(old(Contents(b)), i)
    ensures Bits(Contents(r)) == Bits(old(Contents(b))) + {i}
    ensures r.len == if i < 8 * b.len then b.len else i / 8 + 1
    ensures r.arr == b.arr || fresh(r.arr)
    ensures i < 8 * b.len ==> r == b
  {
    r := b;
    ghost var was := Contents(b);
    WithBitAdds(was, i);
    if i >= b.len * 8 {
      var h := (i + (8 - i % 8)) / 8;
      r := AppendZeros(b, h - b.len, spare);
    }
    ghost var grown := Contents(r);
    r.arr[i / 8] := r.arr[i / 8] | Bit(i % 8);
    assert Contents(r) == grown[i / 8 := grown[i / 8] | Bit(i % 8)];
  }

  method ClearBit(b: Slice, i: nat) returns (r: Slice)
    requires Valid(b)
    modifies b.arr
    ensures r == b && Contents(r) == WithoutBit(old(Contents(b)), i)
    ensures Bits(Contents(r)) == Bits(old(Contents(b))) - {i}
  {
    r := b;
    WithoutBitRemoves(Contents(b), i);
    if i >= b.len * 8 {
      return;
    }
    b.arr[i / 8] := b.arr[i / 8] & !Bit(i % 8);
  }

  method MakeEmptyBitlists(i: nat) returns (r: Slice)
    ensures Valid(r) && fresh(r.arr) && Contents(r) == Zeros(i / 8 + 1) && Bits(Contents(r)) == {}
  {
    var arr := new bv8[(i + (8 - i % 8)) / 8](_ => 0);
    r := Slice(arr, arr.Length);
    ZerosHaveNone(i / 8 + 1);
    assert Contents(r) == Zeros(i / 8 + 1);
  }

  // ---------- runs ----------

  datatype Op = Add(i: nat) | Remove(i: nat)

  function Applied(s: seq<bv8>, ops: seq<Op>): seq<bv8> {
    if ops == [] then s else
    var t := Applied(s, ops[..|ops| - 1]);
    match ops[|ops| - 1]
    case Add(i) => WithBit(t, i)
    case Remove(i) => WithoutBit(t, i)
  }

  function AppliedToSet(s: set<nat>, ops: seq<Op>): set<nat> {
    if ops == [] then s else
    var t := AppliedToSet(s, ops[..|ops| - 1]);
    match ops[|ops| - 1]
    case Add(i) => t + {i}
    case Remove(i) => t - {i}
  }

  /**
   * Any run from an empty list stands for the set that the same adds and removes give, and
   * while all indices added are at most n, a list made for n does not grow.
   */
  lemma {:induction false} RunRefinesSet(n: nat, ops: seq<Op>)
    ensures Bits(Applied(Zeros(n / 8 + 1), ops)) == AppliedToSet({}, ops)
    ensures |Applied(Zeros(n / 8 + 1), ops)| >= n / 8 + 1
    ensures (forall op <- ops :: op.Add? ==> op.i <= n) ==> |Applied(Zeros(n / 8 + 1), ops)| == n / 8 + 1
  {
    if ops == [] {
      ZerosHaveNone(n / 8 + 1);
    } else {
      var front, op := ops[..|ops| - 1], ops[|ops| - 1];
      RunRefinesSet(n, front);
      var t := Applied(Zeros(n / 8 + 1), front);
      assert op in ops;
      assert forall o <- front :: o in ops;
      if op.Add? {
        WithBitAdds(t, op.i);
      } else {
        WithoutBitRemoves(t, op.i);
      }
    }
  }

  // ---------- the highest bit ----------

  /** One more than the largest element below the bound, or 0 if there is none. */
  ghost predicate IsTop(s: set<nat>, bound: nat, r: nat) {
    && (forall i <- s | i < bound :: i < r)
    && (r > 0 ==> r - 1 in s && r - 1 < bound)
  }

  lemma TopUnique(s: set<nat>, bound: nat, r: nat, q: nat)
    requires IsTop(s, bound, r) && IsTop(s, bound, q)
    ensures r == q
  {
  }

  method HighestBitIndex(b: seq<bv8>) returns (r: Option<nat>)
    ensures r.None? <==> b == []
    ensures r.Some? ==> IsTop(Bits(b), 8 * |b|, r.value)
  {
    if |b| == 0 {
      return None;
    }
    var i: int := |b| - 1;
    while i >= 0
      invariant -1 <= i < |b|
      invariant forall j <- Bits(b) :: j < 8 * (i + 1)
    {
      TopOfByte(b, i);
      if b[i] != 0 {
        return Some(Len8(b[i]) + i * 8);
      }
      i := i - 1;
    }
    return Some(0);
  }

  /** What the bits of one byte say about the whole. */
  lemma TopOfByte(b: seq<bv8>, i: nat)
    requires i < |b|
    ensures Len8(b[i]) <= 8 && (b[i] == 0 <==> Len8(b[i]) == 0)
    ensures b[i] != 0 ==> Len8(b[i]) + i * 8 - 1 in Bits(b)
    ensures forall j <- Bits(b) | 8 * i <= j < 8 * (i + 1) :: j < Len8(b[i]) + i * 8
  {
  }

  method HighestBitIndexAt(b: seq<bv8>, index: nat) returns (r: Option<nat>)
    ensures r.None? <==> b == []
    ensures r.Some? ==> IsTop(Bits(b), index, r.value)
  {
    if |b| == 0 {
      return None;
    }
    var start := index / 8;
    if start >= |b| {
      start := |b| - 1;
    }
    var mask: bv8 := Bit(index % 8) - 1;
    BitCases(index % 8);
    var i: int := start;
    while i >= 0
      invariant -1 <= i <= start
      invariant mask == 0xff || mask == Bit(index % 8) - 1
      invariant mask == 0xff ==> index / 8 > i
      invariant forall j <- Bits(b) | j < index :: j < 8 * (i + 1)
    {
      if index / 8 > i {
        mask := 0xff;
      }
      var masked := b[i] & mask;
      var minBitsMasked := Len8(masked);
      MaskedByte(b, i, index, mask);
      if !(b[i] == 0 || (minBitsMasked == 0 && index / 8 <= i)) {
        return Some(minBitsMasked + i * 8);
      }
      i := i - 1;
    }
    return Some(0);
  }

  /** What the masked bits of one byte say about the elements below the index. */
  lemma MaskedByte(b: seq<bv8>, i: nat, index: nat, mask: bv8)
    requires i < |b| && i <= index / 8
    requires mask == if index / 8 > i then 0xff else Bit(index % 8) - 1
    ensures var n := Len8(b[i] & mask);
      && (index / 8 > i ==> (n == 0 <==> b[i] == 0))
      && (b[i] == 0 ==> n == 0)
      && (n > 0 ==> n + i * 8 - 1 in Bits(b) && n + i * 8 - 1 < index)
      && (forall j <- Bits(b) | 8 * i <= j < 8 * (i + 1) && j < index :: j < n + i * 8)
  {
  }

  /** Past the end of the list the bound has no effect. */
  lemma BoundPastEnd(b: seq<bv8>, index: nat, r: nat)
    requires index >= 8 * |b|
    ensures IsTop(Bits(b), index, r) <==> IsTop(Bits(b), 8 * |b|, r)
  {
  }

  /** The value both scans have to return, by its defining property. */
  function Top(s: seq<bv8>, bound: nat): (r: nat)
    ensures IsTop(Bits(s), bound, r) && r <= bound
  {
    if bound == 0 then 0
    else if bound - 1 < 8 * |s| && HasBit(s, bound - 1) then bound
    else Top(s, bound - 1)
  }

  /** Asking again for the highest bit below the one just found, while there is one. */
  function Descend(s: seq<bv8>, n: nat): seq<nat>
  {
    if n == 0 then [] else [n - 1] + Descend(s, Top(s, n - 1))
  }

  /** The sequence lists the elements below the bound, from high to low. */
  ghost predicate Lists(d: seq<nat>, s: set<nat>, bound: nat) {
    && (forall i :: i in d <==> i in s && i < bound)
    && (forall j, k :: 0 <= j < k < |d| ==> d[j] > d[k])
  }

  lemma ListsStep(s: set<nat>, bound: nat, n: nat, rest: seq<nat>)
    requires IsTop(s, bound, n) && n > 0 && Lists(rest, s, n - 1)
    ensures Lists([n - 1] + rest, s, bound)
  {
    var d := [n - 1] + rest;
    forall i ensures i in d <==> i in s && i < bound {
      assert i in d <==> i == n - 1 || i in rest;
    }
    forall j, k | 0 <= j < k < |d| ensures d[j] > d[k] {
      assert d[k] == rest[k - 1] && rest[k - 1] in rest;
    }
  }

  /** The descent visits exactly the set bits below the start, from high to low. */
  lemma {:induction false} DescentVisitsAll(s: seq<bv8>, bound: nat)
    ensures Lists(Descend(s, Top(s, bound)), Bits(s), bound)
    decreases bound
  {
    var n := Top(s, bound);
    if n > 0 {
      DescentVisitsAll(s, n - 1);
      ListsStep(Bits(s), bound, n, Descend(s, Top(s, n - 1)));
    }
  }

  lemma Associative<T>(a: seq<T>, b: seq<T>, c: seq<T>)
    ensures a + b + c == a + (b + c)
  {
  }

  /** What is still to be visited from the bit below n. */
  ghost predicate Visiting(s: seq<bv8>, d: seq<nat>, n: nat) {
    d + Descend(s, n) == Descend(s, Top(s, 8 * |s|))
  }

  lemma VisitStarts(s: seq<bv8>, n: nat)
    requires IsTop(Bits(s), 8 * |s|, n)
    ensures Visiting(s, [], n)
  {
    TopUnique(Bits(s), 8 * |s|, n, Top(s, 8 * |s|));
  }

  lemma VisitGoesOn(s: seq<bv8>, d: seq<nat>, n: nat, next: nat)
    requires n > 0 && Visiting(s, d, n) && IsTop(Bits(s), n - 1, next)
    ensures next < n && Visiting(s, d + [n - 1], next)
  {
    TopUnique(Bits(s), n - 1, next, Top(s, n - 1));
    Associative(d, [n - 1], Descend(s, next));
  }

  lemma VisitEnds(s: seq<bv8>, d: seq<nat>)
    requires Visiting(s, d, 0)
    ensures Lists(d, Bits(s), 8 * |s|)
  {
    DescentVisitsAll(s, 8 * |s|);
    assert d + Descend(s, 0) == d;
  }

  /** The scans themselves, called for the bit below the one just found, visit the whole set. */
  method VisitBits(b: seq<bv8>) returns (d: seq<nat>)
    ensures Lists(d, Bits(b), 8 * |b|)
  {
    d := [];
    var n := 0;
    var highest := HighestBitIndex(b);
    if highest.Some? {
      n := highest.value;
    }
    VisitStarts(b, n);
    while n > 0
      invariant Visiting(b, d, n)
    {
      var next := HighestBitIndexAt(b, n - 1);
      VisitGoesOn(b, d, n, next.value);
      d := d + [n - 1];
      n := next.value;
    }
    VisitEnds(b, d);
  }

  /** The bound is exclusive: counting the bit at the index as well gives the same answer only if it is not set. */
  lemma BoundIsExclusive(s: set<nat>, index: nat, r: nat)
    requires IsTop(s, index, r)
    ensures IsTop(s, index + 1, r) <==> index !in s
  {
  }
}
