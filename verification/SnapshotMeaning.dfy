// What valid progress is (rsSnapshotValid of common/src/Codec.cpp, with ProgressAllowList.hpp): every
// shared save byte exactly once, and no bit that is not shared.
module SnapshotMeaning {
  import opened Common
  import opened Snapshot
  import Words

  // ---------------------------------------------------------------- the shared bits

  lemma {:induction false} AndZero(x: nat, n: nat)
    ensures Words.AndBits(x, 0, n) == 0
  {
    if n > 0 {
      AndZero(x / 2, n - 1);
    }
  }

  lemma LowBit(v: byte)
    ensures Words.And(v, 1) == v % 2
  {
    AndZero(v / 2, 31);
    assert Words.AndBits(v, 1, 32) == v % 2 + 2 * Words.AndBits(v / 2, 0, 31);
  }

  lemma HighNibble(v: byte)
    ensures Words.And(v, 0xf0) == 0 <==> v < 16
  {
    PeelFour(v, 15, 32);
    FourBits(v / 16, 28);
  }

  lemma Peel(x: nat, y: nat, n: nat)
    requires n > 0
    ensures Words.AndBits(x, 2 * y, n) == 2 * Words.AndBits(x / 2, y, n - 1)
  {
    var z := 2 * y;
    assert z % 2 == 0 && z / 2 == y;
    assert Words.AndBits(x, z, n) == (x % 2) * (z % 2) + 2 * Words.AndBits(x / 2, z / 2, n - 1);
  }

  lemma PeelTwo(x: nat, y: nat, n: nat)
    requires n > 1
    ensures Words.AndBits(x, 4 * y, n) == 4 * Words.AndBits(x / 4, y, n - 2)
  {
    Peel(x, 2 * y, n);
    Peel(x / 2, y, n - 1);
    assert x / 2 / 2 == x / 4 && 2 * (2 * y) == 4 * y;
  }

  lemma PeelFour(x: nat, y: nat, n: nat)
    requires n > 3
    ensures Words.AndBits(x, 16 * y, n) == 16 * Words.AndBits(x / 16, y, n - 4)
  {
    PeelTwo(x, 4 * y, n);
    PeelTwo(x / 4, y, n - 2);
    assert x / 4 / 4 == x / 16 && 4 * (4 * y) == 16 * y;
  }

  lemma OneBit(x: nat, y: nat, n: nat)
    requires n > 0
    ensures Words.AndBits(x, 2 * y + 1, n) == x % 2 + 2 * Words.AndBits(x / 2, y, n - 1)
  {
    var z := 2 * y + 1;
    assert z % 2 == 1 && z / 2 == y;
    assert Words.AndBits(x, z, n) == (x % 2) * (z % 2) + 2 * Words.AndBits(x / 2, z / 2, n - 1);
  }

  lemma FourBits(x: nat, n: nat)
    requires x < 16 && n >= 4
    ensures Words.AndBits(x, 15, n) == 0 <==> x == 0
  {
    OneBit(x, 7, n);
    OneBit(x / 2, 3, n - 1);
    OneBit(x / 2 / 2, 1, n - 2);
    OneBit(x / 2 / 2 / 2, 0, n - 3);
    AndZero(x / 2 / 2 / 2 / 2, n - 4);
  }

  // A byte is permitted where it is shared, but not the first chest bit nor the last four.
  lemma PermittedIff(offset: nat, value: byte)
    ensures Permitted(offset, value) <==>
            Mask(offset) != 0 && (offset == 0x23ac ==> value % 2 == 0) && (offset == 0x23df ==> value < 16)
  {
    LowBit(value);
    HighNibble(value);
    AndZero(value, 32);
  }

  // ---------------------------------------------------------------- the shared bytes

  predicate From(a: nat, o: nat) { a <= o }

  function Range(a: nat, b: nat): set<nat> { set o: nat | o < b && From(a, o) }

  lemma {:induction false} RangeSize(a: nat, b: nat)
    requires a <= b
    ensures |Range(a, b)| == b - a
    decreases b
  {
    if a == b {
      assert Range(a, b) == {};
    } else {
      RangeSize(a, b - 1);
      assert Range(a, b) == Range(a, b - 1) + {b - 1};
    }
  }

  function Shared(): set<nat> { Range(0x0010, 0x1ef0) + Range(0x22f8, 0x2390) + Range(0x23ac, 0x23e0) }

  lemma SharedBytes()
    ensures forall o: nat :: o in Shared() <==> Mask(o) != 0
    ensures |Shared()| == ALLOWED
  {
    RangeSize(0x0010, 0x1ef0);
    RangeSize(0x22f8, 0x2390);
    RangeSize(0x23ac, 0x23e0);
  }

  // ---------------------------------------------------------------- the spans

  predicate BytesPermitted(offset: nat, bytes: seq<byte>) {
    forall k :: 0 <= k < |bytes| ==> Permitted(offset + k, bytes[k])
  }

  predicate SpanOk(s: Span) {
    s.bytes != [] && s.offset + |s.bytes| <= 0xffff_ffff && BytesPermitted(s.offset, s.bytes)
  }

  function Offsets(s: Span): set<nat> { Range(s.offset, s.offset + |s.bytes|) }

  predicate Disjoint(spans: seq<Span>) {
    forall i, j :: 0 <= i < j < |spans| ==> Offsets(spans[i]) !! Offsets(spans[j])
  }

  function AllOffsets(spans: seq<Span>): set<nat> {
    if spans == [] then {} else Offsets(spans[0]) + AllOffsets(spans[1..])
  }

  predicate Covered(spans: seq<Span>, offset: nat) { exists i :: 0 <= i < |spans| && offset in Offsets(spans[i]) }

  lemma {:induction false} CoveredIff(spans: seq<Span>, offset: nat)
    ensures Covered(spans, offset) <==> offset in AllOffsets(spans)
    decreases |spans|
  {
    if spans != [] {
      CoveredIff(spans[1..], offset);
      if Covered(spans[1..], offset) {
        var i :| 0 <= i < |spans[1..]| && offset in Offsets(spans[1..][i]);
        assert offset in Offsets(spans[i + 1]);
      }
      if Covered(spans, offset) && offset !in Offsets(spans[0]) {
        var i :| 0 <= i < |spans| && offset in Offsets(spans[i]);
        assert spans[1..][i - 1] == spans[i];
      }
    }
  }

  lemma RangeTail(offset: nat, n: nat)
    requires n > 0
    ensures Range(offset, offset + n) == {offset} + Range(offset + 1, offset + n) && offset !in Range(offset + 1, offset + n)
  {
  }

  lemma PermittedTail(offset: nat, bytes: seq<byte>)
    requires bytes != []
    ensures BytesPermitted(offset, bytes) <==> Permitted(offset, bytes[0]) && BytesPermitted(offset + 1, bytes[1..])
  {
    if Permitted(offset, bytes[0]) && BytesPermitted(offset + 1, bytes[1..]) {
      forall k | 0 <= k < |bytes| ensures Permitted(offset + k, bytes[k]) {
        if k > 0 {
          assert bytes[1..][k - 1] == bytes[k];
          assert Permitted(offset + 1 + (k - 1), bytes[1..][k - 1]);
        }
      }
    }
    if BytesPermitted(offset, bytes) {
      assert Permitted(offset + 0, bytes[0]);
      forall k | 0 <= k < |bytes[1..]| ensures Permitted(offset + 1 + k, bytes[1..][k]) {
        assert Permitted(offset + (k + 1), bytes[k + 1]);
      }
    }
  }

  lemma {:induction false} BytesAddedIff(m: map<nat, byte>, offset: nat, bytes: seq<byte>)
    ensures AddBytes(m, offset, bytes).Some? <==> BytesPermitted(offset, bytes) && m.Keys !! Range(offset, offset + |bytes|)
    ensures AddBytes(m, offset, bytes).Some? ==>
              AddBytes(m, offset, bytes).value.Keys == m.Keys + Range(offset, offset + |bytes|)
    decreases |bytes|
  {
    if bytes == [] {
      assert Range(offset, offset) == {};
    } else {
      RangeTail(offset, |bytes|);
      PermittedTail(offset, bytes);
      if offset !in m && Permitted(offset, bytes[0]) {
        BytesAddedIff(m[offset := bytes[0]], offset + 1, bytes[1..]);
        assert m[offset := bytes[0]].Keys == m.Keys + {offset};
      }
    }
  }

  lemma DisjointTail(spans: seq<Span>)
    requires spans != []
    ensures Disjoint(spans) <==> Disjoint(spans[1..]) && Offsets(spans[0]) !! AllOffsets(spans[1..])
  {
    var rest := spans[1..];
    if Disjoint(rest) && Offsets(spans[0]) !! AllOffsets(rest) {
      forall i, j | 0 <= i < j < |spans| ensures Offsets(spans[i]) !! Offsets(spans[j]) {
        if i == 0 {
          forall o | o in Offsets(spans[j]) ensures o !in Offsets(spans[0]) {
            assert o in Offsets(rest[j - 1]);
            CoveredIff(rest, o);
          }
        } else {
          assert Offsets(rest[i - 1]) !! Offsets(rest[j - 1]);
        }
      }
    }
    if Disjoint(spans) {
      forall i, j | 0 <= i < j < |rest| ensures Offsets(rest[i]) !! Offsets(rest[j]) {
        assert Offsets(spans[i + 1]) !! Offsets(spans[j + 1]);
      }
      forall o | o in AllOffsets(rest) ensures o !in Offsets(spans[0]) {
        CoveredIff(rest, o);
        var i :| 0 <= i < |rest| && o in Offsets(rest[i]);
        assert Offsets(spans[0]) !! Offsets(spans[i + 1]);
      }
    }
  }

  predicate SpansOk(spans: seq<Span>) { forall i :: 0 <= i < |spans| ==> SpanOk(spans[i]) }

  lemma {:induction false} SpansAddedIff(m: map<nat, byte>, spans: seq<Span>)
    ensures AddSpans(m, spans).Some? <==> SpansOk(spans) && Disjoint(spans) && m.Keys !! AllOffsets(spans)
    ensures AddSpans(m, spans).Some? ==> AddSpans(m, spans).value.Keys == m.Keys + AllOffsets(spans)
    decreases |spans|
  {
    if spans != [] {
      var s, rest := spans[0], spans[1..];
      BytesAddedIff(m, s.offset, s.bytes);
      DisjointTail(spans);
      assert SpansOk(spans) <==> SpanOk(s) && SpansOk(rest) by {
        forall i | 0 <= i < |rest| ensures rest[i] == spans[i + 1] {
        }
        assert spans == [s] + rest;
      }
      if AddBytes(m, s.offset, s.bytes).Some? {
        SpansAddedIff(AddBytes(m, s.offset, s.bytes).value, rest);
      }
    }
  }

  lemma {:induction false} OffsetsAreShared(spans: seq<Span>)
    requires SpansOk(spans)
    ensures AllOffsets(spans) <= Shared()
    decreases |spans|
  {
    if spans != [] {
      SharedBytes();
      OffsetsAreShared(spans[1..]);
      var s := spans[0];
      forall o | o in Offsets(s) ensures o in Shared() {
        assert Permitted(s.offset + (o - s.offset), s.bytes[o - s.offset]);
      }
    }
  }

  // Progress is valid exactly when it is marked full and its spans are sound, overlap nowhere and
  // leave no shared byte of the save out.
  lemma ProgressIff(p: Progress)
    ensures ProgressValid(p) <==>
            p.full && SpansOk(p.spans) && Disjoint(p.spans) && forall o: nat :: Mask(o) != 0 ==> Covered(p.spans, o)
  {
    SpansAddedIff(map[], p.spans);
    SharedBytes();
    if SpansOk(p.spans) && Disjoint(p.spans) {
      OffsetsAreShared(p.spans);
      var all := AllOffsets(p.spans);
      assert AddSpans(map[], p.spans).value.Keys == all;
      assert |AddSpans(map[], p.spans).value| == |all|;
      if |all| == ALLOWED {
        SubsetSameSize(all, Shared());
      }
      forall o: nat ensures Covered(p.spans, o) <==> o in all {
        CoveredIff(p.spans, o);
      }
      if forall o: nat :: Mask(o) != 0 ==> Covered(p.spans, o) {
        assert Shared() <= all;
        assert all == Shared();
      }
    }
  }
}
