// Definitions shared by the model's modules: optional values, bytes and the
// machine integers whose wrap-around the modelled code relies on.
module Common {

  datatype Option<+T> = None | Some(value: T)

  type byte = x: int | 0 <= x < 256

  type u16 = x: int | 0 <= x < 0x1_0000
  type u32 = x: int | 0 <= x < 0x1_0000_0000
  type u64 = x: int | 0 <= x < 0x1_0000_0000_0000_0000
  type i32 = x: int | -0x8000_0000 <= x < 0x8000_0000

  const U16_RANGE: int := 0x1_0000
  const U32_RANGE: int := 0x1_0000_0000
  const U64_RANGE: int := 0x1_0000_0000_0000_0000

  // The byte at i, or zero past the end.
  function ByteAt(b: seq<byte>, i: nat): (v: nat)
    ensures v < 256
  {
    if i < |b| then b[i] else 0
  }

  // Unsigned subtraction of two machine words of the given range.
  function Minus(a: nat, b: nat, range: nat): (r: nat)
    requires a < range && b < range
    ensures r < range && (b <= a ==> r == a - b)
  {
    if b <= a then a - b else a - b + range
  }

  function Least(s: set<nat>): (m: nat)
    requires s != {}
    ensures m in s && forall x :: x in s ==> m <= x
  {
    Smallest(s);
    var m :| m in s && forall x :: x in s ==> m <= x;
    m
  }

  // The members of a finite set of numbers, in ascending order: the order in which the source
  // iterates over an ordered map's keys.
  function Ascending(s: set<nat>): (r: seq<nat>)
    ensures forall x :: x in r <==> x in s
  {
    if s == {} then [] else [Least(s)] + Ascending(s - {Least(s)})
  }

  lemma {:induction false} AscendingOrder(s: set<nat>)
    ensures forall i, j :: 0 <= i < j < |Ascending(s)| ==> Ascending(s)[i] < Ascending(s)[j]
  {
    if s != {} {
      var rest := Ascending(s - {Least(s)});
      AscendingOrder(s - {Least(s)});
      forall i, j | 0 <= i < j < |Ascending(s)| ensures Ascending(s)[i] < Ascending(s)[j] {
        assert Ascending(s)[j] == rest[j - 1];
        assert rest[j - 1] in rest;
      }
    }
  }

  lemma {:induction false} Smallest(s: set<nat>)
    requires s != {}
    ensures exists x :: x in s && forall y :: y in s ==> x <= y
    decreases |s|
  {
    var x :| x in s;
    var below := set y | y in s && y < x;
    if below != {} {
      assert below < s;
      SmallerSet(below, s);
      Smallest(below);
      var m :| m in below && forall y :: y in below ==> m <= y;
      forall y | y in s ensures m <= y {
        assert y < x ==> y in below;
      }
    } else {
      forall y | y in s ensures x <= y {
        assert y < x ==> y in below;
      }
    }
  }

  lemma SmallerSet(a: set<nat>, b: set<nat>)
    requires a < b
    ensures |a| < |b|
  {
    var more := b - a;
    assert b == a + more && a !! more;
    assert more != {};
  }

  lemma SubsetSameSize<T>(a: set<T>, b: set<T>)
    requires a <= b && |a| == |b|
    ensures a == b
  {
    assert b == a + (b - a);
    assert |b - a| == 0;
  }
}
