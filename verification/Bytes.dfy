// Little-endian integers and fixed-width records (common/include/kh2coop/ByteBuffer.hpp, and
// put/get of common/src/SteamBroker.cpp).
module Bytes {
  import opened Common

  function Pow256(n: nat): (p: nat)
    ensures p > 0
  {
    if n == 0 then 1 else 256 * Pow256(n - 1)
  }

  function Put(v: nat, n: nat): (b: seq<byte>)
    ensures |b| == n
  {
    if n == 0 then [] else [v % 256] + Put(v / 256, n - 1)
  }

  function Get(b: seq<byte>): nat {
    if b == [] then 0 else b[0] + 256 * Get(b[1..])
  }

  lemma {:induction false} GetPut(v: nat, n: nat)
    requires v < Pow256(n)
    ensures Get(Put(v, n)) == v
  {
    if n > 0 {
      assert v / 256 < Pow256(n - 1);
      GetPut(v / 256, n - 1);
      assert Put(v, n)[1..] == Put(v / 256, n - 1);
    }
  }

  lemma {:induction false} PutGet(b: seq<byte>)
    ensures Get(b) < Pow256(|b|) && Put(Get(b), |b|) == b
  {
    if b != [] {
      PutGet(b[1..]);
      var v := Get(b);
      assert v % 256 == b[0] && v / 256 == Get(b[1..]);
      assert b == [b[0]] + b[1..];
    }
  }

  // ---------------------------------------------------------------- fixed-width records

  function Width(ws: seq<nat>): nat {
    if ws == [] then 0 else ws[0] + Width(ws[1..])
  }

  predicate Fits(ws: seq<nat>, vs: seq<nat>) {
    |vs| == |ws| && forall i :: 0 <= i < |ws| ==> vs[i] < Pow256(ws[i])
  }

  function PutAll(ws: seq<nat>, vs: seq<nat>): (b: seq<byte>)
    requires |vs| == |ws|
    ensures |b| == Width(ws)
  {
    if ws == [] then [] else Put(vs[0], ws[0]) + PutAll(ws[1..], vs[1..])
  }

  // The values of a record at the front of b and what follows it, or nothing if b is too short.
  function GetAll(ws: seq<nat>, b: seq<byte>): Option<(seq<nat>, seq<byte>)> {
    if ws == [] then Some(([], b))
    else if |b| < ws[0] then None
    else match GetAll(ws[1..], b[ws[0]..])
      case None => None
      case Some((vs, rest)) => Some(([Get(b[..ws[0]])] + vs, rest))
  }

  lemma Split(head: seq<byte>, tail: seq<byte>, rest: seq<byte>)
    ensures (head + tail + rest)[..|head|] == head && (head + tail + rest)[|head|..] == tail + rest
  {
  }

  lemma {:induction false} GetAllPutAll(ws: seq<nat>, vs: seq<nat>, rest: seq<byte>)
    requires Fits(ws, vs)
    ensures GetAll(ws, PutAll(ws, vs) + rest) == Some((vs, rest))
  {
    if ws == [] {
      assert [] + rest == rest;
    } else {
      Split(Put(vs[0], ws[0]), PutAll(ws[1..], vs[1..]), rest);
      GetPut(vs[0], ws[0]);
      GetAllPutAll(ws[1..], vs[1..], rest);
      assert [vs[0]] + vs[1..] == vs;
    }
  }

  lemma {:induction false} PutAllGetAll(ws: seq<nat>, b: seq<byte>)
    requires GetAll(ws, b).Some?
    ensures var (vs, rest) := GetAll(ws, b).value; Fits(ws, vs) && b == PutAll(ws, vs) + rest
    decreases |ws|
  {
    if ws == [] {
      assert b == [] + b;
    } else {
      var n := ws[0];
      PutAllGetAll(ws[1..], b[n..]);
      var (vs, rest) := GetAll(ws[1..], b[n..]).value;
      PutGet(b[..n]);
      var all := [Get(b[..n])] + vs;
      assert all[1..] == vs;
      assert b == b[..n] + (PutAll(ws[1..], vs) + rest);
    }
  }

  // ---------------------------------------------------------------- lists of encoded values

  function PutList<T>(put: T -> seq<byte>, xs: seq<T>): seq<byte> {
    if xs == [] then [] else put(xs[0]) + PutList(put, xs[1..])
  }

  // n values, each read where the one before it ended.
  function GetList<T>(get: seq<byte> -> Option<(T, seq<byte>)>, n: nat, b: seq<byte>): Option<(seq<T>, seq<byte>)>
    decreases n
  {
    if n == 0 then Some(([], b))
    else match get(b)
      case None => None
      case Some((x, rest)) =>
        match GetList(get, n - 1, rest)
        case None => None
        case Some((xs, more)) => Some(([x] + xs, more))
  }

  lemma {:induction false} GetPutList<T>(put: T -> seq<byte>, get: seq<byte> -> Option<(T, seq<byte>)>, xs: seq<T>, rest: seq<byte>)
    requires forall i, tail :: 0 <= i < |xs| ==> get(put(xs[i]) + tail) == Some((xs[i], tail))
    ensures GetList(get, |xs|, PutList(put, xs) + rest) == Some((xs, rest))
    decreases |xs|
  {
    if xs == [] {
      assert PutList(put, xs) + rest == rest;
    } else {
      var tail := PutList(put, xs[1..]) + rest;
      assert PutList(put, xs) + rest == put(xs[0]) + tail;
      GetPutList(put, get, xs[1..], rest);
      assert [xs[0]] + xs[1..] == xs;
    }
  }

  lemma {:induction false} ListSize<T>(put: T -> seq<byte>, xs: seq<T>, size: nat)
    requires forall i :: 0 <= i < |xs| ==> |put(xs[i])| == size
    ensures |PutList(put, xs)| == size * |xs|
    decreases |xs|
  {
    if xs != [] {
      ListSize(put, xs[1..], size);
      assert size * |xs| == size + size * |xs[1..]|;
    }
  }

  lemma {:induction false} PutGetList<T>(put: T -> seq<byte>, get: seq<byte> -> Option<(T, seq<byte>)>, n: nat, b: seq<byte>)
    requires forall c :: get(c).Some? ==> c == put(get(c).value.0) + get(c).value.1
    requires GetList(get, n, b).Some?
    ensures var (xs, rest) := GetList(get, n, b).value; |xs| == n && b == PutList(put, xs) + rest
    decreases n
  {
    if n > 0 {
      var (x, rest) := get(b).value;
      PutGetList(put, get, n - 1, rest);
      var (xs, more) := GetList(get, n - 1, rest).value;
      assert ([x] + xs)[1..] == xs;
      assert put(x) + (PutList(put, xs) + more) == put(x) + PutList(put, xs) + more;
    } else {
      assert b == [] + b;
    }
  }

  // ---------------------------------------------------------------- the buffer objects

  class ByteWriter {
    var buf: seq<byte>

    constructor ()
      ensures buf == []
    {
      buf := [];
    }

    method WriteLittleEndian(value: nat, size: nat)
      modifies this
      ensures buf == old(buf) + Put(value, size)
    {
      var v, i := value, 0;
      while i < size
        invariant i <= size
        invariant buf + Put(v, size - i) == old(buf) + Put(value, size)
      {
        assert Put(v, size - i) == [v % 256] + Put(v / 256, size - i - 1);
        assert (buf + [v % 256]) + Put(v / 256, size - i - 1) == buf + Put(v, size - i);
        buf := buf + [v % 256];
        v, i := v / 256, i + 1;
      }
    }

    method WriteRecord(ws: seq<nat>, vs: seq<nat>)
      requires |vs| == |ws|
      modifies this
      ensures buf == old(buf) + PutAll(ws, vs)
    {
      var i := 0;
      while i < |ws|
        invariant i <= |ws|
        invariant buf + PutAll(ws[i..], vs[i..]) == old(buf) + PutAll(ws, vs)
      {
        ghost var rest := PutAll(ws[i + 1..], vs[i + 1..]);
        assert ws[i..][1..] == ws[i + 1..] && vs[i..][1..] == vs[i + 1..];
        assert (buf + Put(vs[i], ws[i])) + rest == buf + PutAll(ws[i..], vs[i..]);
        WriteLittleEndian(vs[i], ws[i]);
        i := i + 1;
      }
    }

    method WriteBytes(bytes: seq<byte>)
      modifies this
      ensures buf == old(buf) + bytes
    {
      var i := 0;
      while i < |bytes|
        invariant i <= |bytes| && buf == old(buf) + bytes[..i]
      {
        buf := buf + [bytes[i]];
        i := i + 1;
      }
    }
  }

  class ByteReader {
    const data: seq<byte>
    var pos: nat

    predicate Valid()
      reads this
    {
      pos <= |data|
    }

    function Rest(): seq<byte>
      requires Valid()
      reads this
    {
      data[pos..]
    }

    constructor (data: seq<byte>)
      ensures Valid() && Rest() == data && this.data == data
    {
      this.data, pos := data, 0;
    }

    // Nothing, and no move, when fewer than `size` bytes remain.
    method ReadLittleEndian(size: nat) returns (v: Option<nat>)
      requires Valid()
      modifies this
      ensures Valid()
      ensures v.None? <==> |old(Rest())| < size
      ensures v.None? ==> Rest() == old(Rest())
      ensures v.Some? ==> v.value == Get(old(Rest())[..size]) && Rest() == old(Rest())[size..]
    {
      if pos + size > |data| {
        return None;
      }
      ghost var field := data[pos..pos + size];
      assert field == Rest()[..size] && field[0..] == field;
      var value: nat, i: nat, scale: nat := 0, 0, 1;
      while i < size
        invariant i <= size && pos == old(pos) && value + scale * Get(field[i..]) == Get(field)
      {
        assert field[i..][1..] == field[i + 1..];
        ScaleStep(scale, field[i], Get(field[i + 1..]));
        value := value + data[pos + i] * scale;
        scale, i := scale * 256, i + 1;
      }
      assert field[i..] == [];
      assert data[pos + size..] == Rest()[size..];
      pos := pos + size;
      return Some(value);
    }

    lemma ScaleStep(scale: nat, digit: nat, high: nat)
      ensures scale * (digit + 256 * high) == digit * scale + (scale * 256) * high
    {
    }

    method ReadRecord(ws: seq<nat>) returns (vs: Option<seq<nat>>)
      requires Valid()
      modifies this
      ensures Valid()
      ensures vs.None? <==> GetAll(ws, old(Rest())).None?
      ensures vs.Some? ==> GetAll(ws, old(Rest())) == Some((vs.value, Rest()))
    {
      var got: seq<nat> := [];
      var i := 0;
      assert ws[0..] == ws;
      assert forall more: seq<nat> :: got + more == more;
      while i < |ws|
        invariant i <= |ws| && Valid()
        invariant GetAll(ws, old(Rest())) ==
                  match GetAll(ws[i..], Rest())
                  case None => None
                  case Some((more, rest)) => Some((got + more, rest))
      {
        assert ws[i..][1..] == ws[i + 1..];
        ghost var before := Rest();
        var v := ReadLittleEndian(ws[i]);
        if v.None? {
          return None;
        }
        if GetAll(ws[i + 1..], Rest()).Some? {
          ghost var more := GetAll(ws[i + 1..], Rest()).value.0;
          assert got + ([v.value] + more) == (got + [v.value]) + more;
        }
        got, i := got + [v.value], i + 1;
      }
      assert got + [] == got;
      return Some(got);
    }
  }
}
