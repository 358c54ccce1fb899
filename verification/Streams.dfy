/** A byte stream cut into the places it passes through, nearest to its end first. */
module Streams {
  type Bytes = seq<bv8>

  function Flat(places: seq<Bytes>): Bytes
  {
    if places == [] then [] else places[0] + Flat(places[1..])
  }

  /** The places after the first `k` bytes of place `i + 1` have moved on to place `i`. */
  function Advance(places: seq<Bytes>, i: nat, k: nat): seq<Bytes>
    requires i + 1 < |places| && k <= |places[i + 1]|
  {
    places[i := places[i] + places[i + 1][..k]][i + 1 := places[i + 1][k..]]
  }

  /** Moving bytes on does not change the stream. */
  lemma {:induction false} AdvanceKeepsStream(places: seq<Bytes>, i: nat, k: nat)
    requires i + 1 < |places| && k <= |places[i + 1]|
    ensures Flat(Advance(places, i, k)) == Flat(places)
  {
    var after := Advance(places, i, k);
    if i == 0 {
      var a, b, rest := places[0], places[1], Flat(places[2..]);
      assert places[1..][1..] == places[2..] && after[1..][1..] == places[2..];
      assert b == b[..k] + b[k..];
      assert (a + b[..k]) + (b[k..] + rest) == a + (b + rest);
    } else {
      assert after[1..] == Advance(places[1..], i - 1, k);
      AdvanceKeepsStream(places[1..], i - 1, k);
    }
  }

  /** With every place after the first one empty, the first holds the whole stream. */
  lemma {:induction false} AllArrived(places: seq<Bytes>)
    requires |places| > 0 && forall i :: 0 < i < |places| ==> places[i] == []
    ensures Flat(places) == places[0]
  {
    if |places| > 1 {
      assert places[1..][0] == [];
      AllArrived(places[1..]);
    }
  }

  /** With every place but the last one empty, the last holds the whole stream. */
  lemma {:induction false} NothingMoved(places: seq<Bytes>)
    requires |places| > 0 && forall i :: 0 <= i < |places| - 1 ==> places[i] == []
    ensures Flat(places) == places[|places| - 1]
  {
    if |places| > 1 {
      NothingMoved(places[1..]);
    }
  }

  lemma {:induction false} FlatSnoc(places: seq<Bytes>, last: Bytes)
    ensures Flat(places + [last]) == Flat(places) + last
  {
    if places == [] {
      assert [last][1..] == [] && places + [last] == [last];
    } else {
      assert (places + [last])[1..] == places[1..] + [last];
      FlatSnoc(places[1..], last);
    }
  }

  lemma FlatOfSix(a: Bytes, b: Bytes, c: Bytes, d: Bytes, e: Bytes, f: Bytes)
    ensures Flat([a, b, c, d, e, f]) == a + b + c + d + e + f
  {
    FlatOfFour(a, b, c, d);
    FlatSnoc([a, b, c, d], e);
    assert [a, b, c, d] + [e] == [a, b, c, d, e];
    FlatSnoc([a, b, c, d, e], f);
    assert [a, b, c, d, e] + [f] == [a, b, c, d, e, f];
  }

  lemma FlatOfFour(a: Bytes, b: Bytes, c: Bytes, d: Bytes)
    ensures Flat([a, b, c, d]) == a + b + c + d
  {
    FlatSnoc([], a);
    assert [] + [a] == [a] && [] + a == a;
    FlatSnoc([a], b);
    assert [a] + [b] == [a, b];
    FlatSnoc([a, b], c);
    assert [a, b] + [c] == [a, b, c];
    FlatSnoc([a, b, c], d);
    assert [a, b, c] + [d] == [a, b, c, d];
  }
}
