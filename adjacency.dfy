/**
  The adjacency finder (`segment_adjacent_pairs`): every ordered pair (i, j)
  of distinct segments such that segment i ends at the hit where segment j
  starts.

  The pairs are found without a quadratic scan: segments are first grouped
  by their start hit in a multi-map, and each segment then looks up the
  segments that start at its end hit.
*/
module Adjacency {

  /** A directed candidate link between two hits, by hit index. */
  datatype Segment = Segment(start: nat, end: nat)

  /** Segment i ends where segment j starts; a segment never chains to
      itself, even when it starts and ends at the same hit. */
  predicate Adjacent(segs: seq<Segment>, i: nat, j: nat) {
    i < |segs| && j < |segs| && i != j && segs[i].end == segs[j].start
  }

  /** The segments listed under hit `h`, or none. */
  function Lookup(index: map<nat, seq<nat>>, h: nat): seq<nat> {
    if h in index then index[h] else []
  }

  /** The multi-map from a hit to the segments among the first `k` that start
      there, in increasing order (StartIndexSpec). */
  function StartIndex(segs: seq<Segment>, k: nat): map<nat, seq<nat>>
    requires k <= |segs|
  {
    if k == 0 then map[]
    else
      var index := StartIndex(segs, k - 1);
      var h := segs[k - 1].start;
      index[h := Lookup(index, h) + [k - 1]]
  }

  predicate Increasing(js: seq<nat>) {
    forall a, b :: 0 <= a < b < |js| ==> js[a] < js[b]
  }

  /** Under hit h the multi-map lists exactly the segments among the first
      `k` that start at h, each once and in increasing order. */
  lemma {:induction false} StartIndexSpec(segs: seq<Segment>, k: nat, h: nat)
    requires k <= |segs|
    ensures forall j: nat :: j in Lookup(StartIndex(segs, k), h) <==> j < k && segs[j].start == h
    ensures Increasing(Lookup(StartIndex(segs, k), h))
  {
    if k > 0 {
      StartIndexSpec(segs, k - 1, h);
      var before := Lookup(StartIndex(segs, k - 1), h);
      if segs[k - 1].start == h {
        assert Lookup(StartIndex(segs, k), h) == before + [k - 1];
        assert forall a :: 0 <= a < |before| ==> before[a] in before;
      } else {
        assert Lookup(StartIndex(segs, k), h) == before;
      }
    }
  }

  /** The pairs (i, j) for the candidates `js` of segment i, leaving out i itself. */
  function Partners(i: nat, js: seq<nat>): seq<(nat, nat)> {
    if js == [] then []
    else (if js[0] == i then [] else [(i, js[0])]) + Partners(i, js[1..])
  }

  /** The pairs contributed by the first `k` segments. */
  function PairsFrom(segs: seq<Segment>, index: map<nat, seq<nat>>, k: nat): seq<(nat, nat)>
    requires k <= |segs|
  {
    if k == 0 then []
    else PairsFrom(segs, index, k - 1) + Partners(k - 1, Lookup(index, segs[k - 1].end))
  }

  /** Every ordered pair (i, j) of distinct segments where segment i ends at
      the hit where segment j starts, each once. */
  function SegmentAdjacentPairs(segs: seq<Segment>): (pairs: seq<(nat, nat)>)
    ensures forall p :: p in pairs <==> Adjacent(segs, p.0, p.1)
    ensures Distinct(pairs)
  {
    PairsFromSpec(segs, |segs|);
    PairsFrom(segs, StartIndex(segs, |segs|), |segs|)
  }

  /** No pair appears twice. */
  predicate Distinct<T(==)>(s: seq<T>) {
    forall a, b :: 0 <= a < b < |s| ==> s[a] != s[b]
  }

  lemma {:induction false} PartnersSpec(i: nat, js: seq<nat>)
    requires Increasing(js)
    ensures forall p :: p in Partners(i, js) <==> p.0 == i && p.1 != i && p.1 in js
    ensures Distinct(Partners(i, js))
  {
    if js != [] {
      var rest := js[1..];
      assert Increasing(rest);
      PartnersSpec(i, rest);
      assert forall q :: q in rest ==> js[0] < q;
      assert js == [js[0]] + rest;
    }
  }

  lemma DistinctConcat<T>(s: seq<T>, t: seq<T>)
    requires Distinct(s) && Distinct(t)
    requires forall p :: p in s ==> p !in t
    ensures Distinct(s + t)
  {
    forall a, b | 0 <= a < b < |s + t|
      ensures (s + t)[a] != (s + t)[b]
    {
      if b >= |s| && a < |s| {
        assert (s + t)[a] in s && (s + t)[b] in t;
      }
    }
  }

  lemma {:induction false} PairsFromSpec(segs: seq<Segment>, k: nat)
    requires k <= |segs|
    ensures forall p :: p in PairsFrom(segs, StartIndex(segs, |segs|), k)
                   <==> p.0 < k && Adjacent(segs, p.0, p.1)
    ensures Distinct(PairsFrom(segs, StartIndex(segs, |segs|), k))
  {
    if k > 0 {
      var index := StartIndex(segs, |segs|);
      var i := k - 1;
      PairsFromSpec(segs, i);
      StartIndexSpec(segs, |segs|, segs[i].end);
      PartnersSpec(i, Lookup(index, segs[i].end));
      DistinctConcat(PairsFrom(segs, index, i), Partners(i, Lookup(index, segs[i].end)));
    }
  }

  /** All adjacent pairs of a segment list. */
  ghost function AdjacentSet(segs: seq<Segment>): set<(nat, nat)> {
    set i: nat, j: nat | i < |segs| && j < |segs| && Adjacent(segs, i, j) :: (i, j)
  }

  /** The pairs reported are exactly the adjacent pairs, each once: as a set
      they are AdjacentSet, and there are as many of them as adjacent pairs. */
  lemma AdjacentPairsExact(segs: seq<Segment>)
    ensures (set p | p in SegmentAdjacentPairs(segs)) == AdjacentSet(segs)
    ensures |SegmentAdjacentPairs(segs)| == |AdjacentSet(segs)|
  {
    var r := SegmentAdjacentPairs(segs);
    assert (set p | p in r) == AdjacentSet(segs) by {
      forall p | p in AdjacentSet(segs) ensures p in r {
      }
    }
    DistinctCount(r);
  }

  /** A sequence without repetitions has as many elements as its set. */
  lemma {:induction false} DistinctCount<T>(s: seq<T>)
    requires Distinct(s)
    ensures |s| == |set p | p in s|
  {
    if s != [] {
      var rest := s[..|s| - 1];
      var last := s[|s| - 1];
      assert Distinct(rest);
      DistinctCount(rest);
      assert (set p | p in s) == (set p | p in rest) + {last} by {
        assert s == rest + [last];
      }
      assert last !in rest;
    }
  }
}
