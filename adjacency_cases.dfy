/**
  The adjacency finder on the segment tables of test_segment_adjacent_pairs
  and test_curvature_energy_matrix in curvature_test.py. The finder
  promises no order, so each case states the set of pairs and its size.
*/
module AdjacencyCases {
  import opened Adjacency

  /** No segments, no pairs. */
  lemma Empty()
    ensures SegmentAdjacentPairs([]) == []
  {
  }

  /** Segments 1->3, 1->4 and 2->3: no segment ends where another starts. */
  lemma NoChain()
    ensures SegmentAdjacentPairs([Segment(1, 3), Segment(1, 4), Segment(2, 3)]) == []
  {
    var segs := [Segment(1, 3), Segment(1, 4), Segment(2, 3)];
    AdjacentPairsExact(segs);
    assert AdjacentSet(segs) == {} by {
      forall i: nat, j: nat | i < 3 && j < 3
        ensures !Adjacent(segs, i, j)
      {
        assert i == 0 || i == 1 || i == 2;
      }
    }
  }

  /** Adding 3->4 lets both segments that end at hit 3 chain into it. */
  lemma TwoIntoOne()
    ensures (set p | p in SegmentAdjacentPairs([Segment(1, 3), Segment(1, 4), Segment(2, 3), Segment(3, 4)]))
         == {(0, 3), (2, 3)}
    ensures |SegmentAdjacentPairs([Segment(1, 3), Segment(1, 4), Segment(2, 3), Segment(3, 4)])| == 2
  {
    var segs := [Segment(1, 3), Segment(1, 4), Segment(2, 3), Segment(3, 4)];
    AdjacentPairsExact(segs);
    assert AdjacentSet(segs) == {(0, 3), (2, 3)} by {
      forall p | p in AdjacentSet(segs) ensures p == (0, 3) || p == (2, 3) {
        assert p.0 == 0 || p.0 == 1 || p.0 == 2 || p.0 == 3;
        assert p.1 == 0 || p.1 == 1 || p.1 == 2 || p.1 == 3;
      }
      assert Adjacent(segs, 0, 3) && Adjacent(segs, 2, 3);
    }
  }

  /** Two segments off the position table, then a fan-out from hit 1. */
  function FanOutSegments(): seq<Segment> {
    [Segment(7, 11), Segment(7, 12), Segment(0, 1), Segment(1, 2),
     Segment(1, 3), Segment(1, 4), Segment(2, 5), Segment(3, 6)]
  }

  /** Segment 2 (0->1) chains into 3, 4 and 5; 3 (1->2) into 6 and 4
      (1->3) into 7. */
  lemma FanOutAdjacentSet()
    ensures AdjacentSet(FanOutSegments()) == {(2, 3), (2, 4), (2, 5), (3, 6), (4, 7)}
  {
    var segs := FanOutSegments();
    forall p | p in AdjacentSet(segs) ensures p in {(2, 3), (2, 4), (2, 5), (3, 6), (4, 7)} {
      var i, j := p.0, p.1;
      assert i == 2 || i == 3 || i == 4 by {
        assert i == 0 || i == 1 || i == 2 || i == 3 || i == 4 || i == 5 || i == 6 || i == 7;
      }
      assert j == 0 || j == 1 || j == 2 || j == 3 || j == 4 || j == 5 || j == 6 || j == 7;
    }
    assert Adjacent(segs, 2, 3) && Adjacent(segs, 2, 4) && Adjacent(segs, 2, 5);
    assert Adjacent(segs, 3, 6) && Adjacent(segs, 4, 7);
  }

  /** The finder returns exactly the five chaining pairs of the fan-out. */
  lemma FanOut()
    ensures (set p | p in SegmentAdjacentPairs(FanOutSegments())) == {(2, 3), (2, 4), (2, 5), (3, 6), (4, 7)}
    ensures |SegmentAdjacentPairs(FanOutSegments())| == 5
  {
    AdjacentPairsExact(FanOutSegments());
    FanOutAdjacentSet();
  }
}
