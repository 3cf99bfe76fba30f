// What sortPlaylist (util/PlaylistParser.java:113-179) promises about its
// result, stated over the specification functions of PlaylistSort: where the
// anchor comes from, which tracks are flagged, and that the result is the
// matching group in playlist order followed by the first occurrence of every
// other track.

module SortProperties {
  import opened Wrappers
  import ListSort
  import opened Tracks
  import opened PlaylistParser
  import opened PlaylistSort

  // ---------------------------------------------------------------------------
  // The matching group

  /**
   * The group the call puts first is the matching positions in playlist order
   * (the comparator never reports a descending pair), the anchor is among
   * them, and the remaining positions follow.
   */
  lemma {:induction false} MatchedGroupFirst(vals: seq<TrackData>, trackId: JString, harmonies: map<string, seq<string>>)
    requires Sorted(vals, trackId, harmonies).Ok?
    ensures var anchor := FindAnchor(vals, trackId, harmonies).value;
            var matched := MatchPositions(vals, anchor.code, anchor.neighbours, |vals|);
            anchor.index in matched &&
            Sorted(vals, trackId, harmonies).value ==
              matched + Tail(FlagsAfter(vals, trackId, harmonies), matched, trackId, |vals|)
  {
    var anchor := FindAnchor(vals, trackId, harmonies).value;
    var matched := MatchPositions(vals, anchor.code, anchor.neighbours, |vals|);
    assert Matches(vals[anchor.index], anchor.code, anchor.neighbours);
    TempoOrderNeverNegative(vals);
    ListSort.SortKeepsOrder(matched, TempoOrder(vals));
  }

  /**
   * The sort throws exactly when the matching group has two or more tracks
   * and one of them has a tempo that does not parse; a group of one track is
   * never compared.
   */
  lemma {:induction false} TempoFailure(vals: seq<TrackData>, trackId: JString, harmonies: map<string, seq<string>>)
    requires Matching(vals, trackId, harmonies).Ok?
    ensures Sorted(vals, trackId, harmonies) == Err(BadTempo) <==>
              |Matching(vals, trackId, harmonies).value| >= 2 &&
              exists i :: 0 <= i < |Matching(vals, trackId, harmonies).value| &&
                          vals[Matching(vals, trackId, harmonies).value[i]].bpm.None?
  {
    var matched := Matching(vals, trackId, harmonies).value;
    TempoOrderNeverNegative(vals);
    ListSort.SortKeepsOrder(matched, TempoOrder(vals));
    TemposComparable(vals, matched);
  }

  /**
   * Every way the call ends: a null id, a missing anchor, an anchor code
   * without neighbours, a null code anywhere in the playlist, or an
   * unparsable tempo in a group of two or more; it returns exactly when none
   * of these happens.
   */
  lemma SortOutcome(vals: seq<TrackData>, trackId: JString, harmonies: map<string, seq<string>>)
    ensures Sorted(vals, trackId, harmonies) == Err(NullTrackId) <==> exists k :: 0 <= k < |vals| && vals[k].id.None?
    ensures Sorted(vals, trackId, harmonies) == Err(AnchorNotFound) <==>
              AllIds(vals) && forall k :: 0 <= k < |vals| ==> !HasId(vals[k], trackId)
    ensures Sorted(vals, trackId, harmonies) == Err(NoHarmonies) <==>
              LocateAnchor(vals, trackId).Ok? &&
              (vals[LocateAnchor(vals, trackId).value].camelot.None? ||
               vals[LocateAnchor(vals, trackId).value].camelot.value !in harmonies)
    ensures Sorted(vals, trackId, harmonies) == Err(NullCamelot) <==>
              FindAnchor(vals, trackId, harmonies).Ok? && exists k :: 0 <= k < |vals| && vals[k].camelot.None?
    ensures Sorted(vals, trackId, harmonies).Ok? <==>
              FindAnchor(vals, trackId, harmonies).Ok? && (forall k :: 0 <= k < |vals| ==> vals[k].camelot.Some?) &&
              (|Matching(vals, trackId, harmonies).value| < 2 ||
               forall i :: 0 <= i < |Matching(vals, trackId, harmonies).value| ==>
                 vals[Matching(vals, trackId, harmonies).value[i]].bpm.Some?)
  {
    if Matching(vals, trackId, harmonies).Ok? {
      TempoFailure(vals, trackId, harmonies);
    }
  }

  /** Neighbours of a group of two or more all get compared, so every tempo is parsed. */
  lemma TemposComparable(vals: seq<TrackData>, ps: seq<nat>)
    requires forall i :: 0 <= i < |ps| ==> ps[i] < |vals|
    ensures ListSort.AdjacentComparable(ps, TempoOrder(vals)) <==>
              |ps| < 2 || forall i :: 0 <= i < |ps| ==> vals[ps[i]].bpm.Some?
  {
    if |ps| >= 2 && ListSort.AdjacentComparable(ps, TempoOrder(vals)) {
      forall i | 0 <= i < |ps|
        ensures vals[ps[i]].bpm.Some?
      {
        if i == 0 {
          assert TempoOrder(vals)(ps[1], ps[0]).Some?;
        } else {
          assert TempoOrder(vals)(ps[i], ps[i - 1]).Some?;
        }
      }
    }
  }

  /**
   * A successful call flags exactly the tracks that were flagged or match the
   * anchor; it changes no other field.
   */
  lemma FlaggedExactly(vals: seq<TrackData>, trackId: JString, harmonies: map<string, seq<string>>)
    requires Sorted(vals, trackId, harmonies).Ok?
    ensures var anchor := FindAnchor(vals, trackId, harmonies).value;
            forall k :: 0 <= k < |vals| ==>
              FlagsAfter(vals, trackId, harmonies)[k] ==
                vals[k].(matched := vals[k].matched || Matches(vals[k], anchor.code, anchor.neighbours))
  {
    var anchor := FindAnchor(vals, trackId, harmonies).value;
    assert Scanned(vals, trackId, harmonies) == |vals|;
  }

  /** The call only ever sets flags, so clearing them undoes it. */
  lemma ClearFlagsAfter(vals: seq<TrackData>, trackId: JString, harmonies: map<string, seq<string>>)
    ensures ClearFlags(FlagsAfter(vals, trackId, harmonies)) == ClearFlags(vals)
  {
    var flagged := FlagsAfter(vals, trackId, harmonies);
    assert forall k :: 0 <= k < |vals| ==> ClearFlags(flagged)[k] == ClearFlags(vals)[k];
  }

  // ---------------------------------------------------------------------------
  // The appended tail

  lemma PickConcat<T>(s: seq<T>, a: seq<nat>, b: seq<nat>)
    requires forall i :: 0 <= i < |a| ==> a[i] < |s|
    requires forall i :: 0 <= i < |b| ==> b[i] < |s|
    ensures Pick(s, a + b) == Pick(s, a) + Pick(s, b)
  {
  }

  /** The first position holding the value at `q`. */
  lemma {:induction false} EarliestEqual(f: seq<TrackData>, q: nat)
    requires q < |f|
    ensures exists q0 :: 0 <= q0 <= q && f[q0] == f[q] && forall earlier :: 0 <= earlier < q0 ==> f[earlier] != f[q]
  {
    if exists earlier :: 0 <= earlier < q && f[earlier] == f[q] {
      var earlier :| 0 <= earlier < q && f[earlier] == f[q];
      EarliestEqual(f, earlier);
    } else {
      assert f[q] == f[q];
    }
  }

  /**
   * A position is appended exactly when its value equals none of the group's
   * values and none at an earlier position, and its id is not the anchor's:
   * the tail is the first occurrence of every other track, in playlist order.
   */
  lemma {:induction false} TailMembers(flagged: seq<TrackData>, head: seq<nat>, trackId: JString, n: nat, p: nat)
    requires p < n <= |flagged|
    requires forall i :: 0 <= i < |head| ==> head[i] < |flagged|
    ensures p in Tail(flagged, head, trackId, n) <==>
              flagged[p] !in Pick(flagged, head) && flagged[p].id != trackId &&
              forall q :: 0 <= q < p ==> flagged[q] != flagged[p]
    decreases 3 * n + 1
  {
    if p < n - 1 {
      TailMembers(flagged, head, trackId, n - 1, p);
    } else {
      TailLast(flagged, head, trackId, n);
    }
  }

  /** TailMembers for the last of the first `n` positions. */
  lemma {:induction false} TailLast(flagged: seq<TrackData>, head: seq<nat>, trackId: JString, n: nat)
    requires 0 < n <= |flagged|
    requires forall i :: 0 <= i < |head| ==> head[i] < |flagged|
    ensures var p := n - 1;
            p in Tail(flagged, head, trackId, n) <==>
              flagged[p] !in Pick(flagged, head) && flagged[p].id != trackId &&
              forall q :: 0 <= q < p ==> flagged[q] != flagged[p]
    decreases 3 * n
  {
    var p := n - 1;
    var ps := Tail(flagged, head, trackId, p);
    assert p !in ps;
    PickConcat(flagged, head, ps);
    assert p in Tail(flagged, head, trackId, n) <==>
           !(flagged[p] in Pick(flagged, head) || flagged[p] in Pick(flagged, ps) || flagged[p].id == trackId);
    if flagged[p] !in Pick(flagged, head) && flagged[p].id != trackId {
      EarlierInTail(flagged, head, trackId, p, flagged[p]);
    }
  }

  /**
   * A value that is not among the group's and does not carry the anchor's id
   * is among the tail's values exactly when it occurs among the first `n`.
   */
  lemma {:induction false} EarlierInTail(flagged: seq<TrackData>, head: seq<nat>, trackId: JString, n: nat, v: TrackData)
    requires n <= |flagged|
    requires forall i :: 0 <= i < |head| ==> head[i] < |flagged|
    requires v !in Pick(flagged, head) && v.id != trackId
    ensures v in Pick(flagged, Tail(flagged, head, trackId, n)) <==> exists q :: 0 <= q < n && flagged[q] == v
    decreases 3 * n + 2
  {
    var ps := Tail(flagged, head, trackId, n);
    if exists q :: 0 <= q < n && flagged[q] == v {
      var q :| 0 <= q < n && flagged[q] == v;
      EarliestEqual(flagged, q);
      var q0 :| 0 <= q0 <= q && flagged[q0] == flagged[q] && forall earlier :: 0 <= earlier < q0 ==> flagged[earlier] != flagged[q];
      TailMembers(flagged, head, trackId, n, q0);
      var i :| 0 <= i < |ps| && ps[i] == q0;
      assert Pick(flagged, ps)[i] == v;
    }
  }

  /** A position in the tail is never one of the group's. */
  lemma TailAvoidsHead(flagged: seq<TrackData>, head: seq<nat>, trackId: JString, n: nat, i: nat, p: nat)
    requires n <= |flagged| && i < |head|
    requires forall i :: 0 <= i < |head| ==> head[i] < |flagged|
    requires p in Tail(flagged, head, trackId, n)
    ensures head[i] != p
  {
    TailMembers(flagged, head, trackId, n, p);
    assert Pick(flagged, head)[i] == flagged[head[i]];
  }

  /** A strictly increasing group followed by its tail lists no position twice. */
  lemma DistinctPositions(flagged: seq<TrackData>, head: seq<nat>, trackId: JString, n: nat)
    requires n <= |flagged|
    requires forall i :: 0 <= i < |head| ==> head[i] < |flagged|
    requires forall i, j :: 0 <= i < j < |head| ==> head[i] < head[j]
    ensures var order := head + Tail(flagged, head, trackId, n);
            forall i, j :: 0 <= i < j < |order| ==> order[i] != order[j]
  {
    var tail := Tail(flagged, head, trackId, n);
    var order := head + tail;
    forall i, j | 0 <= i < j < |order|
      ensures order[i] != order[j]
    {
      if i < |head| <= j {
        TailAvoidsHead(flagged, head, trackId, n, i, tail[j - |head|]);
      }
    }
  }

  /**
   * With unique ids, and a group holding the position with the anchor's id,
   * every position is in the group or in the tail.
   */
  lemma AllPositions(flagged: seq<TrackData>, head: seq<nat>, trackId: JString, n: nat, anchor: nat)
    requires n <= |flagged|
    requires forall i :: 0 <= i < |head| ==> head[i] < |flagged|
    requires forall i, j :: 0 <= i < j < |flagged| ==> flagged[i].id != flagged[j].id
    requires anchor in head && flagged[anchor].id == trackId
    ensures forall k :: 0 <= k < n ==> k in head + Tail(flagged, head, trackId, n)
  {
    forall k | 0 <= k < n && k !in head
      ensures k in Tail(flagged, head, trackId, n)
    {
      TailMembers(flagged, head, trackId, n, k);
      forall i | 0 <= i < |head|
        ensures Pick(flagged, head)[i] != flagged[k]
      {
      }
    }
  }

  // ---------------------------------------------------------------------------
  // Shape of the result

  /** The result lists no position twice; in particular the anchor appears exactly once. */
  lemma NoPositionTwice(vals: seq<TrackData>, trackId: JString, harmonies: map<string, seq<string>>)
    requires Sorted(vals, trackId, harmonies).Ok?
    ensures var order := Sorted(vals, trackId, harmonies).value;
            forall i, j :: 0 <= i < j < |order| ==> order[i] != order[j]
  {
    MatchedGroupFirst(vals, trackId, harmonies);
    var anchor := FindAnchor(vals, trackId, harmonies).value;
    var matched := MatchPositions(vals, anchor.code, anchor.neighbours, |vals|);
    DistinctPositions(FlagsAfter(vals, trackId, harmonies), matched, trackId, |vals|);
  }

  /**
   * With unique ids the result is a permutation of the playlist's positions:
   * every position appears, none twice, and there are exactly as many
   * entries as tracks.
   */
  lemma UniqueIdsPermutation(vals: seq<TrackData>, trackId: JString, harmonies: map<string, seq<string>>)
    requires Sorted(vals, trackId, harmonies).Ok?
    requires forall i, j :: 0 <= i < j < |vals| ==> vals[i].id != vals[j].id
    ensures forall k :: 0 <= k < |vals| ==> k in Sorted(vals, trackId, harmonies).value
    ensures var order := Sorted(vals, trackId, harmonies).value;
            |order| == |vals| && forall i, j :: 0 <= i < j < |order| ==> order[i] != order[j]
  {
    MatchedGroupFirst(vals, trackId, harmonies);
    var anchor := FindAnchor(vals, trackId, harmonies).value;
    var matched := MatchPositions(vals, anchor.code, anchor.neighbours, |vals|);
    var flagged := FlagsAfter(vals, trackId, harmonies);
    assert forall i :: 0 <= i < |vals| ==> flagged[i].id == vals[i].id;
    AllPositions(flagged, matched, trackId, |vals|, anchor.index);
    NoPositionTwice(vals, trackId, harmonies);
    DistinctCovering(Sorted(vals, trackId, harmonies).value, |vals|);
  }

  /** A repetition-free list of positions below `n` that holds each of them has exactly `n` entries. */
  lemma {:induction false} DistinctCovering(order: seq<nat>, n: nat)
    requires forall i :: 0 <= i < |order| ==> order[i] < n
    requires forall i, j :: 0 <= i < j < |order| ==> order[i] != order[j]
    requires forall k :: 0 <= k < n ==> k in order
    ensures |order| == n
  {
    if n > 0 {
      var top := n - 1;
      assert top in order;
      var t :| 0 <= t < |order| && order[t] == top;
      var rest := order[..t] + order[t + 1..];
      assert forall i :: 0 <= i < |rest| ==> rest[i] == order[if i < t then i else i + 1];
      forall k | 0 <= k < top
        ensures k in rest
      {
        assert k in order;
        var i :| 0 <= i < |order| && order[i] == k;
        assert i != t;
        assert rest[if i < t then i else i - 1] == k;
      }
      DistinctCovering(rest, top);
    }
  }

  // ---------------------------------------------------------------------------
  // The ordering the tempo comparator evidently intended. This is NOT what
  // sortPlaylist does: its comparator (PlaylistParser.java:158-168) measures
  // two matching tracks against each other, never against the anchor, and
  // never returns a negative value, so the group keeps its playlist order.

  /** How far the tempo at position `p` is from `anchorBpm`; 0 for an unknown tempo. */
  function TempoDistance(vals: seq<TrackData>, anchorBpm: real): nat -> real {
    (p: nat) => if p < |vals| && vals[p].bpm.Some? then
           (if vals[p].bpm.value >= anchorBpm then vals[p].bpm.value - anchorBpm else anchorBpm - vals[p].bpm.value)
         else 0.0
  }

  /** The intended ordering: a stable sort of the group by distance from the anchor's tempo. */
  lemma IntendedTempoOrder(vals: seq<TrackData>, group: seq<nat>, anchorBpm: real)
    ensures var r := ListSort.Sort(group, ListSort.ByKey(TempoDistance(vals, anchorBpm)));
            r.Some? &&
            ListSort.SortedBy(r.value, TempoDistance(vals, anchorBpm)) &&
            multiset(r.value) == multiset(group)
  {
    ListSort.SortByKey(group, TempoDistance(vals, anchorBpm));
  }

  /** Three matching tracks at 100, 140 and 120 BPM, the first being the anchor. */
  function ThreeTempos(): seq<TrackData> {
    [Blank.(bpm := Some(100.0)), Blank.(bpm := Some(140.0)), Blank.(bpm := Some(120.0))]
  }

  /** The source keeps the three tracks in playlist order. */
  lemma SourceKeepsThreeTempos()
    ensures var group: seq<nat> := [0, 1, 2];
            ListSort.Sort(group, TempoOrder(ThreeTempos())) == Some(group)
  {
    var group: seq<nat> := [0, 1, 2];
    var cmp := TempoOrder(ThreeTempos());
    TempoOrderNeverNegative(ThreeTempos());
    ListSort.SortKeepsOrder(group, cmp);
    assert cmp(1, 0).Some? && cmp(2, 1).Some?;
    assert ListSort.AdjacentComparable(group, cmp);
  }

  /** The intended comparator on the three tracks, anchored at 100 BPM. */
  function IntendedThreeKey(): ListSort.Comparator<nat> {
    ListSort.ByKey(TempoDistance(ThreeTempos(), 100.0))
  }

  /** Distances 0, 40 and 20 from the anchor's 100 BPM. */
  lemma ThreeDistances()
    ensures IntendedThreeKey()(1, 0) == Some(1)
    ensures IntendedThreeKey()(2, 1) == Some(-1)
    ensures IntendedThreeKey()(2, 0) == Some(1)
  {
    var d := TempoDistance(ThreeTempos(), 100.0);
    assert d(0) == 0.0 && d(1) == 40.0 && d(2) == 20.0;
  }

  /** The first two tracks stay in order. */
  lemma IntendedKeepsFirstTwo()
    ensures var both: seq<nat> := [0, 1];
            ListSort.Sort(both, IntendedThreeKey()) == Some(both)
  {
    var key := IntendedThreeKey();
    ThreeDistances();
    var first: seq<nat> := [0];
    var both: seq<nat> := [0, 1];
    assert both[..1] == first && first[..0] == [];
    assert ListSort.Sort(first, key) == Some(first);
    assert ListSort.Insert(1, first, key) == Some(first + [1]) && first + [1] == both;
  }

  /** The third track goes between the first two. */
  lemma IntendedInsertsThird()
    ensures var both: seq<nat> := [0, 1];
            var reordered: seq<nat> := [0, 2, 1];
            ListSort.Insert(2, both, IntendedThreeKey()) == Some(reordered)
  {
    var key := IntendedThreeKey();
    ThreeDistances();
    var first: seq<nat> := [0];
    var both: seq<nat> := [0, 1];
    assert both[..1] == first;
    assert ListSort.Insert(2, first, key) == Some(first + [2]);
    assert (first + [2]) + [1] == [0, 2, 1];
  }

  /** The intended ordering moves the 120 BPM track before the 140 BPM one. */
  lemma IntendedReordersThreeTempos()
    ensures var group: seq<nat> := [0, 1, 2];
            var reordered: seq<nat> := [0, 2, 1];
            ListSort.Sort(group, ListSort.ByKey(TempoDistance(ThreeTempos(), 100.0))) == Some(reordered)
  {
    var group: seq<nat> := [0, 1, 2];
    var both: seq<nat> := [0, 1];
    assert group[..2] == both;
    IntendedKeepsFirstTwo();
    IntendedInsertsThird();
  }
}
