// The harmonic ordering of util/PlaylistParser.java (sortPlaylist): find the
// anchor track, flag every track whose Camelot code is the anchor's or one of
// its neighbours, put those first and append the rest in playlist order.
//
// The specification works on positions: `Sorted` says which positions of the
// playlist the result holds, in order, and `FlagsAfter` what the track values
// are once the flags are set. The method works on the track objects.

module PlaylistSort {
  import opened Wrappers
  import Camelot
  import ListSort
  import opened Tracks
  import opened PlaylistParser

  /** The elements of `s` at the positions `ps`, in the order of `ps`. */
  function Pick<T>(s: seq<T>, ps: seq<nat>): seq<T>
    requires forall i :: 0 <= i < |ps| ==> ps[i] < |s|
  {
    seq(|ps|, i requires 0 <= i < |ps| => s[ps[i]])
  }

  // ---------------------------------------------------------------------------
  // Anchor lookup (PlaylistParser.java:141-148)

  /** The track's id equals `trackId` (a non-null id never equals null). */
  predicate HasId(v: TrackData, trackId: JString) {
    v.id.Some? && v.id == trackId
  }

  /** No track id is null; a null one makes `getId().equals(...)` throw. */
  predicate AllIds(vals: seq<TrackData>) {
    forall k :: 0 <= k < |vals| ==> vals[k].id.Some?
  }

  /** The last of the first `n` positions whose track has the id. */
  function LastWithId(vals: seq<TrackData>, trackId: JString, n: nat): (r: Option<nat>)
    requires n <= |vals|
    ensures r.Some? ==> r.value < n && HasId(vals[r.value], trackId)
    ensures forall k :: (if r.Some? then r.value + 1 else 0) <= k < n ==> !HasId(vals[k], trackId)
  {
    if n == 0 then None
    else if HasId(vals[n - 1], trackId) then Some(n - 1)
    else LastWithId(vals, trackId, n - 1)
  }

  /**
   * The anchor's position, or why the lookup loop (or the dereference after
   * it) throws: any null id throws, and otherwise the last track with the id
   * is the anchor.
   */
  function LocateAnchor(vals: seq<TrackData>, trackId: JString): (r: Result<nat, Failure>)
    ensures r == Err(NullTrackId) <==> exists k :: 0 <= k < |vals| && vals[k].id.None?
    ensures r == Err(AnchorNotFound) <==> AllIds(vals) && forall k :: 0 <= k < |vals| ==> !HasId(vals[k], trackId)
    ensures r.Err? ==> r.error == NullTrackId || r.error == AnchorNotFound
    ensures r.Ok? ==> r.value < |vals| && HasId(vals[r.value], trackId) &&
                      forall k :: r.value < k < |vals| ==> !HasId(vals[k], trackId)
  {
    if !AllIds(vals) then Err(NullTrackId)
    else
      match LastWithId(vals, trackId, |vals|)
      case None => Err(AnchorNotFound)
      case Some(a) => Ok(a)
  }

  /** What the matching needs of the anchor: its code and that code's neighbours. */
  datatype Anchor = Anchor(index: nat, code: string, neighbours: seq<string>)

  /** The anchor, or why the call fails before any flag is set. */
  function FindAnchor(vals: seq<TrackData>, trackId: JString, harmonies: map<string, seq<string>>): (r: Result<Anchor, Failure>)
    ensures r.Ok? ==> r.value.index < |vals| && vals[r.value.index].camelot == Some(r.value.code)
    ensures r.Ok? ==> LocateAnchor(vals, trackId) == Ok(r.value.index)
    ensures r.Ok? ==> r.value.code in harmonies && harmonies[r.value.code] == r.value.neighbours
    ensures LocateAnchor(vals, trackId).Err? ==> r == Err(LocateAnchor(vals, trackId).error)
    ensures LocateAnchor(vals, trackId).Ok? ==>
              (r.Ok? <==> vals[LocateAnchor(vals, trackId).value].camelot.Some? &&
                          vals[LocateAnchor(vals, trackId).value].camelot.value in harmonies)
    ensures LocateAnchor(vals, trackId).Ok? && r.Err? ==> r.error == NoHarmonies
  {
    match LocateAnchor(vals, trackId)
    case Err(e) => Err(e)
    case Ok(a) =>
      // a null or unknown code yields null neighbours, and the first
      // `contains` call of the matching loop throws
      match vals[a].camelot
      case None => Err(NoHarmonies)
      case Some(code) => if code in harmonies then Ok(Anchor(a, code, harmonies[code])) else Err(NoHarmonies)
  }

  /**
   * With the program's own table, the anchor lookup is `harmonies.get` of
   * the anchor's code: it succeeds exactly when `Neighbours` is non-null,
   * and then carries those neighbours.
   */
  lemma AnchorNeighbours(vals: seq<TrackData>, trackId: JString)
    requires LocateAnchor(vals, trackId).Ok?
    ensures var code := vals[LocateAnchor(vals, trackId).value].camelot;
            FindAnchor(vals, trackId, Camelot.Harmonies).Ok? <==> Camelot.Neighbours(code).Some?
    ensures var code := vals[LocateAnchor(vals, trackId).value].camelot;
            FindAnchor(vals, trackId, Camelot.Harmonies).Ok? ==>
              FindAnchor(vals, trackId, Camelot.Harmonies).value.neighbours == Camelot.Neighbours(code).value
  {
  }

  // ---------------------------------------------------------------------------
  // Matching (PlaylistParser.java:151-156)

  /** The test of line 152 for a track whose code is not null. */
  predicate Matches(v: TrackData, code: string, neighbours: seq<string>) {
    v.camelot.Some? && (v.camelot.value in neighbours || v.camelot.value == code)
  }

  /** How many leading positions of the first `n` have a code; `contains(null)` throws at the next one. */
  function CodedPrefix(vals: seq<TrackData>, n: nat): (m: nat)
    requires n <= |vals|
    ensures m <= n
    ensures forall k :: 0 <= k < m ==> vals[k].camelot.Some?
    ensures m < n ==> vals[m].camelot.None?
  {
    if n == 0 then 0
    else
      var m := CodedPrefix(vals, n - 1);
      if m < n - 1 || vals[n - 1].camelot.None? then m else n
  }

  /** The matching positions among the first `n`, in playlist order. */
  function MatchPositions(vals: seq<TrackData>, code: string, neighbours: seq<string>, n: nat): (ps: seq<nat>)
    requires n <= |vals|
    ensures forall i :: 0 <= i < |ps| ==> ps[i] < n && Matches(vals[ps[i]], code, neighbours)
    ensures forall i, j :: 0 <= i < j < |ps| ==> ps[i] < ps[j]
    ensures forall k :: 0 <= k < n && Matches(vals[k], code, neighbours) ==> k in ps
  {
    if n == 0 then []
    else
      var ps := MatchPositions(vals, code, neighbours, n - 1);
      if Matches(vals[n - 1], code, neighbours) then ps + [n - 1] else ps
  }

  lemma MatchPositionsStep(vals: seq<TrackData>, code: string, neighbours: seq<string>, n: nat)
    requires n < |vals|
    ensures MatchPositions(vals, code, neighbours, n + 1) ==
            if Matches(vals[n], code, neighbours) then MatchPositions(vals, code, neighbours, n) + [n]
            else MatchPositions(vals, code, neighbours, n)
  {
  }

  /** The values once the matching tracks among the first `n` are flagged. */
  function FlaggedUpTo(vals: seq<TrackData>, code: string, neighbours: seq<string>, n: nat): seq<TrackData> {
    seq(|vals|, k requires 0 <= k < |vals| =>
      if k < n && Matches(vals[k], code, neighbours) then vals[k].(matched := true) else vals[k])
  }

  // ---------------------------------------------------------------------------
  // The comparator (PlaylistParser.java:158-168)

  /**
   * `|bpm1 - bpm2|` mapped to 1 when positive, -1 when negative, else 0;
   * None when a tempo text does not parse.
   */
  function CompareTempo(bpm1: Option<real>, bpm2: Option<real>): (c: Option<int>)
    ensures c.Some? <==> bpm1.Some? && bpm2.Some?
    ensures c.Some? ==> c.value >= 0 && (c.value == 0 <==> bpm1 == bpm2)
  {
    if bpm1.None? || bpm2.None? then None
    else
      var diff := if bpm1.value >= bpm2.value then bpm1.value - bpm2.value else bpm2.value - bpm1.value;
      if diff > 0.0 then Some(1)
      else if diff < 0.0 then Some(-1)
      else Some(0)
  }

  /** The comparator on playlist positions. */
  function TempoOrder(vals: seq<TrackData>): ListSort.Comparator<nat> {
    (a: nat, b: nat) => if a < |vals| && b < |vals| then CompareTempo(vals[a].bpm, vals[b].bpm) else None
  }

  lemma TempoOrderNeverNegative(vals: seq<TrackData>)
    ensures ListSort.NeverNegative(TempoOrder(vals))
  {
    forall a: nat, b: nat | TempoOrder(vals)(a, b).Some?
      ensures TempoOrder(vals)(a, b).value >= 0
    {
      var c := CompareTempo(vals[a].bpm, vals[b].bpm);
    }
  }

  // ---------------------------------------------------------------------------
  // The unmatched tail (PlaylistParser.java:170-176)

  /**
   * The positions among the first `n` appended after `head`: those whose
   * value (with its flag) equals no value already in the list and whose id is
   * not the anchor's.
   */
  function Tail(flagged: seq<TrackData>, head: seq<nat>, trackId: JString, n: nat): (ps: seq<nat>)
    requires n <= |flagged|
    requires forall i :: 0 <= i < |head| ==> head[i] < |flagged|
    ensures forall i :: 0 <= i < |ps| ==> ps[i] < n
    ensures forall i, j :: 0 <= i < j < |ps| ==> ps[i] < ps[j]
  {
    if n == 0 then []
    else
      var ps := Tail(flagged, head, trackId, n - 1);
      if flagged[n - 1] in Pick(flagged, head + ps) || flagged[n - 1].id == trackId then ps
      else ps + [n - 1]
  }

  // ---------------------------------------------------------------------------
  // The whole call

  /**
   * The matching positions, in playlist order, or why the call throws before
   * sorting: a null id, no anchor, an anchor code without neighbours, or a
   * null code.
   */
  function Matching(vals: seq<TrackData>, trackId: JString, harmonies: map<string, seq<string>>): (r: Result<seq<nat>, Failure>)
    ensures r.Ok? ==> forall i :: 0 <= i < |r.value| ==> r.value[i] < |vals|
    ensures FindAnchor(vals, trackId, harmonies).Err? ==> r == Err(FindAnchor(vals, trackId, harmonies).error)
    ensures FindAnchor(vals, trackId, harmonies).Ok? ==>
              (r.Ok? <==> forall k :: 0 <= k < |vals| ==> vals[k].camelot.Some?)
    ensures FindAnchor(vals, trackId, harmonies).Ok? && r.Err? ==> r.error == NullCamelot
    ensures r.Ok? ==> r.value == MatchPositions(vals, FindAnchor(vals, trackId, harmonies).value.code,
                                                FindAnchor(vals, trackId, harmonies).value.neighbours, |vals|)
  {
    match FindAnchor(vals, trackId, harmonies)
    case Err(e) => Err(e)
    case Ok(anchor) =>
      if CodedPrefix(vals, |vals|) < |vals| then Err(NullCamelot)
      else Ok(MatchPositions(vals, anchor.code, anchor.neighbours, |vals|))
  }

  /**
   * The positions the result lists, in order, or why the call throws: a
   * failure of the matching, or (with two or more matching tracks) an
   * unparsable tempo.
   */
  function Sorted(vals: seq<TrackData>, trackId: JString, harmonies: map<string, seq<string>>): (r: Result<seq<nat>, Failure>)
    ensures r.Ok? ==> forall i :: 0 <= i < |r.value| ==> r.value[i] < |vals|
  {
    match Matching(vals, trackId, harmonies)
    case Err(e) => Err(e)
    case Ok(matched) =>
      TempoOrderNeverNegative(vals);
      ListSort.SortKeepsOrder(matched, TempoOrder(vals));
      match ListSort.Sort(matched, TempoOrder(vals))
      case None => Err(BadTempo)
      case Some(head) =>
        assert head == matched;
        Ok(head + Tail(FlagsAfter(vals, trackId, harmonies), head, trackId, |vals|))
  }

  /** How many positions the matching loop finishes before the call returns or throws. */
  function Scanned(vals: seq<TrackData>, trackId: JString, harmonies: map<string, seq<string>>): nat {
    match FindAnchor(vals, trackId, harmonies)
    case Err(_) => 0
    case Ok(_) => CodedPrefix(vals, |vals|)
  }

  /** The track at position `k` matches the anchor. */
  predicate Marked(vals: seq<TrackData>, trackId: JString, harmonies: map<string, seq<string>>, k: nat)
    requires k < |vals|
  {
    FindAnchor(vals, trackId, harmonies).Ok? &&
    Matches(vals[k], FindAnchor(vals, trackId, harmonies).value.code, FindAnchor(vals, trackId, harmonies).value.neighbours)
  }

  /**
   * The track values after a call whose matching succeeds (FlaggedExactly);
   * FlagsSet gives the flags in every case, including when the same object
   * appears twice and the matching throws.
   */
  function FlagsAfter(vals: seq<TrackData>, trackId: JString, harmonies: map<string, seq<string>>): (r: seq<TrackData>)
    ensures |r| == |vals|
    ensures forall k :: 0 <= k < |vals| ==> r[k] == vals[k].(matched := r[k].matched)
    ensures forall k :: 0 <= k < |vals| && vals[k].matched ==> r[k].matched
  {
    match FindAnchor(vals, trackId, harmonies)
    case Err(_) => vals
    case Ok(anchor) => FlaggedUpTo(vals, anchor.code, anchor.neighbours, CodedPrefix(vals, |vals|))
  }

  // ---------------------------------------------------------------------------
  // The method

  /** The anchor lookup loop. */
  method FindTrack(playlist: seq<MusicTrack>, trackId: JString) returns (r: Result<MusicTrack, Failure>)
    ensures r.Ok? <==> LocateAnchor(Values(playlist), trackId).Ok?
    ensures r.Ok? ==> LocateAnchor(Values(playlist), trackId).value < |playlist| &&
                      r.value == playlist[LocateAnchor(Values(playlist), trackId).value]
    ensures r.Err? ==> r.error == LocateAnchor(Values(playlist), trackId).error
  {
    ghost var vals := Values(playlist);
    var trackFind: MusicTrack? := null;
    ghost var found: Option<nat> := None;
    var i := 0;
    while i < |playlist|
      invariant 0 <= i <= |playlist|
      invariant forall k :: 0 <= k < i ==> vals[k].id.Some?
      invariant found == LastWithId(vals, trackId, i)
      invariant trackFind == if found.Some? then playlist[found.value] else null
    {
      if playlist[i].id.None? {
        return Err(NullTrackId);
      }
      if playlist[i].id == trackId {
        trackFind := playlist[i];
        found := Some(i);
      }
      i := i + 1;
    }
    if trackFind == null {
      return Err(AnchorNotFound);
    }
    return Ok(trackFind);
  }

  /** The object `t` is one of the first `n` of `ts`. */
  predicate OccursBefore(ts: seq<MusicTrack>, t: MusicTrack, n: nat)
    requires n <= |ts|
  {
    n > 0 && (ts[n - 1] == t || OccursBefore(ts, t, n - 1))
  }

  lemma {:induction false} OccursAt(ts: seq<MusicTrack>, k: nat, n: nat)
    requires k < n <= |ts|
    ensures OccursBefore(ts, ts[k], n)
  {
    if k < n - 1 {
      OccursAt(ts, k, n - 1);
    }
  }

  /** The `matched` flags of the objects in `ts`, in order. */
  ghost function Flags(ts: seq<MusicTrack>): (r: seq<bool>)
    reads set t | t in ts
    ensures |r| == |ts| && forall k :: 0 <= k < |ts| ==> r[k] == ts[k].matched
  {
    if ts == [] then [] else Flags(ts[..|ts| - 1]) + [ts[|ts| - 1].matched]
  }

  /**
   * What the matching loop has done after `i` positions, stated over the
   * flags `flags` of the objects: the first `i` codes were not null,
   * `positions` lists the matches among them, and an object is flagged
   * exactly when it was flagged before or matches and occurs among the
   * first `i` positions.
   */
  predicate ScanState(playlist: seq<MusicTrack>, flags: seq<bool>, vals: seq<TrackData>, code: string,
                      neighbours: seq<string>, i: nat, positions: seq<nat>)
  {
    i <= |playlist| == |vals| == |flags| &&
    (forall k :: 0 <= k < i ==> vals[k].camelot.Some?) &&
    positions == MatchPositions(vals, code, neighbours, i) &&
    forall k :: 0 <= k < |playlist| ==>
      flags[k] == (vals[k].matched || (Matches(vals[k], code, neighbours) && OccursBefore(playlist, playlist[k], i)))
  }

  /**
   * The matching loop's invariant on the objects themselves: `ScanState` with
   * the objects' current flags (written out on the heap so that the loop's
   * proof does not unfold `Flags`), and the objects' codes are those of `vals`.
   */
  ghost predicate Scanning(playlist: seq<MusicTrack>, vals: seq<TrackData>, code: string, neighbours: seq<string>,
                           i: nat, positions: seq<nat>)
    reads set t | t in playlist
  {
    i <= |playlist| == |vals| &&
    (forall k :: 0 <= k < i ==> vals[k].camelot.Some?) &&
    positions == MatchPositions(vals, code, neighbours, i) &&
    (forall k :: 0 <= k < |playlist| ==> playlist[k].camelot == vals[k].camelot) &&
    forall k :: 0 <= k < |playlist| ==>
      playlist[k].matched == (vals[k].matched || (Matches(vals[k], code, neighbours) && OccursBefore(playlist, playlist[k], i)))
  }

  /** One pass of the matching loop's body, at position `i`. */
  method MarkTrack(playlist: seq<MusicTrack>, vals: seq<TrackData>, code: string, neighbours: seq<string>,
                   i: nat, positions: seq<nat>) returns (r: Result<seq<nat>, Failure>)
    requires i < |playlist|
    requires Scanning(playlist, vals, code, neighbours, i, positions)
    modifies playlist`matched
    ensures r.Err? ==> MarkedAll(playlist, vals, code, neighbours, r)
    ensures r.Ok? ==> Scanning(playlist, vals, code, neighbours, i + 1, r.value)
  {
    var track := playlist[i];
    if track.camelot.None? {
      r := Err(NullCamelot);
      ScanEnd(playlist, vals, code, neighbours, i, positions, r);
      return;
    }
    ghost var flags := Flags(playlist);
    assert ScanState(playlist, flags, vals, code, neighbours, i, positions);
    if track.camelot.value in neighbours || code == track.camelot.value {
      track.matched := true;
      ghost var after := Flags(playlist);
      assert forall k :: 0 <= k < |playlist| ==> after[k] == (flags[k] || playlist[k] == track);
      assert ScanState(playlist, after, vals, code, neighbours, i + 1, positions + [i]) by {
        MatchPositionsStep(vals, code, neighbours, i);
        MarkStep(playlist, flags, after, vals, code, neighbours, i, positions);
      }
      return Ok(positions + [i]);
    }
    assert ScanState(playlist, flags, vals, code, neighbours, i + 1, positions) by {
      MatchPositionsStep(vals, code, neighbours, i);
      SkipStep(playlist, flags, vals, code, neighbours, i, positions);
    }
    return Ok(positions);
  }

  /** A matching position flags every occurrence of its object. */
  lemma MarkStep(playlist: seq<MusicTrack>, flags: seq<bool>, after: seq<bool>, vals: seq<TrackData>, code: string,
                 neighbours: seq<string>, i: nat, positions: seq<nat>)
    requires i < |playlist| && ScanState(playlist, flags, vals, code, neighbours, i, positions)
    requires forall k :: 0 <= k < |playlist| ==> playlist[k].camelot == vals[k].camelot
    requires vals[i].camelot.Some? && Matches(vals[i], code, neighbours)
    requires MatchPositions(vals, code, neighbours, i + 1) == positions + [i]
    requires |after| == |flags| && forall k :: 0 <= k < |playlist| ==> after[k] == (flags[k] || playlist[k] == playlist[i])
    ensures ScanState(playlist, after, vals, code, neighbours, i + 1, positions + [i])
  {
    forall k | 0 <= k < |playlist|
      ensures after[k] == (vals[k].matched || (Matches(vals[k], code, neighbours) && OccursBefore(playlist, playlist[k], i + 1)))
    {
      if playlist[k] == playlist[i] {
        assert vals[k].camelot == vals[i].camelot;
        assert OccursBefore(playlist, playlist[k], i + 1);
      } else {
        assert OccursBefore(playlist, playlist[k], i + 1) == OccursBefore(playlist, playlist[k], i);
      }
    }
  }

  /** A position whose code does not match flags nothing. */
  lemma SkipStep(playlist: seq<MusicTrack>, flags: seq<bool>, vals: seq<TrackData>, code: string,
                 neighbours: seq<string>, i: nat, positions: seq<nat>)
    requires i < |playlist| && ScanState(playlist, flags, vals, code, neighbours, i, positions)
    requires forall k :: 0 <= k < |playlist| ==> playlist[k].camelot == vals[k].camelot
    requires vals[i].camelot.Some? && !Matches(vals[i], code, neighbours)
    requires MatchPositions(vals, code, neighbours, i + 1) == positions
    ensures ScanState(playlist, flags, vals, code, neighbours, i + 1, positions)
  {
    forall k | 0 <= k < |playlist|
      ensures flags[k] == (vals[k].matched || (Matches(vals[k], code, neighbours) && OccursBefore(playlist, playlist[k], i + 1)))
    {
      if playlist[k] == playlist[i] {
        assert vals[k].camelot == vals[i].camelot;
      } else {
        assert OccursBefore(playlist, playlist[k], i + 1) == OccursBefore(playlist, playlist[k], i);
      }
    }
  }

  /**
   * What the matching loop leaves: it finishes exactly when no code is null,
   * returning the matching positions, and the objects flagged are those that
   * match and occur before the first null code (or anywhere, when there is
   * none).
   */
  ghost predicate MarkedAll(playlist: seq<MusicTrack>, vals: seq<TrackData>, code: string, neighbours: seq<string>,
                            r: Result<seq<nat>, Failure>)
    requires |playlist| == |vals|
    reads set t | t in playlist
  {
    (r.Ok? <==> CodedPrefix(vals, |vals|) == |vals|) &&
    (r.Ok? ==> r.value == MatchPositions(vals, code, neighbours, |vals|)) &&
    (r.Err? ==> r.error == NullCamelot) &&
    forall k :: 0 <= k < |playlist| ==>
      playlist[k].matched == (vals[k].matched ||
        (Matches(vals[k], code, neighbours) && OccursBefore(playlist, playlist[k], CodedPrefix(vals, |vals|))))
  }

  /** The matching loop: flags and collects the matching tracks, or meets a null code. */
  method MarkMatches(playlist: seq<MusicTrack>, vals: seq<TrackData>, code: string, neighbours: seq<string>)
    returns (r: Result<seq<nat>, Failure>)
    requires Scanning(playlist, vals, code, neighbours, 0, [])
    modifies playlist`matched
    ensures MarkedAll(playlist, vals, code, neighbours, r)
  {
    var positions: seq<nat> := [];
    var i := 0;
    while i < |playlist|
      invariant 0 <= i <= |playlist|
      invariant Scanning(playlist, vals, code, neighbours, i, positions)
    {
      var step := MarkTrack(playlist, vals, code, neighbours, i, positions);
      if step.Err? {
        return step;
      }
      positions := step.value;
      i := i + 1;
    }
    r := Ok(positions);
    ScanEnd(playlist, vals, code, neighbours, i, positions, r);
  }

  /** After the matching loop, finished or stopped by a null code at position `i`. */
  lemma ScanEnd(playlist: seq<MusicTrack>, vals: seq<TrackData>, code: string, neighbours: seq<string>,
                i: nat, positions: seq<nat>, r: Result<seq<nat>, Failure>)
    requires Scanning(playlist, vals, code, neighbours, i, positions)
    requires r.Err? ==> r.error == NullCamelot && i < |playlist| && vals[i].camelot.None?
    requires r.Ok? ==> i == |playlist| && r.value == positions
    ensures MarkedAll(playlist, vals, code, neighbours, r)
  {
  }

  /** Before the matching loop nothing is scanned. */
  lemma ScanStart(playlist: seq<MusicTrack>, vals: seq<TrackData>, code: string, neighbours: seq<string>)
    requires vals == Values(playlist)
    ensures Scanning(playlist, vals, code, neighbours, 0, [])
  {
  }

  /** What the tail loop has built after `i` positions. */
  ghost predicate Appending(playlist: seq<MusicTrack>, vals: seq<TrackData>, head: seq<nat>, anchorId: JString,
                            i: nat, result: seq<MusicTrack>, positions: seq<nat>)
  {
    i <= |playlist| == |vals| &&
    (forall k :: 0 <= k < |head| ==> head[k] < |playlist|) &&
    positions == head + Tail(vals, head, anchorId, i) &&
    (forall k :: 0 <= k < |positions| ==> positions[k] < |playlist|) &&
    result == Pick(playlist, positions)
  }

  /** One pass of the tail loop's body, at position `i`. */
  method AppendTrack(playlist: seq<MusicTrack>, vals: seq<TrackData>, head: seq<nat>, anchorId: JString,
                     i: nat, result: seq<MusicTrack>, positions: seq<nat>)
    returns (extended: seq<MusicTrack>, extendedPositions: seq<nat>)
    requires vals == Values(playlist) && i < |playlist|
    requires Appending(playlist, vals, head, anchorId, i, result, positions)
    ensures Appending(playlist, vals, head, anchorId, i + 1, extended, extendedPositions)
  {
    var track := playlist[i];
    ValuesOfPick(playlist, positions);
    TailStep(vals, head, anchorId, i);
    if track.Value() !in Values(result) && anchorId != track.id {
      PickAppend(playlist, positions, i);
      extended := result + [track];
      extendedPositions := positions + [i];
    } else {
      extended, extendedPositions := result, positions;
    }
  }

  /** Copies the sorted matching tracks and appends the others (PlaylistParser.java:170-176). */
  method AppendUnmatched(playlist: seq<MusicTrack>, head: seq<nat>, anchorId: JString) returns (result: seq<MusicTrack>)
    requires forall i :: 0 <= i < |head| ==> head[i] < |playlist|
    ensures var tail := Tail(Values(playlist), head, anchorId, |playlist|);
            (forall i :: 0 <= i < |tail| ==> tail[i] < |playlist|) &&
            result == Pick(playlist, head + tail)
  {
    var vals := Values(playlist);
    result := Pick(playlist, head);
    var positions := head;
    var i := 0;
    while i < |playlist|
      invariant 0 <= i <= |playlist|
      invariant Appending(playlist, vals, head, anchorId, i, result, positions)
    {
      result, positions := AppendTrack(playlist, vals, head, anchorId, i, result, positions);
      i := i + 1;
    }
  }

  lemma TailStep(flagged: seq<TrackData>, head: seq<nat>, trackId: JString, n: nat)
    requires n < |flagged|
    requires forall i :: 0 <= i < |head| ==> head[i] < |flagged|
    ensures var ps := Tail(flagged, head, trackId, n);
            head + Tail(flagged, head, trackId, n + 1) ==
            if flagged[n] in Pick(flagged, head + ps) || flagged[n].id == trackId then head + ps
            else (head + ps) + [n]
  {
  }

  lemma PickAppend<T>(s: seq<T>, ps: seq<nat>, p: nat)
    requires forall i :: 0 <= i < |ps| ==> ps[i] < |s|
    requires p < |s|
    ensures Pick(s, ps + [p]) == Pick(s, ps) + [s[p]]
  {
  }

  lemma ValuesOfPick(ts: seq<MusicTrack>, ps: seq<nat>)
    requires forall i :: 0 <= i < |ps| ==> ps[i] < |ts|
    ensures Values(Pick(ts, ps)) == Pick(Values(ts), ps)
  {
  }

  /**
   * The flags after the call, read from the objects: a track is flagged when
   * it was before, or when it matches the anchor and the object occurs among
   * the positions the matching loop finished (a track listed twice is one
   * object).
   */
  ghost predicate FlagsSet(playlist: seq<MusicTrack>, vals: seq<TrackData>, trackId: JString, harmonies: map<string, seq<string>>)
    reads set t | t in playlist
  {
    |playlist| == |vals| &&
    forall k :: 0 <= k < |playlist| ==>
      playlist[k].matched == (vals[k].matched ||
        (Marked(vals, trackId, harmonies, k) && OccursBefore(playlist, playlist[k], Scanned(vals, trackId, harmonies))))
  }

  /**
   * The state the matching leaves: the flags FlagsSet describes, the values
   * `FlagsAfter` describes once the matching succeeded, and no change but to
   * flags.
   */
  ghost predicate Flagged(playlist: seq<MusicTrack>, vals: seq<TrackData>, trackId: JString, harmonies: map<string, seq<string>>)
    reads set t | t in playlist
  {
    FlagsSet(playlist, vals, trackId, harmonies) &&
    (Matching(vals, trackId, harmonies).Ok? ==> Values(playlist) == FlagsAfter(vals, trackId, harmonies)) &&
    ClearFlags(Values(playlist)) == ClearFlags(vals)
  }

  /**
   * The anchor lookup and the matching loop: every track that matches before
   * the loop ends or throws is flagged, and on success the values are those
   * `FlagsAfter` describes.
   */
  method FlagMatches(playlist: seq<MusicTrack>, trackId: JString, harmonies: map<string, seq<string>>) returns (r: Result<seq<nat>, Failure>)
    modifies playlist`matched
    ensures r == Matching(old(Values(playlist)), trackId, harmonies)
    ensures Flagged(playlist, old(Values(playlist)), trackId, harmonies)
  {
    var before := Values(playlist);
    var found := FindTrack(playlist, trackId);
    if found.Err? {
      Untouched(playlist, trackId, harmonies);
      return Err(found.error);
    }
    var trackFind := found.value;
    // `harmonies.get` of a null or unknown code is null, and the first
    // `contains` call of the matching loop throws
    if trackFind.camelot.None? || trackFind.camelot.value !in harmonies {
      Untouched(playlist, trackId, harmonies);
      return Err(NoHarmonies);
    }
    var code := trackFind.camelot.value;
    assert FindAnchor(before, trackId, harmonies) == Ok(Anchor(LocateAnchor(before, trackId).value, code, harmonies[code]));
    ScanStart(playlist, before, code, harmonies[code]);
    r := MarkMatches(playlist, before, code, harmonies[code]);
    forall k | 0 <= k < |playlist|
      ensures playlist[k].Value() == before[k].(matched := playlist[k].matched)
    {
      assert playlist[k].Value() == old(playlist[k].Value()).(matched := playlist[k].matched);
    }
    MarkedState(playlist, before, trackId, harmonies, r);
  }

  /** When the anchor lookup throws, nothing is flagged. */
  lemma Untouched(playlist: seq<MusicTrack>, trackId: JString, harmonies: map<string, seq<string>>)
    requires FindAnchor(Values(playlist), trackId, harmonies).Err?
    ensures Flagged(playlist, Values(playlist), trackId, harmonies)
  {
  }

  /** The matching loop's outcome is the state `Flagged` describes. */
  lemma MarkedState(playlist: seq<MusicTrack>, before: seq<TrackData>, trackId: JString,
                    harmonies: map<string, seq<string>>, r: Result<seq<nat>, Failure>)
    requires |playlist| == |before|
    requires forall k :: 0 <= k < |playlist| ==> playlist[k].Value() == before[k].(matched := playlist[k].matched)
    requires FindAnchor(before, trackId, harmonies).Ok?
    requires var anchor := FindAnchor(before, trackId, harmonies).value;
             MarkedAll(playlist, before, anchor.code, anchor.neighbours, r)
    ensures r == Matching(before, trackId, harmonies)
    ensures Flagged(playlist, before, trackId, harmonies)
  {
    SameButFlags(playlist, before);
    if r.Ok? {
      FlaggedValues(playlist, before, trackId, harmonies);
    }
  }

  /** Tracks that differ from `before` in their flags only agree with it once the flags are cleared. */
  lemma SameButFlags(playlist: seq<MusicTrack>, before: seq<TrackData>)
    requires |playlist| == |before|
    requires forall k :: 0 <= k < |playlist| ==> playlist[k].Value() == before[k].(matched := playlist[k].matched)
    ensures ClearFlags(Values(playlist)) == ClearFlags(before)
  {
  }

  /** On success, the flags the matching sets give the values `FlagsAfter` describes. */
  lemma FlaggedValues(playlist: seq<MusicTrack>, before: seq<TrackData>, trackId: JString, harmonies: map<string, seq<string>>)
    requires |playlist| == |before| && Matching(before, trackId, harmonies).Ok?
    requires forall k :: 0 <= k < |playlist| ==> playlist[k].Value() == before[k].(matched := playlist[k].matched)
    requires FlagsSet(playlist, before, trackId, harmonies)
    ensures Values(playlist) == FlagsAfter(before, trackId, harmonies)
  {
    var anchor := FindAnchor(before, trackId, harmonies).value;
    assert Scanned(before, trackId, harmonies) == |before|;
    var flagged := FlaggedUpTo(before, anchor.code, anchor.neighbours, |before|);
    assert FlagsAfter(before, trackId, harmonies) == flagged;
    forall k | 0 <= k < |playlist|
      ensures playlist[k].Value() == flagged[k]
    {
      OccursAt(playlist, k, |playlist|);
      assert Marked(before, trackId, harmonies, k) == Matches(before[k], anchor.code, anchor.neighbours);
    }
    assert Values(playlist) == flagged;
  }

  /**
   * The body of sortPlaylist for a given adjacency table: the result lists the
   * tracks at the positions `Sorted` names; the flags are those FlagMatches
   * sets, and nothing but flags changes.
   */
  method SortWith(playlist: seq<MusicTrack>, trackId: JString, harmonies: map<string, seq<string>>) returns (r: Result<seq<MusicTrack>, Failure>)
    modifies playlist`matched
    ensures match Sorted(old(Values(playlist)), trackId, harmonies)
            case Ok(order) => r == Ok(Pick(playlist, order))
            case Err(e) => r == Err(e)
    ensures Flagged(playlist, old(Values(playlist)), trackId, harmonies)
  {
    var before := Values(playlist);
    var matched := FlagMatches(playlist, trackId, harmonies);
    if matched.Ok? {
      r := OrderMatched(playlist, before, trackId, harmonies, matched.value);
    } else {
      r := Err(matched.error);
    }
  }

  /**
   * After the matching, the sort either throws on a tempo or keeps the
   * matched group as it is, and the result is that group and then the tail.
   */
  lemma SortedOfMatched(vals: seq<TrackData>, trackId: JString, harmonies: map<string, seq<string>>, matched: seq<nat>)
    requires Matching(vals, trackId, harmonies) == Ok(matched)
    ensures ListSort.Sort(matched, TempoOrder(vals)).None? ==> Sorted(vals, trackId, harmonies) == Err(BadTempo)
    ensures ListSort.Sort(matched, TempoOrder(vals)).Some? ==>
              ListSort.Sort(matched, TempoOrder(vals)).value == matched &&
              Sorted(vals, trackId, harmonies) == Ok(matched + Tail(FlagsAfter(vals, trackId, harmonies), matched, trackId, |vals|))
  {
    TempoOrderNeverNegative(vals);
    ListSort.SortKeepsOrder(matched, TempoOrder(vals));
  }

  /** The ordering half of sortPlaylist, once the matching tracks are flagged. */
  method OrderMatched(playlist: seq<MusicTrack>, before: seq<TrackData>, trackId: JString,
                      harmonies: map<string, seq<string>>, matched: seq<nat>) returns (r: Result<seq<MusicTrack>, Failure>)
    requires Matching(before, trackId, harmonies) == Ok(matched)
    requires Values(playlist) == FlagsAfter(before, trackId, harmonies)
    ensures r.Ok? <==> Sorted(before, trackId, harmonies).Ok?
    ensures r.Ok? ==> r.value == Pick(playlist, Sorted(before, trackId, harmonies).value)
    ensures r.Err? ==> r.error == Sorted(before, trackId, harmonies).error
  {
    var sorted := ListSort.Sort(matched, TempoOrder(before));
    ghost var outcome := Sorted(before, trackId, harmonies);
    if sorted.None? {
      assert outcome == Err(BadTempo) by { SortedOfMatched(before, trackId, harmonies, matched); }
      return Err(BadTempo);
    }
    assert sorted.value == matched &&
           outcome == Ok(matched + Tail(Values(playlist), matched, trackId, |playlist|)) by {
      SortedOfMatched(before, trackId, harmonies, matched);
    }
    var result := AppendUnmatched(playlist, sorted.value, trackId);
    return Ok(result);
  }

  /** sortPlaylist: builds the adjacency table, then matches and orders the tracks by it. */
  method SortPlaylist(playlist: seq<MusicTrack>, trackId: JString) returns (r: Result<seq<MusicTrack>, Failure>)
    modifies playlist`matched
    ensures match Sorted(old(Values(playlist)), trackId, Camelot.Harmonies)
            case Ok(order) => r == Ok(Pick(playlist, order))
            case Err(e) => r == Err(e)
    ensures Flagged(playlist, old(Values(playlist)), trackId, Camelot.Harmonies)
  {
    var harmonies := Camelot.Harmonies;
    r := SortWith(playlist, trackId, harmonies);
  }
}
