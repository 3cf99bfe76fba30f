// The cached playlist of service/FlowTheRockService.java: loadPlaylist builds
// and caches the enriched tracks, and sortPlaylist clears every track's
// `matched` flag before handing the cached list to the parser's sortPlaylist.
// The streaming service's fetches are the functions `trackInfo` and
// `trackAnalysis`, from a track id to what the service returns for it.

module Service {
  import opened Wrappers
  import Camelot
  import opened Tracks
  import opened PlaylistParser
  import PlaylistSort

  // ---------------------------------------------------------------------------
  // loadPlaylist (FlowTheRockService.java:157-172)

  /** The per-track enrichment of loadPlaylist as a function of the track id. */
  function Enrichment(trackInfo: JString -> TrackInfo, trackAnalysis: JString -> AudioAnalysis)
    : JString -> Result<TrackData, Failure>
  {
    id => Enriched(trackInfo(id), trackAnalysis(id))
  }

  /**
   * `enrich` applied to each id in order, collecting the values, or the
   * exception of the first id whose enrichment throws.
   */
  function EnrichedList(ids: seq<JString>, enrich: JString -> Result<TrackData, Failure>)
    : (r: Result<seq<TrackData>, Failure>)
    ensures r.Ok? <==> forall k :: 0 <= k < |ids| ==> enrich(ids[k]).Ok?
    ensures r.Ok? ==> |r.value| == |ids| && forall k :: 0 <= k < |ids| ==> r.value[k] == enrich(ids[k]).value
    ensures r.Err? ==>
              exists k :: 0 <= k < |ids| && enrich(ids[k]) == Err(r.error) &&
                          forall j :: 0 <= j < k ==> enrich(ids[j]).Ok?
  {
    if ids == [] then Ok([])
    else
      var last := ids[|ids| - 1];
      match EnrichedList(ids[..|ids| - 1], enrich)
      case Err(e) => Err(e)
      case Ok(vs) =>
        match enrich(last)
        case Err(e) => Err(e)
        case Ok(v) => Ok(vs + [v])
  }

  /** The ids of the entries, or the exception of getTrackListNoMetaData. */
  function EntryIds(items: seq<PlaylistTrack>): (r: Result<seq<JString>, Failure>)
    ensures r.Ok? <==> TrackListNoMetaData(items).Ok?
    ensures r.Ok? ==> |r.value| == |items| && forall k :: 0 <= k < |items| ==> r.value[k] == items[k].track.value.id
    ensures r.Err? ==> r.error == NullTrack
  {
    match TrackListNoMetaData(items)
    case Err(e) => Err(e)
    case Ok(ts) => Ok(seq(|ts|, k requires 0 <= k < |ts| => ts[k].id))
  }

  /** What loadPlaylist caches and returns, as values, or the exception it throws (LoadOutcome says which). */
  function Loaded(items: seq<PlaylistTrack>, trackInfo: JString -> TrackInfo, trackAnalysis: JString -> AudioAnalysis)
    : Result<seq<TrackData>, Failure>
  {
    match EntryIds(items)
    case Err(e) => Err(e)
    case Ok(ids) => EnrichedList(ids, Enrichment(trackInfo, trackAnalysis))
  }

  /**
   * The outcome of a load: NullTrack when some entry has no track; otherwise
   * the enriched values of all ids in order, or the error of the first id
   * whose enrichment throws.
   */
  lemma LoadOutcome(items: seq<PlaylistTrack>, trackInfo: JString -> TrackInfo, trackAnalysis: JString -> AudioAnalysis)
    ensures var r := Loaded(items, trackInfo, trackAnalysis);
            (exists k :: 0 <= k < |items| && items[k].track.None?) ==> r == Err(NullTrack)
    ensures var r := Loaded(items, trackInfo, trackAnalysis);
            (forall k :: 0 <= k < |items| ==> items[k].track.Some?) ==>
              (r.Ok? <==> forall k :: 0 <= k < |items| ==>
                            Enrichment(trackInfo, trackAnalysis)(items[k].track.value.id).Ok?)
    ensures var r := Loaded(items, trackInfo, trackAnalysis);
            r.Ok? ==>
              |r.value| == |items| &&
              forall k :: 0 <= k < |items| ==>
                items[k].track.Some? &&
                r.value[k] == Enrichment(trackInfo, trackAnalysis)(items[k].track.value.id).value
    ensures var r := Loaded(items, trackInfo, trackAnalysis);
            r.Err? && (forall k :: 0 <= k < |items| ==> items[k].track.Some?) ==>
              exists k :: 0 <= k < |items| &&
                          Enrichment(trackInfo, trackAnalysis)(items[k].track.value.id) == Err(r.error) &&
                          forall j :: 0 <= j < k ==> Enrichment(trackInfo, trackAnalysis)(items[j].track.value.id).Ok?
  {
  }

  /** Once a prefix of the ids fails, the whole list fails the same way. */
  lemma {:induction false} FailedPrefix(ids: seq<JString>, n: nat, enrich: JString -> Result<TrackData, Failure>)
    requires n <= |ids| && EnrichedList(ids[..n], enrich).Err?
    ensures EnrichedList(ids, enrich) == EnrichedList(ids[..n], enrich)
    decreases |ids| - n
  {
    if n < |ids| {
      var longer := ids[..n + 1];
      assert longer[..n] == ids[..n];
      assert EnrichedList(longer, enrich) == EnrichedList(ids[..n], enrich);
      FailedPrefix(ids, n + 1, enrich);
    } else {
      assert ids[..n] == ids;
    }
  }

  /**
   * One enriched track per entry, in playlist order: the information record's
   * fields, the analysis's tempo and mode, the key label and its Camelot code,
   * and no flag.
   */
  lemma LoadedTracks(items: seq<PlaylistTrack>, trackInfo: JString -> TrackInfo, trackAnalysis: JString -> AudioAnalysis)
    requires Loaded(items, trackInfo, trackAnalysis).Ok?
    ensures var vs := Loaded(items, trackInfo, trackAnalysis).value;
            |vs| == |items| &&
            forall k :: 0 <= k < |items| ==>
              var info := trackInfo(items[k].track.value.id);
              var a := trackAnalysis(items[k].track.value.id);
              info.artists != [] && a.key.Some? &&
              vs[k] == TrackData(info.id, info.name, info.artists[0], info.album, info.durationMs, a.tempo,
                                 Some(Camelot.KeyLabel(a.key.value, ModeName(a.mode))), Some(ModeName(a.mode)),
                                 Camelot.CamelotOf(Camelot.KeyLabel(a.key.value, ModeName(a.mode))), false,
                                 info.previewUrl)
  {
    var ids := EntryIds(items).value;
    forall k | 0 <= k < |items|
      ensures var info := trackInfo(items[k].track.value.id);
              var a := trackAnalysis(items[k].track.value.id);
              info.artists != [] && a.key.Some? &&
              Loaded(items, trackInfo, trackAnalysis).value[k] ==
                TrackData(info.id, info.name, info.artists[0], info.album, info.durationMs, a.tempo,
                          Some(Camelot.KeyLabel(a.key.value, ModeName(a.mode))), Some(ModeName(a.mode)),
                          Camelot.CamelotOf(Camelot.KeyLabel(a.key.value, ModeName(a.mode))), false,
                          info.previewUrl)
    {
      EnrichedTrack(trackInfo(ids[k]), trackAnalysis(ids[k]));
    }
  }

  /**
   * The lambda of loadPlaylist for one id: convert the analysis, copy the
   * information in, normalise the key.
   */
  method EnrichTrack(id: JString, trackInfo: JString -> TrackInfo, trackAnalysis: JString -> AudioAnalysis)
    returns (r: Result<MusicTrack, Failure>)
    ensures match Enriched(trackInfo(id), trackAnalysis(id))
            case Ok(v) => r.Ok? && fresh(r.value) && r.value.Value() == v
            case Err(e) => r == Err(e)
  {
    var info := trackInfo(id);
    var track := ConvertTrackAnalysisToTrack(trackAnalysis(id));
    var withInfo := ParseTrackInfo(track, info);
    if withInfo.Err? {
      return Err(withInfo.error);
    }
    r := ParseTrackAnalysisKey(track);
  }

  /** The objects are pairwise different. */
  predicate Distinct(ts: seq<MusicTrack>) {
    forall i, j :: 0 <= i < j < |ts| ==> ts[i] != ts[j]
  }

  /**
   * One more pass of the stream: enrich the track with the next id and append
   * it, or report the exception.
   */
  method EnrichNext(ids: seq<JString>, i: nat, tracks: seq<MusicTrack>,
                    trackInfo: JString -> TrackInfo, trackAnalysis: JString -> AudioAnalysis)
    returns (r: Result<MusicTrack, Failure>)
    requires i < |ids|
    requires EnrichedList(ids[..i], Enrichment(trackInfo, trackAnalysis)).Ok?
    requires Values(tracks) == EnrichedList(ids[..i], Enrichment(trackInfo, trackAnalysis)).value
    ensures r.Err? ==> EnrichedList(ids[..i + 1], Enrichment(trackInfo, trackAnalysis)) == Err(r.error)
    ensures r.Ok? ==> EnrichedList(ids[..i + 1], Enrichment(trackInfo, trackAnalysis)).Ok? &&
                      Values(tracks + [r.value]) == EnrichedList(ids[..i + 1], Enrichment(trackInfo, trackAnalysis)).value &&
                      fresh(r.value)
  {
    ghost var enrich := Enrichment(trackInfo, trackAnalysis);
    assert ids[..i + 1][..i] == ids[..i];
    r := EnrichTrack(ids[i], trackInfo, trackAnalysis);
    assert enrich(ids[i]) == Enriched(trackInfo(ids[i]), trackAnalysis(ids[i]));
    if r.Ok? {
      assert Values(tracks + [r.value]) == Values(tracks) + [r.value.Value()];
    }
  }

  lemma DistinctAppend(ts: seq<MusicTrack>, t: MusicTrack)
    requires Distinct(ts) && t !in ts
    ensures Distinct(ts + [t])
  {
  }

  /** The stream of loadPlaylist: one new enriched track per id, in order. */
  method EnrichAll(ids: seq<JString>, trackInfo: JString -> TrackInfo, trackAnalysis: JString -> AudioAnalysis)
    returns (r: Result<seq<MusicTrack>, Failure>)
    ensures match EnrichedList(ids, Enrichment(trackInfo, trackAnalysis))
            case Ok(vs) => r.Ok? && Values(r.value) == vs && Distinct(r.value) && forall t | t in r.value :: fresh(t)
            case Err(e) => r == Err(e)
  {
    var tracks: seq<MusicTrack> := [];
    var i := 0;
    while i < |ids|
      invariant 0 <= i <= |ids|
      invariant EnrichedList(ids[..i], Enrichment(trackInfo, trackAnalysis)).Ok?
      invariant Values(tracks) == EnrichedList(ids[..i], Enrichment(trackInfo, trackAnalysis)).value
      invariant Distinct(tracks)
      invariant forall t | t in tracks :: fresh(t)
    {
      var next := EnrichNext(ids, i, tracks, trackInfo, trackAnalysis);
      if next.Err? {
        FailedPrefix(ids, i + 1, Enrichment(trackInfo, trackAnalysis));
        return Err(next.error);
      }
      assert next.value !in tracks;
      DistinctAppend(tracks, next.value);
      tracks := tracks + [next.value];
      i := i + 1;
    }
    assert ids[..i] == ids;
    return Ok(tracks);
  }

  // ---------------------------------------------------------------------------
  // sortPlaylist (FlowTheRockService.java:218-231)

  /** The reset loop: every track's flag is cleared and nothing else changes. */
  method ClearMatched(tracks: seq<MusicTrack>)
    modifies tracks`matched
    ensures Values(tracks) == ClearFlags(old(Values(tracks)))
  {
    var i := 0;
    while i < |tracks|
      invariant 0 <= i <= |tracks|
      invariant forall k :: 0 <= k < i ==> !tracks[k].matched
    {
      tracks[i].matched := false;
      i := i + 1;
    }
    forall k | 0 <= k < |tracks|
      ensures tracks[k].Value() == old(tracks[k].Value()).(matched := false)
    {
    }
  }

  /**
   * What sortPlaylist promises for cached tracks whose values were `before`:
   * the result and the flags are those of a sort of `before` with every flag
   * cleared, and nothing but flags changes.
   */
  ghost predicate SortedFromCleared(tracks: seq<MusicTrack>, before: seq<TrackData>, trackId: JString,
                                    r: Result<seq<MusicTrack>, Failure>)
    reads set t | t in tracks
  {
    |tracks| == |before| &&
    (match PlaylistSort.Sorted(ClearFlags(before), trackId, Camelot.Harmonies)
     case Ok(order) => r == Ok(PlaylistSort.Pick(tracks, order))
     case Err(e) => r == Err(e)) &&
    PlaylistSort.Flagged(tracks, ClearFlags(before), trackId, Camelot.Harmonies) &&
    ClearFlags(Values(tracks)) == ClearFlags(before)
  }

  /** The body of sortPlaylist on the cached tracks: the reset loop, then the parser's sortPlaylist. */
  method ResetAndSort(tracks: seq<MusicTrack>, trackId: JString) returns (r: Result<seq<MusicTrack>, Failure>)
    modifies tracks`matched
    ensures SortedFromCleared(tracks, old(Values(tracks)), trackId, r)
  {
    ghost var before := Values(tracks);
    ClearMatched(tracks);
    r := PlaylistSort.SortPlaylist(tracks, trackId);
    ClearFlagsTwice(before);
  }

  class FlowTheRockService {
    /** The enriched tracks of the last loaded playlist; None until one is loaded. */
    var playlistParsed: Option<seq<MusicTrack>>

    constructor ()
      ensures playlistParsed == None
    {
      playlistParsed := None;
    }

    /** The cached tracks, or none. */
    function Cached(): seq<MusicTrack>
      reads this
    {
      if playlistParsed.Some? then playlistParsed.value else []
    }

    /**
     * loadPlaylist with the pages already fetched: one new, enriched track
     * object per entry, cached only when every entry was enriched.
     */
    method LoadPlaylist(items: seq<PlaylistTrack>, trackInfo: JString -> TrackInfo, trackAnalysis: JString -> AudioAnalysis)
      returns (r: Result<seq<MusicTrack>, Failure>)
      modifies this
      ensures match Loaded(items, trackInfo, trackAnalysis)
              case Ok(vs) => r.Ok? && playlistParsed == Some(r.value) && Values(r.value) == vs &&
                             Distinct(r.value) && forall t | t in r.value :: fresh(t)
              case Err(e) => r == Err(e) && playlistParsed == old(playlistParsed)
    {
      var noMetaData := TrackListNoMetaData(items);
      if noMetaData.Err? {
        return Err(noMetaData.error);
      }
      var ids := seq(|noMetaData.value|, k requires 0 <= k < |noMetaData.value| => noMetaData.value[k].id);
      assert ids == EntryIds(items).value;
      var tracksAnalyzed := EnrichAll(ids, trackInfo, trackAnalysis);
      if tracksAnalyzed.Err? {
        return tracksAnalyzed;
      }
      playlistParsed := Some(tracksAnalyzed.value);
      return tracksAnalyzed;
    }

    /**
     * sortPlaylist(trackId): clears the flags of the cached tracks, then lets
     * the parser order them. The result and the flags it leaves depend only on
     * the cached tracks with their flags cleared, never on an earlier sort.
     */
    method SortPlaylist(trackId: JString) returns (r: Result<seq<MusicTrack>, Failure>)
      modifies Cached()`matched
      ensures old(playlistParsed).None? ==> r == Err(PlaylistNotLoaded)
      ensures playlistParsed.Some? ==> SortedFromCleared(Cached(), old(Values(Cached())), trackId, r)
    {
      if playlistParsed.None? {
        return Err(PlaylistNotLoaded);
      }
      r := ResetAndSort(playlistParsed.value, trackId);
    }
  }

  /**
   * Sorting twice by the same track gives the same answer: the reset loop
   * erases what the first sort flagged.
   */
  method SortTwice(service: FlowTheRockService, trackId: JString)
    returns (first: Result<seq<MusicTrack>, Failure>, second: Result<seq<MusicTrack>, Failure>)
    modifies service.Cached()`matched
    ensures first == second
  {
    ghost var before := Values(service.Cached());
    first := service.SortPlaylist(trackId);
    ghost var between := Values(service.Cached());
    assert service.playlistParsed.Some? ==> ClearFlags(between) == ClearFlags(before);
    second := service.SortPlaylist(trackId);
  }
}
