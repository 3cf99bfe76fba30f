// The record-building half of util/PlaylistParser.java: turning the
// streaming service's playlist entries, track information and audio analysis
// into MusicTrack objects, and normalising a track's key to a Camelot code.

module PlaylistParser {
  import opened Wrappers
  import JavaInt
  import Camelot
  import opened Tracks

  /** Why a call throws instead of returning. */
  datatype Failure =
    | NullTrack          // a playlist entry without a track object
    | NumberFormat       // `Integer.parseInt` rejected the key text
    | NullMode           // the mode text was null when `equals` was called on it
    | NoArtists          // `getArtists()[0]` on an empty artist array
    | NullTrackId        // a track with a null id reached `getId().equals(...)`
    | AnchorNotFound     // no track has the requested id, so `trackFind` stays null
    | NoHarmonies        // the anchor's code has no entry in the adjacency table
    | NullCamelot        // `contains(null)` on the immutable neighbour list
    | BadTempo           // `Float.parseFloat` rejected a tempo text
    | PlaylistNotLoaded  // the service sorted before any playlist was loaded

  /** The mode reported by the audio analysis. */
  datatype Modality = MAJOR | MINOR

  /**
   * The part of an audio analysis the parser reads: the boxed tempo, pitch
   * class and mode of the whole track, each possibly null.
   */
  datatype AudioAnalysis = AudioAnalysis(tempo: Option<real>, key: Option<JavaInt.Int32>, mode: Option<Modality>)

  /** The part of a track-information record the parser reads; `artists` holds the artists' names. */
  datatype TrackInfo = TrackInfo(
    id: JString,
    name: JString,
    artists: seq<JString>,
    album: JString,
    durationMs: Option<int>,
    previewUrl: JString)

  /** A playlist entry; `track` is None when the entry carries no track object. */
  datatype PlaylistTrack = PlaylistTrack(track: Option<PlaylistItem>)
  datatype PlaylistItem = PlaylistItem(id: JString)

  // ---------------------------------------------------------------------------
  // getTrackListNoMetaData

  /** One id-only track per playlist entry, in playlist order. */
  function TrackListNoMetaData(items: seq<PlaylistTrack>): (r: Result<seq<TrackData>, Failure>)
    ensures r.Ok? <==> forall k :: 0 <= k < |items| ==> items[k].track.Some?
    ensures r.Err? ==> r.error == NullTrack
    ensures r.Ok? ==> |r.value| == |items|
    ensures r.Ok? ==> forall k :: 0 <= k < |items| ==> r.value[k] == Blank.(id := items[k].track.value.id)
  {
    if items == [] then Ok([])
    else
      var last := items[|items| - 1];
      match TrackListNoMetaData(items[..|items| - 1])
      case Err(e) => Err(e)
      case Ok(ts) =>
        if last.track.None? then Err(NullTrack) else Ok(ts + [Blank.(id := last.track.value.id)])
  }

  // ---------------------------------------------------------------------------
  // convertTrackAnalysisToTrack

  /** `String.valueOf` of the boxed pitch class. */
  function KeyText(key: Option<JavaInt.Int32>): string {
    if key.Some? then JavaInt.IntToString(key.value) else "null"
  }

  /** `String.valueOf` of the mode: the constant's name. */
  function ModeName(mode: Option<Modality>): string {
    match mode
    case None => "null"
    case Some(MAJOR) => "MAJOR"
    case Some(MINOR) => "MINOR"
  }

  /**
   * The track that convertTrackAnalysisToTrack builds from an analysis: the
   * tempo, the key text and the mode's name, every other field null and no
   * flag. ConvertedKeyReadsBack shows the key text parses back to the key.
   */
  function Converted(a: AudioAnalysis): (r: TrackData)
    ensures r.bpm == a.tempo && r.mode == Some(ModeName(a.mode)) && r.key.Some?
    ensures r.(bpm := None, key := None, mode := None) == Blank
  {
    Blank.(bpm := a.tempo, key := Some(KeyText(a.key)), mode := Some(ModeName(a.mode)))
  }

  method ConvertTrackAnalysisToTrack(analysis: AudioAnalysis) returns (track: MusicTrack)
    ensures fresh(track)
    ensures track.Value() == Converted(analysis)
  {
    track := new MusicTrack();
    track.bpm := analysis.tempo;
    track.key := Some(KeyText(analysis.key));
    track.mode := Some(ModeName(analysis.mode));
  }

  /**
   * The key text written by the conversion is read back unchanged by
   * `Integer.parseInt`; a null key becomes "null", which it rejects.
   */
  lemma ConvertedKeyReadsBack(a: AudioAnalysis)
    ensures JavaInt.ParseInt(Converted(a).key) == a.key
  {
    if a.key.Some? {
      JavaInt.ParseIntOfIntToString(a.key.value);
    } else {
      assert Converted(a).key == Some("null");
      assert !JavaInt.IsDigit('n');
    }
  }

  // ---------------------------------------------------------------------------
  // parseTrackAnalysisKey

  /**
   * What parseTrackAnalysisKey makes of a track: its key text replaced by the
   * key label and its Camelot code looked up, or the exception it throws.
   */
  function NormalizedKey(t: TrackData): (r: Result<TrackData, Failure>)
    ensures r.Err? <==> JavaInt.ParseInt(t.key).None? || t.mode.None?
    ensures r.Err? ==> r.error == if JavaInt.ParseInt(t.key).None? then NumberFormat else NullMode
    ensures r.Ok? ==> r.value == t.(key := r.value.key, camelot := r.value.camelot)
    ensures r.Ok? ==> r.value.key.Some? && r.value.camelot == Camelot.CamelotOf(r.value.key.value)
  {
    match JavaInt.ParseInt(t.key)
    case None => Err(NumberFormat)
    case Some(p) =>
      if t.mode.None? then Err(NullMode)
      else
        var keyLabel := Camelot.KeyLabel(p, t.mode.value);
        Ok(t.(key := Some(keyLabel), camelot := Camelot.CamelotOf(keyLabel)))
  }

  /**
   * A detected pitch class gets the code of its place on the wheel; an
   * undetected one (-1) or any other number gets no code.
   */
  lemma NormalizedKeyOfPitch(t: TrackData, p: int)
    requires JavaInt.ParseInt(t.key) == Some(p) && t.mode.Some?
    ensures NormalizedKey(t).Ok?
    ensures NormalizedKey(t).value.key == Some(Camelot.KeyLabel(p, t.mode.value))
    ensures 0 <= p < 12 ==> NormalizedKey(t).value.camelot == Some(Camelot.WheelCode(p, t.mode.value == "MAJOR"))
    ensures !(0 <= p < 12) ==> NormalizedKey(t).value.camelot == None
  {
    if 0 <= p < 12 {
      Camelot.CamelotFollowsWheel(p, t.mode.value);
    } else {
      Camelot.UndetectedKeyHasNoCode(p, t.mode.value);
    }
  }

  method ParseTrackAnalysisKey(track: MusicTrack) returns (r: Result<MusicTrack, Failure>)
    modifies track`key, track`camelot
    ensures match NormalizedKey(old(track.Value()))
            case Ok(v) => r == Ok(track) && track.Value() == v
            case Err(e) => r == Err(e) && track.Value() == old(track.Value())
  {
    var p := JavaInt.ParseInt(track.key);
    if p.None? {
      return Err(NumberFormat);
    }
    if track.mode.None? {
      return Err(NullMode);
    }
    track.key := Some(Camelot.KeyLabel(p.value, track.mode.value));
    track.camelot := Camelot.CamelotOf(track.key.value);
    return Ok(track);
  }

  // ---------------------------------------------------------------------------
  // parseTrackInfo

  /**
   * What parseTrackInfo makes of a track: id, title, first artist, album,
   * duration and preview link copied in, or the exception for an empty artist
   * array.
   */
  function WithInfo(t: TrackData, info: TrackInfo): (r: Result<TrackData, Failure>)
    ensures r.Err? <==> info.artists == []
    ensures r.Err? ==> r.error == NoArtists
    ensures r.Ok? ==> r.value.(id := t.id, title := t.title, artist := t.artist, album := t.album,
                               duration := t.duration, previewUrl := t.previewUrl) == t
  {
    if info.artists == [] then Err(NoArtists)
    else Ok(t.(id := info.id, title := info.name, artist := info.artists[0], album := info.album,
               duration := info.durationMs, previewUrl := info.previewUrl))
  }

  /** On an empty artist array the id and title have already been written. */
  method ParseTrackInfo(track: MusicTrack, info: TrackInfo) returns (r: Result<MusicTrack, Failure>)
    modifies track`id, track`title, track`artist, track`album, track`duration, track`previewUrl
    ensures match WithInfo(old(track.Value()), info)
            case Ok(v) => r == Ok(track) && track.Value() == v
            case Err(e) => r == Err(e) && track.Value() == old(track.Value()).(id := info.id, title := info.name)
  {
    track.id := info.id;
    track.title := info.name;
    if info.artists == [] {
      return Err(NoArtists);
    }
    track.artist := info.artists[0];
    track.album := info.album;
    track.duration := info.durationMs;
    track.previewUrl := info.previewUrl;
    return Ok(track);
  }

  // ---------------------------------------------------------------------------
  // The per-track enrichment of the service's loadPlaylist

  /**
   * `parseTrackAnalysisKey(parseTrackInfo(convertTrackAnalysisToTrack(a), info))`:
   * an empty artist array fails first; a result keeps the analysis's tempo
   * and mode, is not flagged, and has the code of its key label
   * (EnrichedTrack states the whole record).
   */
  function Enriched(info: TrackInfo, a: AudioAnalysis): (r: Result<TrackData, Failure>)
    ensures info.artists == [] ==> r == Err(NoArtists)
    ensures r.Ok? ==> !r.value.matched && r.value.bpm == a.tempo && r.value.mode == Some(ModeName(a.mode))
    ensures r.Ok? ==> r.value.key.Some? && r.value.camelot == Camelot.CamelotOf(r.value.key.value)
  {
    match WithInfo(Converted(a), info)
    case Err(e) => Err(e)
    case Ok(t) => NormalizedKey(t)
  }

  /**
   * The enriched track carries the information record's fields, the
   * analysis's tempo and mode, the key label and the code of its pitch class
   * on the wheel, and no match flag. It fails exactly when the artist array is
   * empty or the pitch class is null, in that order.
   */
  lemma EnrichedTrack(info: TrackInfo, a: AudioAnalysis)
    ensures Enriched(info, a).Err? <==> info.artists == [] || a.key.None?
    ensures Enriched(info, a).Err? ==> Enriched(info, a).error == if info.artists == [] then NoArtists else NumberFormat
    ensures Enriched(info, a).Ok? ==>
      var keyLabel := Camelot.KeyLabel(a.key.value, ModeName(a.mode));
      Enriched(info, a).value == TrackData(info.id, info.name, info.artists[0], info.album, info.durationMs,
                                           a.tempo, Some(keyLabel), Some(ModeName(a.mode)),
                                           Camelot.CamelotOf(keyLabel), false, info.previewUrl)
    ensures Enriched(info, a).Ok? && 0 <= a.key.value < 12 ==>
      Enriched(info, a).value.camelot == Some(Camelot.WheelCode(a.key.value, a.mode == Some(MAJOR)))
    ensures Enriched(info, a).Ok? && !(0 <= a.key.value < 12) ==> Enriched(info, a).value.camelot == None
  {
    ConvertedKeyReadsBack(a);
    if info.artists != [] && a.key.Some? {
      var t := WithInfo(Converted(a), info).value;
      assert t.key == Converted(a).key && t.mode == Some(ModeName(a.mode));
      NormalizedKeyOfPitch(t, a.key.value);
      assert (ModeName(a.mode) == "MAJOR") == (a.mode == Some(MAJOR));
    }
  }
}
