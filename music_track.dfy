// The MusicTrack record of model/MusicTrack.java: a mutable bean whose
// Lombok-generated setters the parser and the service call in place.

module Tracks {
  import opened Wrappers

  /** A Java `String` reference: `None` stands for null. */
  type JString = Option<string>

  /**
   * Every field of a MusicTrack at one moment (MusicTrack.java:14-24).
   * The tempo text `bpm` is kept as the number it denotes; `None` stands for
   * text that `Float.parseFloat` rejects, null included.
   * Equality of two snapshots is Lombok's generated `equals`.
   */
  datatype TrackData = TrackData(
    id: JString,
    title: JString,
    artist: JString,
    album: JString,
    duration: Option<int>,
    bpm: Option<real>,
    key: JString,
    mode: JString,
    camelot: JString,
    matched: bool,
    previewUrl: JString)

  /** A track as the no-argument constructor leaves it. */
  const Blank := TrackData(None, None, None, None, None, None, None, None, None, false, None)

  /** The mutable track object. */
  class MusicTrack {
    var id: JString
    var title: JString
    var artist: JString
    var album: JString
    var duration: Option<int>
    var bpm: Option<real>
    var key: JString
    var mode: JString
    var camelot: JString
    var matched: bool
    var previewUrl: JString

    constructor ()
      ensures Value() == Blank
    {
      id, title, artist, album := None, None, None, None;
      duration, bpm, key, mode, camelot := None, None, None, None, None;
      matched, previewUrl := false, None;
    }

    /** The current field values of this object. */
    function Value(): TrackData
      reads this
    {
      TrackData(id, title, artist, album, duration, bpm, key, mode, camelot, matched, previewUrl)
    }
  }

  /** The current values of a list of track objects, position by position. */
  function Values(ts: seq<MusicTrack>): (vs: seq<TrackData>)
    reads set t | t in ts
    ensures |vs| == |ts|
    ensures forall k :: 0 <= k < |ts| ==> vs[k] == ts[k].Value()
  {
    if ts == [] then [] else Values(ts[..|ts| - 1]) + [ts[|ts| - 1].Value()]
  }

  /** Every value with its `matched` flag cleared. */
  function ClearFlags(vs: seq<TrackData>): (ws: seq<TrackData>)
    ensures |ws| == |vs|
    ensures forall k :: 0 <= k < |vs| ==> ws[k] == vs[k].(matched := false)
  {
    if vs == [] then [] else ClearFlags(vs[..|vs| - 1]) + [vs[|vs| - 1].(matched := false)]
  }

  /** Clearing the flags a second time changes nothing. */
  lemma ClearFlagsTwice(vs: seq<TrackData>)
    ensures ClearFlags(ClearFlags(vs)) == ClearFlags(vs)
  {
  }
}
