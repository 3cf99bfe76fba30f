# flowtherock-app: harmonic playlist ordering, modelled in Dafny

flowtherock-app loads a playlist from a music streaming service and reorders
it around a track the user picks (the *anchor*), using the Camelot wheel of
harmonic mixing. This project models the core of that program:

- **The key normalisation** of `PlaylistParser.parseTrackAnalysisKey`. A
  pitch class (-1 means no detected key) and a mode become a key label such
  as `A-Min`. That label becomes one of the 24 Camelot codes `a1`..`a12`
  (minor) and `b1`..`b12` (major), or no code.
- **The harmonic adjacency table.** Each code lists the three codes it mixes
  with. The table is modelled as written, with its one irregular row: `b2`
  lists itself instead of `b3`, which also leaves `b3` -> `b2` as the one
  pair listed in only one direction.
- **The track records.** `MusicTrack` is a class whose fields the parser and
  the service set in place. The conversion of an audio analysis, the copying
  of the track information and the id-only list built from playlist entries
  are all modelled.
- **The ordering of `PlaylistParser.sortPlaylist`.**
  - It finds the anchor and flags every track that matches the anchor's code
    or one of its neighbours.
  - It sorts that group with the source's tempo comparator.
  - It then appends every other track that is not already in the result (by
    value) and does not have the anchor's id.
- **The service's cache** (`FlowTheRockService`).
  - `loadPlaylist` enriches every entry and caches the track objects. The
    streaming service's fetches are function parameters.
  - `sortPlaylist` clears every cached track's flag and then hands the cached
    list to the parser.

The specification of the ordering works on values and positions. The
functions `FindAnchor`, `Matching`, `FlagsAfter` and `Sorted` say which
positions the result lists and what the track values become. The methods
work on the track objects, as the Java code does, and are proved against
those functions. The lemmas in `SortProperties` then say what the positions
mean:

- the matched group comes first, in playlist order;
- no position appears twice;
- every position appears once the ids are unique;
- exactly the matching tracks are flagged;
- the sort throws in exactly five cases (`SortOutcome`): a null track id, no
  track with the anchor's id, an anchor code with no entry in the adjacency
  table, a null code on any track, and an unparsable tempo in a matched
  group of two or more tracks.

Where the intent the code evidently has (its names, its comments, the shape
of its tables) and what the code does disagree, the model follows the code:

- **The tempo comparator.** It compares two matched tracks with each other,
  not with the anchor, and never returns a negative number. So the matched
  group keeps its playlist order rather than being ordered by distance from
  the anchor's tempo. `SourceKeepsThreeTempos` and
  `IntendedReordersThreeTempos` show the difference on three tracks.
  `IntendedTempoOrder` proves what the distance ordering would give. Nothing
  else in the model uses those lemmas.
- **The adjacency table is not symmetric.** `b2` lists itself and not `b3`,
  while `b3` lists `b2` (`SymmetricExceptB3B2`).
- **Anchor lookup.** The lookup keeps the *last* track with the requested
  id. If no track has that id, the call fails.
- **A key-less track anywhere fails the sort.** The matching loop calls
  `contains` with each track's code, and the neighbour list throws on a null
  code. So one track without a code makes the whole sort throw, even a track
  far from the anchor (`SortOutcome`, `MarkMatches`).
- **Tempo failures are not local.** A tempo that does not parse, in a
  matched group of two or more tracks, makes the whole sort throw.
- **Enrichment failures are not local.** One entry whose enrichment throws
  makes the whole `loadPlaylist` throw, and the cache keeps its old value.
- **Flags are shared.** The flags are set on the cached objects themselves,
  not on copies. A track object listed twice is flagged once, when its first
  occurrence is reached.
- **The tail check compares values, not positions.** A track equal, field
  by field, to one already in the result is not appended.

## Model

| member | source | states |
|---|---|---|
| JavaInt.ParseIntOfIntToString | flowtherock-app/src/main/java/org/anefdev/flowtherockapp/util/PlaylistParser.java:96 | `Integer.parseInt` reads back every 32-bit number that `String.valueOf` wrote, so the key text written by the conversion parses to the analysis's pitch class |
| JavaInt.ParseInt | flowtherock-app/src/main/java/org/anefdev/flowtherockapp/util/PlaylistParser.java:96 | null text throws; a parsed text is an optional sign then one or more digits, a negative value has a minus sign, and every numeral of at most nine digits parses |
| Camelot.CamelotFollowsWheel | flowtherock-app/src/main/java/org/anefdev/flowtherockapp/util/PlaylistParser.java:55-99 | for pitch classes 0..11 the key label is in the Camelot table, and its code is the wheel position of the pitch on the ring its mode selects (`b` for "MAJOR", `a` otherwise) |
| Camelot.CamelotInjective | flowtherock-app/src/main/java/org/anefdev/flowtherockapp/util/PlaylistParser.java:70-94 | two detected keys get the same code exactly when they have the same pitch class and the same major/minor choice |
| Camelot.CamelotOnto | flowtherock-app/src/main/java/org/anefdev/flowtherockapp/util/PlaylistParser.java:70-94 | each of the 24 codes is the code of some detected key, so the table is a bijection between the 24 keys and the 24 codes |
| Camelot.UndetectedKeyHasNoCode | flowtherock-app/src/main/java/org/anefdev/flowtherockapp/util/PlaylistParser.java:55-99 | pitch class -1 gives the label `NO_KEY-Maj`/`NO_KEY-Min`, any other number outside 0..11 gives `null-Maj`/`null-Min`, and neither label has a code |
| Camelot.WheelRoundTrip | flowtherock-app/src/main/java/org/anefdev/flowtherockapp/util/PlaylistParser.java:70-94 | on each ring, pitch class to wheel position and back is the identity in both directions |
| Camelot.AdjacencyShape | flowtherock-app/src/main/java/org/anefdev/flowtherockapp/util/PlaylistParser.java:115-139 | every code has an entry: the previous and next position on its own ring, then the same position on the other ring; the one exception is b2, which lists b1, b2 and a2 |
| Camelot.ThreeNeighbours | flowtherock-app/src/main/java/org/anefdev/flowtherockapp/util/PlaylistParser.java:115-139 | every entry lists three codes, and only b2 lists itself |
| Camelot.ListedOnTheWheel | flowtherock-app/src/main/java/org/anefdev/flowtherockapp/util/PlaylistParser.java:115-139 | a code lists another exactly when the two are wheel neighbours in the sense of the table, in both directions of the equivalence |
| Camelot.SymmetricExceptB3B2 | flowtherock-app/src/main/java/org/anefdev/flowtherockapp/util/PlaylistParser.java:129-130 | X lists Y without Y listing X exactly when X is b3 and Y is b2 |
| Camelot.EveryKeyHasNeighbours | flowtherock-app/src/main/java/org/anefdev/flowtherockapp/util/PlaylistParser.java:148 | the code of every detected key has an entry in the adjacency table, so the anchor's neighbours are never null for a detected key |
| Camelot.KeyLabel | flowtherock-app/src/main/java/org/anefdev/flowtherockapp/util/PlaylistParser.java:96-98 | the label is the pitch name ("null" outside the table) decided by the pitch class alone, followed by `-Maj` for the mode text `MAJOR` and `-Min` for any other text |
| Camelot.CamelotOf | flowtherock-app/src/main/java/org/anefdev/flowtherockapp/util/PlaylistParser.java:99 | no code exactly for a label outside the Camelot table; which labels are in it is stated by CamelotFollowsWheel and UndetectedKeyHasNoCode |
| Camelot.Neighbours | flowtherock-app/src/main/java/org/anefdev/flowtherockapp/util/PlaylistParser.java:148 | null exactly for a null code or one without an entry; otherwise three codes, each with an entry of its own |
| Tracks.MusicTrack.constructor | flowtherock-app/src/main/java/org/anefdev/flowtherockapp/model/MusicTrack.java:14-24 | a new track has every field null and the flag false |
| Tracks.ClearFlagsTwice | flowtherock-app/src/main/java/org/anefdev/flowtherockapp/service/FlowTheRockService.java:223-225 | clearing the flags is idempotent |
| PlaylistParser.TrackListNoMetaData | flowtherock-app/src/main/java/org/anefdev/flowtherockapp/util/PlaylistParser.java:18-27 | one blank track per entry, carrying that entry's id, in playlist order; it fails with a null-track error exactly when some entry has no track |
| PlaylistParser.ConvertTrackAnalysisToTrack | flowtherock-app/src/main/java/org/anefdev/flowtherockapp/util/PlaylistParser.java:42-51 | a fresh track holding only the tempo, the key text (`"null"` for no key) and the mode's name |
| PlaylistParser.Converted | flowtherock-app/src/main/java/org/anefdev/flowtherockapp/util/PlaylistParser.java:42-51 | the converted value carries the analysis's tempo, a key text and the mode's name; every other field is null and the flag is clear |
| PlaylistParser.ConvertedKeyReadsBack | flowtherock-app/src/main/java/org/anefdev/flowtherockapp/util/PlaylistParser.java:46-48 | parsing the converted key text gives back the analysis's pitch class, and a null pitch class becomes text that does not parse |
| PlaylistParser.NormalizedKey | flowtherock-app/src/main/java/org/anefdev/flowtherockapp/util/PlaylistParser.java:96-99 | fails with NumberFormat exactly when the key text does not parse and with NullMode when the mode is null; otherwise it changes only the key and the code, and the code is the table's code of the new label |
| PlaylistParser.NormalizedKeyOfPitch | flowtherock-app/src/main/java/org/anefdev/flowtherockapp/util/PlaylistParser.java:53-101 | a parsed pitch class in 0..11 gets the wheel code of its pitch and mode; any other number gets no code |
| PlaylistParser.ParseTrackAnalysisKey | flowtherock-app/src/main/java/org/anefdev/flowtherockapp/util/PlaylistParser.java:53-101 | updates the track in place to what NormalizedKey gives, and leaves it unchanged when it throws; only key and camelot may change |
| PlaylistParser.WithInfo | flowtherock-app/src/main/java/org/anefdev/flowtherockapp/util/PlaylistParser.java:103-111 | fails exactly when the artist array is empty; otherwise only id, title, artist, album, duration and preview link change |
| PlaylistParser.ParseTrackInfo | flowtherock-app/src/main/java/org/anefdev/flowtherockapp/util/PlaylistParser.java:103-111 | updates the track in place to what WithInfo gives; when the artist array is empty, only the id and title have been written |
| PlaylistParser.EnrichedTrack | flowtherock-app/src/main/java/org/anefdev/flowtherockapp/service/FlowTheRockService.java:162-169 | conversion, information and key normalisation together: it fails exactly on an empty artist array or a null pitch class (in that order); otherwise the track is the information's fields, the analysis's tempo and mode, the key label and the wheel code, unflagged |
| PlaylistParser.Enriched | flowtherock-app/src/main/java/org/anefdev/flowtherockapp/service/FlowTheRockService.java:163-168 | an empty artist array fails with NoArtists; a result keeps the analysis's tempo and mode, is unflagged and has the code of its key label (EnrichedTrack states the whole record) |
| ListSort.SortKeepsOrder | flowtherock-app/src/main/java/org/anefdev/flowtherockapp/util/PlaylistParser.java:158-168 | with a comparator that never reports a descending pair, the sort returns its input unchanged, and it throws exactly when two neighbours cannot be compared |
| ListSort.Insert | flowtherock-app/src/main/java/org/anefdev/flowtherockapp/util/PlaylistParser.java:158 | whatever the comparator, a result holds the inserted element and the sorted list's elements, each once |
| ListSort.Sort | flowtherock-app/src/main/java/org/anefdev/flowtherockapp/util/PlaylistParser.java:158 | whatever the comparator, a result is a permutation of the input |
| ListSort.SortByKey | flowtherock-app/src/main/java/org/anefdev/flowtherockapp/util/PlaylistParser.java:158-168 | sorting with a key-based comparator never throws and orders by the key (a permutation by ListSort.Sort) |
| PlaylistSort.FindAnchor | flowtherock-app/src/main/java/org/anefdev/flowtherockapp/util/PlaylistParser.java:141-148 | a failed lookup passes its error on; after a successful lookup it succeeds exactly when the anchor has a code listed in the adjacency table, and then holds the anchor's position, that code and its listed neighbours; otherwise NoHarmonies |
| PlaylistSort.AnchorNeighbours | flowtherock-app/src/main/java/org/anefdev/flowtherockapp/util/PlaylistParser.java:148 | with the program's table, the anchor lookup succeeds exactly when `harmonies.get` of the anchor's code is non-null, and then carries that list |
| PlaylistSort.LastWithId | flowtherock-app/src/main/java/org/anefdev/flowtherockapp/util/PlaylistParser.java:141-146 | the found position has the id and no later position does |
| PlaylistSort.CodedPrefix | flowtherock-app/src/main/java/org/anefdev/flowtherockapp/util/PlaylistParser.java:151-152 | the positions before it all have a code, and the position at it, if any, has none (where `contains(null)` throws) |
| PlaylistSort.MatchPositions | flowtherock-app/src/main/java/org/anefdev/flowtherockapp/util/PlaylistParser.java:151-156 | exactly the matching positions, in increasing order |
| PlaylistSort.CompareTempo | flowtherock-app/src/main/java/org/anefdev/flowtherockapp/util/PlaylistParser.java:158-168 | defined exactly when both tempos parse; never negative; zero exactly when the tempos are equal |
| PlaylistSort.TempoOrderNeverNegative | flowtherock-app/src/main/java/org/anefdev/flowtherockapp/util/PlaylistParser.java:158-168 | the comparator never reports a pair as descending |
| PlaylistSort.Tail | flowtherock-app/src/main/java/org/anefdev/flowtherockapp/util/PlaylistParser.java:170-176 | the appended positions are in range and increasing |
| PlaylistSort.Matching | flowtherock-app/src/main/java/org/anefdev/flowtherockapp/util/PlaylistParser.java:141-156 | a failure of FindAnchor passes on; with an anchor it succeeds exactly when no track's code is null, and then is exactly the matching positions in playlist order (MatchPositions); otherwise NullCamelot |
| PlaylistSort.Sorted | flowtherock-app/src/main/java/org/anefdev/flowtherockapp/util/PlaylistParser.java:113-180 | the listed positions are in range (the order itself is stated by the SortProperties lemmas) |
| PlaylistSort.FlagsAfter | flowtherock-app/src/main/java/org/anefdev/flowtherockapp/util/PlaylistParser.java:149-156 | only flags change, and a flag once set stays set |
| PlaylistSort.MatchPositionsStep | flowtherock-app/src/main/java/org/anefdev/flowtherockapp/util/PlaylistParser.java:151-156 | one more position extends the match list by that position exactly when it matches |
| PlaylistSort.FindTrack | flowtherock-app/src/main/java/org/anefdev/flowtherockapp/util/PlaylistParser.java:141-147 | the lookup loop returns the object at LocateAnchor's position, throws on a null id, and fails when no track has the id |
| PlaylistSort.MarkTrack | flowtherock-app/src/main/java/org/anefdev/flowtherockapp/util/PlaylistParser.java:151-156 | one pass of the matching loop: it flags the object if it matches and extends the match list; on a null code it throws, with the flags in their final state |
| PlaylistSort.MarkMatches | flowtherock-app/src/main/java/org/anefdev/flowtherockapp/util/PlaylistParser.java:151-156 | the matching loop: it throws exactly when some code is null; otherwise it returns the match positions, and it flags exactly the objects that match and occur before the loop stops |
| PlaylistSort.FlagMatches | flowtherock-app/src/main/java/org/anefdev/flowtherockapp/util/PlaylistParser.java:141-156 | lookup and matching: it returns Matching of the old values, sets the flags FlagsSet describes, leaves the values at FlagsAfter on success, and changes nothing but flags |
| PlaylistSort.AppendUnmatched | flowtherock-app/src/main/java/org/anefdev/flowtherockapp/util/PlaylistParser.java:170-176 | the result is the sorted group's objects followed by the objects at the Tail positions |
| PlaylistSort.SortedOfMatched | flowtherock-app/src/main/java/org/anefdev/flowtherockapp/util/PlaylistParser.java:158-178 | once matching succeeds, the tempo sort either fails and the whole sort is BadTempo, or leaves the matched positions in playlist order and the result is those positions followed by the unmatched tail |
| PlaylistSort.OrderMatched | flowtherock-app/src/main/java/org/anefdev/flowtherockapp/util/PlaylistParser.java:158-178 | from flagged tracks, returns the objects at the Sorted positions, or BadTempo |
| PlaylistSort.SortWith | flowtherock-app/src/main/java/org/anefdev/flowtherockapp/util/PlaylistParser.java:141-178 | for a given adjacency table: the result is the objects at the positions Sorted names, or its failure; the flags are FlagsSet's, and nothing but flags changes |
| PlaylistSort.SortPlaylist | flowtherock-app/src/main/java/org/anefdev/flowtherockapp/util/PlaylistParser.java:113-180 | SortWith with the program's adjacency table |
| PlaylistSort.LocateAnchor | flowtherock-app/src/main/java/org/anefdev/flowtherockapp/util/PlaylistParser.java:141-148 | the lookup throws exactly on a null id, fails exactly when no track has the id, and otherwise finds the last track with it |
| SortProperties.MatchedGroupFirst | flowtherock-app/src/main/java/org/anefdev/flowtherockapp/util/PlaylistParser.java:149-176 | on success the result is the matching positions in playlist order, the anchor among them, followed by the Tail positions |
| SortProperties.TempoFailure | flowtherock-app/src/main/java/org/anefdev/flowtherockapp/util/PlaylistParser.java:158-168 | after matching, the sort throws exactly when the group has two or more tracks and one of their tempos does not parse |
| SortProperties.SortOutcome | flowtherock-app/src/main/java/org/anefdev/flowtherockapp/util/PlaylistParser.java:141-168 | each failure of the whole sort as an if-and-only-if on the input (null id, no anchor, anchor code without an entry, a null code anywhere, an unparsable tempo in a group of two or more), and success exactly when none of them holds |
| SortProperties.TemposComparable | flowtherock-app/src/main/java/org/anefdev/flowtherockapp/util/PlaylistParser.java:158-168 | all neighbours compare exactly when the group has fewer than two tracks or every tempo parses |
| SortProperties.FlaggedExactly | flowtherock-app/src/main/java/org/anefdev/flowtherockapp/util/PlaylistParser.java:151-156 | on success, a track is flagged afterwards exactly when it was flagged before or matches the anchor, and no other field changes |
| SortProperties.ClearFlagsAfter | flowtherock-app/src/main/java/org/anefdev/flowtherockapp/util/PlaylistParser.java:151-156 | the call only sets flags, so clearing them restores the cleared input |
| SortProperties.TailMembers | flowtherock-app/src/main/java/org/anefdev/flowtherockapp/util/PlaylistParser.java:170-176 | a position is appended exactly when its value (with its flag) is not in the matched group, no earlier position holds an equal value, and its id is not the anchor's |
| SortProperties.NoPositionTwice | flowtherock-app/src/main/java/org/anefdev/flowtherockapp/util/PlaylistParser.java:170-178 | on success no position appears twice in the result |
| SortProperties.UniqueIdsPermutation | flowtherock-app/src/main/java/org/anefdev/flowtherockapp/util/PlaylistParser.java:141-178 | with unique ids the result is a permutation of the playlist's positions: every position appears, none twice, and the result is as long as the playlist (so the anchor appears exactly once) |
| SortProperties.IntendedTempoOrder | flowtherock-app/src/main/java/org/anefdev/flowtherockapp/util/PlaylistParser.java:158-168 | the evidently intended comparator, distance from the anchor's tempo, gives a permutation of the group ordered by that distance |
| SortProperties.SourceKeepsThreeTempos | flowtherock-app/src/main/java/org/anefdev/flowtherockapp/util/PlaylistParser.java:158-168 | with tempos 100, 140 and 120 the source's comparator leaves the group as it is |
| SortProperties.IntendedReordersThreeTempos | flowtherock-app/src/main/java/org/anefdev/flowtherockapp/util/PlaylistParser.java:158-168 | on the same tracks, the distance ordering puts 120 before 140 |
| Service.EnrichedList | flowtherock-app/src/main/java/org/anefdev/flowtherockapp/service/FlowTheRockService.java:162-169 | the list succeeds exactly when every id enriches, then holds each id's track in order; otherwise it fails with the first failing id's error |
| Service.EntryIds | flowtherock-app/src/main/java/org/anefdev/flowtherockapp/service/FlowTheRockService.java:157 | the entries' ids in order, failing exactly when getTrackListNoMetaData throws |
| Service.FailedPrefix | flowtherock-app/src/main/java/org/anefdev/flowtherockapp/service/FlowTheRockService.java:162-169 | once a prefix of the ids fails, the whole list fails with the same error |
| Service.LoadedTracks | flowtherock-app/src/main/java/org/anefdev/flowtherockapp/service/FlowTheRockService.java:162-169 | a successful load has one enriched, unflagged track per entry: the fetched information, the fetched tempo and mode, the key label and its code |
| Service.LoadOutcome | flowtherock-app/src/main/java/org/anefdev/flowtherockapp/service/FlowTheRockService.java:157-170 | a load fails with NullTrack when some entry has no track; otherwise it succeeds exactly when every id enriches, giving the enriched values in entry order, and fails with the error of the first id whose enrichment throws |
| Service.EnrichTrack | flowtherock-app/src/main/java/org/anefdev/flowtherockapp/service/FlowTheRockService.java:163-168 | the lambda for one id returns a fresh track holding Enriched's value, or Enriched's error |
| Service.EnrichAll | flowtherock-app/src/main/java/org/anefdev/flowtherockapp/service/FlowTheRockService.java:162-169 | the stream map: distinct fresh objects whose values are EnrichedList's, or its error |
| Service.ClearMatched | flowtherock-app/src/main/java/org/anefdev/flowtherockapp/service/FlowTheRockService.java:223-225 | the reset loop clears every flag and changes nothing else |
| Service.ResetAndSort | flowtherock-app/src/main/java/org/anefdev/flowtherockapp/service/FlowTheRockService.java:218-231 | the result and the flags are those of the parser's sort run on the cleared values, so earlier flags make no difference; nothing but flags changes |
| Service.FlowTheRockService.constructor | flowtherock-app/src/main/java/org/anefdev/flowtherockapp/service/FlowTheRockService.java:43 | no playlist is cached yet |
| Service.FlowTheRockService.LoadPlaylist | flowtherock-app/src/main/java/org/anefdev/flowtherockapp/service/FlowTheRockService.java:157-172 | on success, caches and returns distinct fresh objects holding the Loaded values; on failure, returns the error and leaves the cache alone |
| Service.FlowTheRockService.SortPlaylist | flowtherock-app/src/main/java/org/anefdev/flowtherockapp/service/FlowTheRockService.java:218-231 | fails when nothing is loaded (the reset loop dereferences null); otherwise it behaves as ResetAndSort on the cached tracks |
| Service.SortTwice | flowtherock-app/src/main/java/org/anefdev/flowtherockapp/service/FlowTheRockService.java:218-231 | sorting twice on the same anchor returns the same result, although the first sort left flags set on the shared objects |

## Left out

- Authorisation, the user profile, listing all playlists (`getAllPlaylists`, `loadAllUsersPlaylists`) and the web controller are not part of this model.
- The network calls are not modelled: the paginated playlist fetch, `loadTrackInfo` and `loadTrackAnalysis`. The fetched playlist entries are an input, and the two per-track fetches are the function parameters `trackInfo` and `trackAnalysis` (total, never throwing).
- Logging is left out. It has no effect on the results.
- Floating point is not modelled. A tempo is kept as the real number its text denotes; `None` stands for text `Float.parseFloat` rejects. The rounding of `float` and the text form of the tempo are not modelled.
- A null album or a null artist array in the track information (a `NullPointerException` in `parseTrackInfo`) is not modelled: artists are a sequence of names and the album a name.
- A null audio-analysis object is not modelled.
- Lombok's `equals` on `MusicTrack` is modelled as equality of the field values (`TrackData`).
- `List.sort` is modelled as a stable insertion sort that compares each element with the sorted prefix from the right. The JDK's sort differs in which pairs it compares. With this comparator, which never reports a descending pair, both leave the list as it is, and both throw as soon as a tempo of the group fails to parse.
- The `assert` after the lookup loop is treated as disabled (the JVM default). A missing anchor then throws at the dereference, which the model reports as `AnchorNotFound`.
- PlaylistSort.SortWith takes the adjacency table as a parameter. `PlaylistSort.SortPlaylist` passes the program's own table.
- PlaylistSort.Sorted: its own contract only bounds the positions it lists. When it fails and when it succeeds is stated by SortProperties.SortOutcome, and what the order is (matched group first, no repeats, a permutation under unique ids) by the other SortProperties lemmas.
- JavaInt.ParseInt: only the ASCII digits '0'..'9' count as digits. Java's `Integer.parseInt` also accepts the decimal digits of other scripts; the key text it reads is always written by `String.valueOf`, which writes ASCII digits (ParseIntOfIntToString).
- PlaylistSort.Tail: its own contract only bounds and orders the positions; which positions it holds is stated by SortProperties.TailMembers.
- The branch of the comparator that returns -1 can never be taken. The model keeps it; `CompareTempo`'s contract shows the value is never negative.
- The concurrency of the web server is not modelled: two requests sorting the same cached list at once.
