/**
 * The three fixed tables of PlaylistParser.java: pitch class to pitch name,
 * key label to Camelot code, and Camelot code to its harmonic neighbours.
 */
module Camelot {
  import opened Wrappers
  import JavaInt

  /** `keys` (PlaylistParser.java:55-68): pitch class to pitch name; -1 means no detected key. */
  const PitchNames: map<int, string> := map[
    -1 := "NO_KEY",
    0 := "C", 1 := "D♭", 2 := "D", 3 := "E♭", 4 := "E", 5 := "F",
    6 := "F♯", 7 := "G", 8 := "A♭", 9 := "A", 10 := "B♭", 11 := "B"]

  /** `camelot` (PlaylistParser.java:70-94): key label to Camelot code, `a` for minor and `b` for major. */
  const Codes: map<string, string> := map[
    "A♭-Min" := "a1", "E♭-Min" := "a2", "B♭-Min" := "a3", "F-Min" := "a4",
    "C-Min" := "a5", "G-Min" := "a6", "D-Min" := "a7", "A-Min" := "a8",
    "E-Min" := "a9", "B-Min" := "a10", "F♯-Min" := "a11", "D♭-Min" := "a12",
    "B-Maj" := "b1", "F♯-Maj" := "b2", "D♭-Maj" := "b3", "A♭-Maj" := "b4",
    "E♭-Maj" := "b5", "B♭-Maj" := "b6", "F-Maj" := "b7", "C-Maj" := "b8",
    "G-Maj" := "b9", "D-Maj" := "b10", "A-Maj" := "b11", "E-Maj" := "b12"]

  /** `harmonies` (PlaylistParser.java:115-139): each code's compatible codes, as listed. */
  const Harmonies: map<string, seq<string>> := map[
    "a1" := ["a12", "a2", "b1"], "a2" := ["a1", "a3", "b2"],
    "a3" := ["a2", "a4", "b3"], "a4" := ["a3", "a5", "b4"],
    "a5" := ["a4", "a6", "b5"], "a6" := ["a5", "a7", "b6"],
    "a7" := ["a6", "a8", "b7"], "a8" := ["a7", "a9", "b8"],
    "a9" := ["a8", "a10", "b9"], "a10" := ["a9", "a11", "b10"],
    "a11" := ["a10", "a12", "b11"], "a12" := ["a11", "a1", "b12"],
    "b1" := ["b12", "b2", "a1"], "b2" := ["b1", "b2", "a2"],
    "b3" := ["b2", "b4", "a3"], "b4" := ["b3", "b5", "a4"],
    "b5" := ["b4", "b6", "a5"], "b6" := ["b5", "b7", "a6"],
    "b7" := ["b6", "b8", "a7"], "b8" := ["b7", "b9", "a8"],
    "b9" := ["b8", "b10", "a9"], "b10" := ["b9", "b11", "a10"],
    "b11" := ["b10", "b12", "a11"], "b12" := ["b11", "b1", "a12"]]

  /**
   * `keys.get(p)` as a string operand: a pitch class outside the table is
   * null, which Java's string concatenation writes as "null".
   */
  function PitchName(p: int): string {
    if p in PitchNames then PitchNames[p] else "null"
  }

  /** Only the exact mode text "MAJOR" is major; every other text is minor. */
  function ModeSuffix(mode: string): string {
    if mode == "MAJOR" then "Maj" else "Min"
  }

  /**
   * The key label written at PlaylistParser.java:96-98: the pitch name (or
   * "null") decided by the pitch class alone, then "-Maj" or "-Min" decided
   * by the mode text alone.
   */
  function KeyLabel(p: int, mode: string): (text: string)
    ensures |text| >= 5 && text[..|text| - 4] == PitchName(p)
    ensures text[|text| - 4..] == if mode == "MAJOR" then "-Maj" else "-Min"
  {
    PitchName(p) + "-" + ModeSuffix(mode)
  }

  /**
   * `camelot.get(keyLabel)`: null exactly when the label is not in the table
   * (CamelotFollowsWheel and UndetectedKeyHasNoCode say which labels are).
   * Which code a listed label gets is stated by CamelotFollowsWheel (the
   * wheel position on the mode's ring) and CamelotOnto (all 24 are reached).
   */
  function CamelotOf(keyLabel: string): (r: Option<string>)
    ensures r.Some? <==> keyLabel in Codes
  {
    if keyLabel in Codes then Some(Codes[keyLabel]) else None
  }

  /**
   * `harmonies.get(code)`: null for a null code or one outside the table;
   * otherwise three codes, each with an entry of its own.
   */
  function Neighbours(code: Option<string>): (r: Option<seq<string>>)
    ensures r.Some? <==> code.Some? && code.value in Harmonies
    ensures r.Some? ==> |r.value| == 3 && forall i :: 0 <= i < 3 ==> r.value[i] in Harmonies
  {
    if code.Some? && code.value in Harmonies then Some(Harmonies[code.value]) else None
  }

  // ---------------------------------------------------------------------------
  // The Camelot wheel, stated independently of the tables

  predicate IsLetter(l: char) {
    l == 'a' || l == 'b'
  }

  predicate IsPosition(n: int) {
    1 <= n <= 12
  }

  /** A Camelot code: ring letter, then wheel position in decimal. */
  function Code(l: char, n: nat): string {
    [l] + JavaInt.NatToString(n)
  }

  function OtherRing(l: char): char {
    if l == 'a' then 'b' else 'a'
  }

  function Prev(n: int): int {
    if n == 1 then 12 else n - 1
  }

  function Next(n: int): int {
    if n == 12 then 1 else n + 1
  }

  /** Mode text as `String.valueOf(Modality)` writes it. */
  function ModeText(major: bool): string {
    if major then "MAJOR" else "MINOR"
  }

  /**
   * Position of a key on the wheel: one step clockwise is a fifth up (seven
   * semitones), and position 1 holds A♭ minor and B major.
   */
  function WheelPosition(p: int, major: bool): int {
    var first := if major then 11 else 8;
    ((p - first) * 7) % 12 + 1
  }

  /** The key at a wheel position: the inverse of `WheelPosition`. */
  function PitchAt(n: int, major: bool): int {
    var first := if major then 11 else 8;
    (first + 7 * (n - 1)) % 12
  }

  /** The code the wheel gives a key. */
  function WheelCode(p: int, major: bool): string {
    Code(if major then 'b' else 'a', WheelPosition(p, major))
  }

  // ---------------------------------------------------------------------------
  // The tables, row by row

  /** One lemma per minor key: its label, its wheel code and its table entry agree (used by `CamelotFollowsWheel`). */
  lemma KeyMinor0()
    ensures CamelotOf(KeyLabel(0, ModeText(false))) == Some(WheelCode(0, false))
  {
    assert KeyLabel(0, ModeText(false)) == "C-Min";
    assert WheelCode(0, false) == "a5";
    assert CamelotOf("C-Min") == Some("a5");
  }
  lemma KeyMinor1()
    ensures CamelotOf(KeyLabel(1, ModeText(false))) == Some(WheelCode(1, false))
  {
    assert KeyLabel(1, ModeText(false)) == "D♭-Min";
    assert WheelCode(1, false) == "a12";
    assert CamelotOf("D♭-Min") == Some("a12");
  }
  lemma KeyMinor2()
    ensures CamelotOf(KeyLabel(2, ModeText(false))) == Some(WheelCode(2, false))
  {
    assert KeyLabel(2, ModeText(false)) == "D-Min";
    assert WheelCode(2, false) == "a7";
    assert CamelotOf("D-Min") == Some("a7");
  }
  lemma KeyMinor3()
    ensures CamelotOf(KeyLabel(3, ModeText(false))) == Some(WheelCode(3, false))
  {
    assert KeyLabel(3, ModeText(false)) == "E♭-Min";
    assert WheelCode(3, false) == "a2";
    assert CamelotOf("E♭-Min") == Some("a2");
  }
  lemma KeyMinor4()
    ensures CamelotOf(KeyLabel(4, ModeText(false))) == Some(WheelCode(4, false))
  {
    assert KeyLabel(4, ModeText(false)) == "E-Min";
    assert WheelCode(4, false) == "a9";
    assert CamelotOf("E-Min") == Some("a9");
  }
  lemma KeyMinor5()
    ensures CamelotOf(KeyLabel(5, ModeText(false))) == Some(WheelCode(5, false))
  {
    assert KeyLabel(5, ModeText(false)) == "F-Min";
    assert WheelCode(5, false) == "a4";
    assert CamelotOf("F-Min") == Some("a4");
  }
  lemma KeyMinor6()
    ensures CamelotOf(KeyLabel(6, ModeText(false))) == Some(WheelCode(6, false))
  {
    assert KeyLabel(6, ModeText(false)) == "F♯-Min";
    assert WheelCode(6, false) == "a11";
    assert CamelotOf("F♯-Min") == Some("a11");
  }
  lemma KeyMinor7()
    ensures CamelotOf(KeyLabel(7, ModeText(false))) == Some(WheelCode(7, false))
  {
    assert KeyLabel(7, ModeText(false)) == "G-Min";
    assert WheelCode(7, false) == "a6";
    assert CamelotOf("G-Min") == Some("a6");
  }
  lemma KeyMinor8()
    ensures CamelotOf(KeyLabel(8, ModeText(false))) == Some(WheelCode(8, false))
  {
    assert KeyLabel(8, ModeText(false)) == "A♭-Min";
    assert WheelCode(8, false) == "a1";
    assert CamelotOf("A♭-Min") == Some("a1");
  }
  lemma KeyMinor9()
    ensures CamelotOf(KeyLabel(9, ModeText(false))) == Some(WheelCode(9, false))
  {
    assert KeyLabel(9, ModeText(false)) == "A-Min";
    assert WheelCode(9, false) == "a8";
    assert CamelotOf("A-Min") == Some("a8");
  }
  lemma KeyMinor10()
    ensures CamelotOf(KeyLabel(10, ModeText(false))) == Some(WheelCode(10, false))
  {
    assert KeyLabel(10, ModeText(false)) == "B♭-Min";
    assert WheelCode(10, false) == "a3";
    assert CamelotOf("B♭-Min") == Some("a3");
  }
  lemma KeyMinor11()
    ensures CamelotOf(KeyLabel(11, ModeText(false))) == Some(WheelCode(11, false))
  {
    assert KeyLabel(11, ModeText(false)) == "B-Min";
    assert WheelCode(11, false) == "a10";
    assert CamelotOf("B-Min") == Some("a10");
  }

  /** One lemma per major key, as above. */
  lemma KeyMajor0()
    ensures CamelotOf(KeyLabel(0, ModeText(true))) == Some(WheelCode(0, true))
  {
    assert KeyLabel(0, ModeText(true)) == "C-Maj";
    assert WheelCode(0, true) == "b8";
    assert CamelotOf("C-Maj") == Some("b8");
  }
  lemma KeyMajor1()
    ensures CamelotOf(KeyLabel(1, ModeText(true))) == Some(WheelCode(1, true))
  {
    assert KeyLabel(1, ModeText(true)) == "D♭-Maj";
    assert WheelCode(1, true) == "b3";
    assert CamelotOf("D♭-Maj") == Some("b3");
  }
  lemma KeyMajor2()
    ensures CamelotOf(KeyLabel(2, ModeText(true))) == Some(WheelCode(2, true))
  {
    assert KeyLabel(2, ModeText(true)) == "D-Maj";
    assert WheelCode(2, true) == "b10";
    assert CamelotOf("D-Maj") == Some("b10");
  }
  lemma KeyMajor3()
    ensures CamelotOf(KeyLabel(3, ModeText(true))) == Some(WheelCode(3, true))
  {
    assert KeyLabel(3, ModeText(true)) == "E♭-Maj";
    assert WheelCode(3, true) == "b5";
    assert CamelotOf("E♭-Maj") == Some("b5");
  }
  lemma KeyMajor4()
    ensures CamelotOf(KeyLabel(4, ModeText(true))) == Some(WheelCode(4, true))
  {
    assert KeyLabel(4, ModeText(true)) == "E-Maj";
    assert WheelCode(4, true) == "b12";
    assert CamelotOf("E-Maj") == Some("b12");
  }
  lemma KeyMajor5()
    ensures CamelotOf(KeyLabel(5, ModeText(true))) == Some(WheelCode(5, true))
  {
    assert KeyLabel(5, ModeText(true)) == "F-Maj";
    assert WheelCode(5, true) == "b7";
    assert CamelotOf("F-Maj") == Some("b7");
  }
  lemma KeyMajor6()
    ensures CamelotOf(KeyLabel(6, ModeText(true))) == Some(WheelCode(6, true))
  {
    assert KeyLabel(6, ModeText(true)) == "F♯-Maj";
    assert WheelCode(6, true) == "b2";
    assert CamelotOf("F♯-Maj") == Some("b2");
  }
  lemma KeyMajor7()
    ensures CamelotOf(KeyLabel(7, ModeText(true))) == Some(WheelCode(7, true))
  {
    assert KeyLabel(7, ModeText(true)) == "G-Maj";
    assert WheelCode(7, true) == "b9";
    assert CamelotOf("G-Maj") == Some("b9");
  }
  lemma KeyMajor8()
    ensures CamelotOf(KeyLabel(8, ModeText(true))) == Some(WheelCode(8, true))
  {
    assert KeyLabel(8, ModeText(true)) == "A♭-Maj";
    assert WheelCode(8, true) == "b4";
    assert CamelotOf("A♭-Maj") == Some("b4");
  }
  lemma KeyMajor9()
    ensures CamelotOf(KeyLabel(9, ModeText(true))) == Some(WheelCode(9, true))
  {
    assert KeyLabel(9, ModeText(true)) == "A-Maj";
    assert WheelCode(9, true) == "b11";
    assert CamelotOf("A-Maj") == Some("b11");
  }
  lemma KeyMajor10()
    ensures CamelotOf(KeyLabel(10, ModeText(true))) == Some(WheelCode(10, true))
  {
    assert KeyLabel(10, ModeText(true)) == "B♭-Maj";
    assert WheelCode(10, true) == "b6";
    assert CamelotOf("B♭-Maj") == Some("b6");
  }
  lemma KeyMajor11()
    ensures CamelotOf(KeyLabel(11, ModeText(true))) == Some(WheelCode(11, true))
  {
    assert KeyLabel(11, ModeText(true)) == "B-Maj";
    assert WheelCode(11, true) == "b1";
    assert CamelotOf("B-Maj") == Some("b1");
  }

  /** One lemma per ring-a entry of the neighbour table: previous, next and other-ring code (used by `AdjacencyShapeA`). */
  lemma RowA1()
    ensures Code('a', 1) in Harmonies && Harmonies[Code('a', 1)] == [Code('a', 12), Code('a', 2), Code('b', 1)]
  {
    assert Code('a', 1) == "a1";
    assert Code('a', 12) == "a12";
    assert Code('a', 2) == "a2";
    assert Code('b', 1) == "b1";
    assert Harmonies["a1"] == ["a12", "a2", "b1"];
  }
  lemma RowA2()
    ensures Code('a', 2) in Harmonies && Harmonies[Code('a', 2)] == [Code('a', 1), Code('a', 3), Code('b', 2)]
  {
    assert Code('a', 2) == "a2";
    assert Code('a', 1) == "a1";
    assert Code('a', 3) == "a3";
    assert Code('b', 2) == "b2";
    assert Harmonies["a2"] == ["a1", "a3", "b2"];
  }
  lemma RowA3()
    ensures Code('a', 3) in Harmonies && Harmonies[Code('a', 3)] == [Code('a', 2), Code('a', 4), Code('b', 3)]
  {
    assert Code('a', 3) == "a3";
    assert Code('a', 2) == "a2";
    assert Code('a', 4) == "a4";
    assert Code('b', 3) == "b3";
    assert Harmonies["a3"] == ["a2", "a4", "b3"];
  }
  lemma RowA4()
    ensures Code('a', 4) in Harmonies && Harmonies[Code('a', 4)] == [Code('a', 3), Code('a', 5), Code('b', 4)]
  {
    assert Code('a', 4) == "a4";
    assert Code('a', 3) == "a3";
    assert Code('a', 5) == "a5";
    assert Code('b', 4) == "b4";
    assert Harmonies["a4"] == ["a3", "a5", "b4"];
  }
  lemma RowA5()
    ensures Code('a', 5) in Harmonies && Harmonies[Code('a', 5)] == [Code('a', 4), Code('a', 6), Code('b', 5)]
  {
    assert Code('a', 5) == "a5";
    assert Code('a', 4) == "a4";
    assert Code('a', 6) == "a6";
    assert Code('b', 5) == "b5";
    assert Harmonies["a5"] == ["a4", "a6", "b5"];
  }
  lemma RowA6()
    ensures Code('a', 6) in Harmonies && Harmonies[Code('a', 6)] == [Code('a', 5), Code('a', 7), Code('b', 6)]
  {
    assert Code('a', 6) == "a6";
    assert Code('a', 5) == "a5";
    assert Code('a', 7) == "a7";
    assert Code('b', 6) == "b6";
    assert Harmonies["a6"] == ["a5", "a7", "b6"];
  }
  lemma RowA7()
    ensures Code('a', 7) in Harmonies && Harmonies[Code('a', 7)] == [Code('a', 6), Code('a', 8), Code('b', 7)]
  {
    assert Code('a', 7) == "a7";
    assert Code('a', 6) == "a6";
    assert Code('a', 8) == "a8";
    assert Code('b', 7) == "b7";
    assert Harmonies["a7"] == ["a6", "a8", "b7"];
  }
  lemma RowA8()
    ensures Code('a', 8) in Harmonies && Harmonies[Code('a', 8)] == [Code('a', 7), Code('a', 9), Code('b', 8)]
  {
    assert Code('a', 8) == "a8";
    assert Code('a', 7) == "a7";
    assert Code('a', 9) == "a9";
    assert Code('b', 8) == "b8";
    assert Harmonies["a8"] == ["a7", "a9", "b8"];
  }
  lemma RowA9()
    ensures Code('a', 9) in Harmonies && Harmonies[Code('a', 9)] == [Code('a', 8), Code('a', 10), Code('b', 9)]
  {
    assert Code('a', 9) == "a9";
    assert Code('a', 8) == "a8";
    assert Code('a', 10) == "a10";
    assert Code('b', 9) == "b9";
    assert Harmonies["a9"] == ["a8", "a10", "b9"];
  }
  lemma RowA10()
    ensures Code('a', 10) in Harmonies && Harmonies[Code('a', 10)] == [Code('a', 9), Code('a', 11), Code('b', 10)]
  {
    assert Code('a', 10) == "a10";
    assert Code('a', 9) == "a9";
    assert Code('a', 11) == "a11";
    assert Code('b', 10) == "b10";
    assert Harmonies["a10"] == ["a9", "a11", "b10"];
  }
  lemma RowA11()
    ensures Code('a', 11) in Harmonies && Harmonies[Code('a', 11)] == [Code('a', 10), Code('a', 12), Code('b', 11)]
  {
    assert Code('a', 11) == "a11";
    assert Code('a', 10) == "a10";
    assert Code('a', 12) == "a12";
    assert Code('b', 11) == "b11";
    assert Harmonies["a11"] == ["a10", "a12", "b11"];
  }
  lemma RowA12()
    ensures Code('a', 12) in Harmonies && Harmonies[Code('a', 12)] == [Code('a', 11), Code('a', 1), Code('b', 12)]
  {
    assert Code('a', 12) == "a12";
    assert Code('a', 11) == "a11";
    assert Code('a', 1) == "a1";
    assert Code('b', 12) == "b12";
    assert Harmonies["a12"] == ["a11", "a1", "b12"];
  }

  /** One lemma per ring-b entry of the neighbour table, as above (used by `AdjacencyShapeB`). */
  lemma RowB1()
    ensures Code('b', 1) in Harmonies && Harmonies[Code('b', 1)] == [Code('b', 12), Code('b', 2), Code('a', 1)]
  {
    assert Code('b', 1) == "b1";
    assert Code('b', 12) == "b12";
    assert Code('b', 2) == "b2";
    assert Code('a', 1) == "a1";
    assert Harmonies["b1"] == ["b12", "b2", "a1"];
  }
  lemma RowB2()
    ensures Code('b', 2) in Harmonies && Harmonies[Code('b', 2)] == [Code('b', 1), Code('b', 2), Code('a', 2)]
  {
    assert Code('b', 2) == "b2";
    assert Code('b', 1) == "b1";
    assert Code('a', 2) == "a2";
    assert Harmonies["b2"] == ["b1", "b2", "a2"];
  }
  lemma RowB3()
    ensures Code('b', 3) in Harmonies && Harmonies[Code('b', 3)] == [Code('b', 2), Code('b', 4), Code('a', 3)]
  {
    assert Code('b', 3) == "b3";
    assert Code('b', 2) == "b2";
    assert Code('b', 4) == "b4";
    assert Code('a', 3) == "a3";
    assert Harmonies["b3"] == ["b2", "b4", "a3"];
  }
  lemma RowB4()
    ensures Code('b', 4) in Harmonies && Harmonies[Code('b', 4)] == [Code('b', 3), Code('b', 5), Code('a', 4)]
  {
    assert Code('b', 4) == "b4";
    assert Code('b', 3) == "b3";
    assert Code('b', 5) == "b5";
    assert Code('a', 4) == "a4";
    assert Harmonies["b4"] == ["b3", "b5", "a4"];
  }
  lemma RowB5()
    ensures Code('b', 5) in Harmonies && Harmonies[Code('b', 5)] == [Code('b', 4), Code('b', 6), Code('a', 5)]
  {
    assert Code('b', 5) == "b5";
    assert Code('b', 4) == "b4";
    assert Code('b', 6) == "b6";
    assert Code('a', 5) == "a5";
    assert Harmonies["b5"] == ["b4", "b6", "a5"];
  }
  lemma RowB6()
    ensures Code('b', 6) in Harmonies && Harmonies[Code('b', 6)] == [Code('b', 5), Code('b', 7), Code('a', 6)]
  {
    assert Code('b', 6) == "b6";
    assert Code('b', 5) == "b5";
    assert Code('b', 7) == "b7";
    assert Code('a', 6) == "a6";
    assert Harmonies["b6"] == ["b5", "b7", "a6"];
  }
  lemma RowB7()
    ensures Code('b', 7) in Harmonies && Harmonies[Code('b', 7)] == [Code('b', 6), Code('b', 8), Code('a', 7)]
  {
    assert Code('b', 7) == "b7";
    assert Code('b', 6) == "b6";
    assert Code('b', 8) == "b8";
    assert Code('a', 7) == "a7";
    assert Harmonies["b7"] == ["b6", "b8", "a7"];
  }
  lemma RowB8()
    ensures Code('b', 8) in Harmonies && Harmonies[Code('b', 8)] == [Code('b', 7), Code('b', 9), Code('a', 8)]
  {
    assert Code('b', 8) == "b8";
    assert Code('b', 7) == "b7";
    assert Code('b', 9) == "b9";
    assert Code('a', 8) == "a8";
    assert Harmonies["b8"] == ["b7", "b9", "a8"];
  }
  lemma RowB9()
    ensures Code('b', 9) in Harmonies && Harmonies[Code('b', 9)] == [Code('b', 8), Code('b', 10), Code('a', 9)]
  {
    assert Code('b', 9) == "b9";
    assert Code('b', 8) == "b8";
    assert Code('b', 10) == "b10";
    assert Code('a', 9) == "a9";
    assert Harmonies["b9"] == ["b8", "b10", "a9"];
  }
  lemma RowB10()
    ensures Code('b', 10) in Harmonies && Harmonies[Code('b', 10)] == [Code('b', 9), Code('b', 11), Code('a', 10)]
  {
    assert Code('b', 10) == "b10";
    assert Code('b', 9) == "b9";
    assert Code('b', 11) == "b11";
    assert Code('a', 10) == "a10";
    assert Harmonies["b10"] == ["b9", "b11", "a10"];
  }
  lemma RowB11()
    ensures Code('b', 11) in Harmonies && Harmonies[Code('b', 11)] == [Code('b', 10), Code('b', 12), Code('a', 11)]
  {
    assert Code('b', 11) == "b11";
    assert Code('b', 10) == "b10";
    assert Code('b', 12) == "b12";
    assert Code('a', 11) == "a11";
    assert Harmonies["b11"] == ["b10", "b12", "a11"];
  }
  lemma RowB12()
    ensures Code('b', 12) in Harmonies && Harmonies[Code('b', 12)] == [Code('b', 11), Code('b', 1), Code('a', 12)]
  {
    assert Code('b', 12) == "b12";
    assert Code('b', 11) == "b11";
    assert Code('b', 1) == "b1";
    assert Code('a', 12) == "a12";
    assert Harmonies["b12"] == ["b11", "b1", "a12"];
  }
  // ---------------------------------------------------------------------------
  // Lemmas

  /** Adding a multiple of twelve does not change a pitch class. */
  lemma ShiftByOctaves(p: int, m: int)
    requires 0 <= p < 12
    ensures (p + 12 * m) % 12 == p
  {
  }

  /** Seven steps of a fifth, seven times over, are one step plus four octaves (49 = 1 + 4 * 12):
      a fifth is its own inverse modulo twelve, so `PitchAt` undoes `WheelPosition`. */
  lemma PositionOfPitch(p: int, major: bool)
    requires 0 <= p < 12
    ensures IsPosition(WheelPosition(p, major)) && PitchAt(WheelPosition(p, major), major) == p
  {
    var first := if major then 11 else 8;
    var x := p - first;
    var q, r := (7 * x) / 12, (7 * x) % 12;
    assert 7 * x == 12 * q + r;
    assert first + 7 * r == p + 12 * (4 * x - 7 * q);
    ShiftByOctaves(p, 4 * x - 7 * q);
  }

  /** The same cancellation in the other direction: `WheelPosition` undoes `PitchAt`. */
  lemma PitchOfPosition(n: int, major: bool)
    requires IsPosition(n)
    ensures 0 <= PitchAt(n, major) < 12 && WheelPosition(PitchAt(n, major), major) == n
  {
    var first := if major then 11 else 8;
    var y := first + 7 * (n - 1);
    var q, p := y / 12, y % 12;
    assert y == 12 * q + p;
    assert (p - first) * 7 == (n - 1) + 12 * (4 * (n - 1) - 7 * q);
    ShiftByOctaves(n - 1, 4 * (n - 1) - 7 * q);
  }

  /** Pitch classes and wheel positions correspond one to one, on either ring. */
  lemma WheelRoundTrip(p: int, n: int, major: bool)
    requires 0 <= p < 12 && IsPosition(n)
    ensures IsPosition(WheelPosition(p, major)) && PitchAt(WheelPosition(p, major), major) == p
    ensures 0 <= PitchAt(n, major) < 12 && WheelPosition(PitchAt(n, major), major) == n
  {
    PositionOfPitch(p, major);
    PitchOfPosition(n, major);
  }

  /** Two codes are equal exactly when their letters and positions are. */
  lemma CodeInjective(l1: char, n1: nat, l2: char, n2: nat)
    ensures Code(l1, n1) == Code(l2, n2) <==> l1 == l2 && n1 == n2
  {
    if Code(l1, n1) == Code(l2, n2) {
      assert Code(l1, n1)[0] == l1 && Code(l2, n2)[0] == l2;
      assert Code(l1, n1)[1..] == JavaInt.NatToString(n1);
      assert Code(l2, n2)[1..] == JavaInt.NatToString(n2);
      JavaInt.DigitsOfNatToString(n1);
      JavaInt.DigitsOfNatToString(n2);
    }
  }

  /** Every key label of a detected key is in the Camelot table, at the position the wheel gives it. */
  lemma CamelotFollowsWheel(p: int, mode: string)
    requires 0 <= p < 12
    ensures CamelotOf(KeyLabel(p, mode)) == Some(WheelCode(p, mode == "MAJOR"))
  {
    var major := mode == "MAJOR";
    assert KeyLabel(p, mode) == KeyLabel(p, ModeText(major));
    if major {
      if p == 0 { KeyMajor0(); }
      else if p == 1 { KeyMajor1(); }
      else if p == 2 { KeyMajor2(); }
      else if p == 3 { KeyMajor3(); }
      else if p == 4 { KeyMajor4(); }
      else if p == 5 { KeyMajor5(); }
      else if p == 6 { KeyMajor6(); }
      else if p == 7 { KeyMajor7(); }
      else if p == 8 { KeyMajor8(); }
      else if p == 9 { KeyMajor9(); }
      else if p == 10 { KeyMajor10(); }
      else { KeyMajor11(); }
    } else {
      if p == 0 { KeyMinor0(); }
      else if p == 1 { KeyMinor1(); }
      else if p == 2 { KeyMinor2(); }
      else if p == 3 { KeyMinor3(); }
      else if p == 4 { KeyMinor4(); }
      else if p == 5 { KeyMinor5(); }
      else if p == 6 { KeyMinor6(); }
      else if p == 7 { KeyMinor7(); }
      else if p == 8 { KeyMinor8(); }
      else if p == 9 { KeyMinor9(); }
      else if p == 10 { KeyMinor10(); }
      else { KeyMinor11(); }
    }
  }

  /**
   * The 24 (pitch class, mode) pairs get 24 different Camelot codes: two
   * detected keys share a code exactly when they are the same key.
   */
  lemma CamelotInjective(p1: int, mode1: string, p2: int, mode2: string)
    requires 0 <= p1 < 12 && 0 <= p2 < 12
    ensures CamelotOf(KeyLabel(p1, mode1)) == CamelotOf(KeyLabel(p2, mode2))
            <==> p1 == p2 && (mode1 == "MAJOR") == (mode2 == "MAJOR")
  {
    var m1, m2 := mode1 == "MAJOR", mode2 == "MAJOR";
    CamelotFollowsWheel(p1, mode1);
    CamelotFollowsWheel(p2, mode2);
    WheelRoundTrip(p1, 1, m1);
    WheelRoundTrip(p2, 1, m2);
    CodeInjective(if m1 then 'b' else 'a', WheelPosition(p1, m1), if m2 then 'b' else 'a', WheelPosition(p2, m2));
  }

  /** Every one of the 24 codes is the code of some detected key. */
  lemma CamelotOnto(l: char, n: int)
    requires IsLetter(l) && IsPosition(n)
    ensures var major := l == 'b';
            0 <= PitchAt(n, major) < 12 &&
            CamelotOf(KeyLabel(PitchAt(n, major), ModeText(major))) == Some(Code(l, n))
  {
    var major := l == 'b';
    WheelRoundTrip(0, n, major);
    CamelotFollowsWheel(PitchAt(n, major), ModeText(major));
  }

  /** The labels of an undetected key are not in the Camelot table. */
  lemma UnlistedLabels()
    ensures "NO_KEY-Maj" !in Codes && "NO_KEY-Min" !in Codes
    ensures "null-Maj" !in Codes && "null-Min" !in Codes
  {
  }

  /** Pitch class -1 ("no key") gives a `NO_KEY` label. */
  lemma NoKeyLabel(mode: string)
    ensures KeyLabel(-1, mode) == if mode == "MAJOR" then "NO_KEY-Maj" else "NO_KEY-Min"
  {
    if mode == "MAJOR" {
      assert KeyLabel(-1, mode) == "NO_KEY-Maj";
    } else {
      assert KeyLabel(-1, mode) == "NO_KEY-Min";
    }
  }

  /** A pitch class outside the table is null, written "null". */
  lemma NullPitchLabel(p: int, mode: string)
    requires !(-1 <= p < 12)
    ensures KeyLabel(p, mode) == if mode == "MAJOR" then "null-Maj" else "null-Min"
  {
    if mode == "MAJOR" {
      assert KeyLabel(p, mode) == "null-Maj";
    } else {
      assert KeyLabel(p, mode) == "null-Min";
    }
  }

  /**
   * Pitch class -1 ("no key") and any class outside the table give a label
   * that the Camelot table does not hold, so the code is null.
   */
  lemma UndetectedKeyHasNoCode(p: int, mode: string)
    requires !(0 <= p < 12)
    ensures p == -1 ==> KeyLabel(p, mode) == if mode == "MAJOR" then "NO_KEY-Maj" else "NO_KEY-Min"
    ensures p != -1 ==> KeyLabel(p, mode) == if mode == "MAJOR" then "null-Maj" else "null-Min"
    ensures CamelotOf(KeyLabel(p, mode)) == None
  {
    UnlistedLabels();
    if p == -1 {
      NoKeyLabel(mode);
    } else {
      NullPitchLabel(p, mode);
    }
  }

  lemma AdjacencyShapeA(n: int)
    requires IsPosition(n)
    ensures Code('a', n) in Harmonies
    ensures Harmonies[Code('a', n)] == [Code('a', Prev(n)), Code('a', Next(n)), Code('b', n)]
  {
    if n == 1 { RowA1(); }
    else if n == 2 { RowA2(); }
    else if n == 3 { RowA3(); }
    else if n == 4 { RowA4(); }
    else if n == 5 { RowA5(); }
    else if n == 6 { RowA6(); }
    else if n == 7 { RowA7(); }
    else if n == 8 { RowA8(); }
    else if n == 9 { RowA9(); }
    else if n == 10 { RowA10(); }
    else if n == 11 { RowA11(); }
    else { RowA12(); }
  }

  lemma AdjacencyShapeB(n: int)
    requires IsPosition(n)
    ensures Code('b', n) in Harmonies
    ensures n != 2 ==> Harmonies[Code('b', n)] == [Code('b', Prev(n)), Code('b', Next(n)), Code('a', n)]
    ensures n == 2 ==> Harmonies[Code('b', n)] == [Code('b', 1), Code('b', 2), Code('a', 2)]
  {
    if n == 1 { RowB1(); }
    else if n == 2 { RowB2(); }
    else if n == 3 { RowB3(); }
    else if n == 4 { RowB4(); }
    else if n == 5 { RowB5(); }
    else if n == 6 { RowB6(); }
    else if n == 7 { RowB7(); }
    else if n == 8 { RowB8(); }
    else if n == 9 { RowB9(); }
    else if n == 10 { RowB10(); }
    else if n == 11 { RowB11(); }
    else { RowB12(); }
  }

  /**
   * Shape of the adjacency table: every entry but b2 lists its two ring
   * neighbours, one position back and one forward, then the code at the same
   * position on the other ring; b2 lists itself where b3 belongs.
   */
  lemma AdjacencyShape(l: char, n: int)
    requires IsLetter(l) && IsPosition(n)
    ensures Code(l, n) in Harmonies
    ensures (l, n) != ('b', 2) ==>
      Harmonies[Code(l, n)] == [Code(l, Prev(n)), Code(l, Next(n)), Code(OtherRing(l), n)]
    ensures (l, n) == ('b', 2) ==> Harmonies[Code(l, n)] == [Code('b', 1), Code('b', 2), Code('a', 2)]
  {
    if l == 'a' { AdjacencyShapeA(n); } else { AdjacencyShapeB(n); }
  }

  /** Every code lists exactly three codes; only b2 lists itself. */
  lemma ThreeNeighbours(l: char, n: int)
    requires IsLetter(l) && IsPosition(n)
    ensures Code(l, n) in Harmonies && |Harmonies[Code(l, n)]| == 3
    ensures Code(l, n) in Harmonies[Code(l, n)] <==> (l, n) == ('b', 2)
  {
    AdjacencyShape(l, n);
    CodeInjective(l, n, l, Prev(n));
    CodeInjective(l, n, l, Next(n));
    CodeInjective(l, n, OtherRing(l), n);
  }

  /** What the table lists for a code, stated on the wheel: b2 lists b1, itself and a2. */
  predicate WheelListed(l1: char, n1: int, l2: char, n2: int) {
    if l1 == 'b' && n1 == 2 then
      (l2 == 'b' && (n2 == 1 || n2 == 2)) || (l2 == 'a' && n2 == 2)
    else
      (l2 == l1 && (n2 == Prev(n1) || n2 == Next(n1))) || (l2 == OtherRing(l1) && n2 == n1)
  }

  lemma ListedOnTheWheel(l1: char, n1: int, l2: char, n2: int)
    requires IsLetter(l1) && IsPosition(n1) && IsLetter(l2) && IsPosition(n2)
    ensures Code(l1, n1) in Harmonies
    ensures Code(l2, n2) in Harmonies[Code(l1, n1)] <==> WheelListed(l1, n1, l2, n2)
  {
    AdjacencyShape(l1, n1);
    if l1 == 'b' && n1 == 2 {
      CodeInjective(l2, n2, 'b', 1);
      CodeInjective(l2, n2, 'b', 2);
      CodeInjective(l2, n2, 'a', 2);
    } else {
      CodeInjective(l2, n2, l1, Prev(n1));
      CodeInjective(l2, n2, l1, Next(n1));
      CodeInjective(l2, n2, OtherRing(l1), n1);
    }
  }

  /**
   * The table is symmetric except for one pair: b3 lists b2, but b2 does not
   * list b3.
   */
  lemma SymmetricExceptB3B2(l1: char, n1: int, l2: char, n2: int)
    requires IsLetter(l1) && IsPosition(n1) && IsLetter(l2) && IsPosition(n2)
    ensures Code(l1, n1) in Harmonies && Code(l2, n2) in Harmonies
    ensures (Code(l2, n2) in Harmonies[Code(l1, n1)] && Code(l1, n1) !in Harmonies[Code(l2, n2)])
            <==> l1 == 'b' && n1 == 3 && l2 == 'b' && n2 == 2
  {
    ListedOnTheWheel(l1, n1, l2, n2);
    ListedOnTheWheel(l2, n2, l1, n1);
  }

  /** The code of every detected key has an entry in the adjacency table. */
  lemma EveryKeyHasNeighbours(p: int, mode: string)
    requires 0 <= p < 12
    ensures Neighbours(CamelotOf(KeyLabel(p, mode))).Some?
  {
    var major := mode == "MAJOR";
    CamelotFollowsWheel(p, mode);
    WheelRoundTrip(p, 1, major);
    AdjacencyShape(if major then 'b' else 'a', WheelPosition(p, major));
  }
}
