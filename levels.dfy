/** Severity levels and slice types of the logger (log.go), and the pure part of
    `inputData` (core.go): the level filter, the level-to-label mapping and the
    layout of one formatted log line. */
module Levels {

  // Severity levels, in increasing order (log.go:6-13).
  const LevelAll: int := 0
  const LevelDebug: int := 1
  const LevelInfo: int := 2
  const LevelWarn: int := 3
  const LevelError: int := 4
  const LevelFatal: int := 5

  // Rotation policies (log.go:26-29).
  const SliceTypeSize: int := 0
  const SliceTypeDate: int := 1

  /** The levels are strictly increasing, and the two slice types are the only
      values of that enumeration. */
  lemma EnumerationsOrdered(sliceType: int)
    ensures LevelAll < LevelDebug < LevelInfo < LevelWarn < LevelError < LevelFatal
    ensures IsSliceType(sliceType) <==> sliceType == SliceTypeSize || sliceType == SliceTypeDate
  {
  }

  /** A level inside the enumeration. */
  predicate IsLevel(level: int) {
    LevelAll <= level <= LevelFatal
  }

  /** A slice type inside the enumeration. */
  predicate IsSliceType(sliceType: int) {
    SliceTypeSize <= sliceType <= SliceTypeDate
  }

  /** The filter of `inputData`: a line is kept unless its level is below the
      configured minimum or outside the enumeration. */
  predicate Accepts(minLevel: int, level: int) {
    !(level < minLevel || level < LevelAll || level > LevelFatal)
  }

  /** The total mapping from a level to the label written between brackets. */
  function LevelName(level: int): string
    requires IsLevel(level)
  {
    match level
    case 0 => "All"
    case 1 => "Debug"
    case 2 => "Info"
    case 3 => "Warn"
    case 4 => "Error"
    case 5 => "Fatal"
  }

  /** The line `inputData` enqueues for an accepted entry. The source spells it
      out in one switch arm per level; every arm has the layout
      `<timestamp> [<label>]:<prefix><data>`, with the label of `LevelName`. */
  function FormatEntry(timestamp: string, level: int, prefix: string, data: string): string
    requires IsLevel(level)
  {
    timestamp + " [" + LevelName(level) + "]:" + prefix + data
  }

  /** The filter is monotone in the level: whatever passes at one level also
      passes at every higher level of the enumeration, and the levels strictly
      below the minimum are exactly the valid ones that are dropped. */
  lemma AcceptsIsThreshold(minLevel: int, level: int)
    requires IsLevel(minLevel) && IsLevel(level)
    ensures Accepts(minLevel, level) <==> minLevel <= level
    ensures Accepts(minLevel, level) ==> forall higher :: level <= higher <= LevelFatal ==> Accepts(minLevel, higher)
  {
  }

  /** Distinct levels carry distinct labels; they even differ in their first letter. */
  lemma LevelNameInjective(l1: int, l2: int)
    requires IsLevel(l1) && IsLevel(l2)
    requires l1 != l2
    ensures LevelName(l1)[0] != LevelName(l2)[0]
  {
  }

  /** A formatted line determines its parts: with timestamps of one fixed layout
      and one prefix, two equal lines have the same timestamp, level and text. */
  lemma {:induction false} FormatEntryInjective(ts1: string, l1: int, d1: string,
                                                ts2: string, l2: int, d2: string, prefix: string)
    requires IsLevel(l1) && IsLevel(l2)
    requires |ts1| == |ts2|
    requires FormatEntry(ts1, l1, prefix, d1) == FormatEntry(ts2, l2, prefix, d2)
    ensures ts1 == ts2 && l1 == l2 && d1 == d2
  {
    var e1 := FormatEntry(ts1, l1, prefix, d1);
    var e2 := FormatEntry(ts2, l2, prefix, d2);
    assert ts1 == e1[..|ts1|] == e2[..|ts2|] == ts2;
    assert e1[|ts1| + 2] == LevelName(l1)[0];
    assert e2[|ts2| + 2] == LevelName(l2)[0];
    if l1 != l2 {
      LevelNameInjective(l1, l2);
      assert false;
    }
    var head := ts1 + " [" + LevelName(l1) + "]:" + prefix;
    assert e1 == head + d1 && e2 == head + d2;
    assert d1 == e1[|head|..] == e2[|head|..] == d2;
  }
}
