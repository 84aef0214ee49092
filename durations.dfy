/** Note lengths: the duration symbols of a ring and the number of beats each
    one sleeps. */
module Durations {
  import opened Engine

  /** The closed table of duration symbols, in beats. Every entry is a whole
      number of thirty-second notes (1/8 of a beat). */
  const DurationTable: map<Symbol, real> := map[
    NW := 4.0,
    NH := 2.0,
    NHDotted := 3.0,
    NQ := 1.0,
    NQDotted := 1.5,
    N8th := 0.5,
    N8thDotted := 0.75,
    N16th := 0.25,
    N16thDotted := 0.375,
    N32nd := 0.125
  ]

  /** Any symbol outside the table sleeps one beat. */
  const DefaultBeats: real := 1.0

  /** `Sequence#noteLengthToDuration`: a case dispatch with a default arm. */
  function NoteLengthToDuration(l: Symbol): (beats: real)
    ensures 0.125 <= beats <= 4.0
  {
    match l
    case NW => 4.0
    case NH => 2.0
    case NHDotted => 3.0
    case NQ => 1.0
    case NQDotted => 1.5
    case N8th => 0.5
    case N8thDotted => 0.75
    case N16th => 0.25
    case N16thDotted => 0.375
    case N32nd => 0.125
    case _ => 1.0
  }

  /** The dispatch agrees with the table, and falls back to one beat for
      every symbol the table does not list. */
  lemma DurationFollowsTable(l: Symbol)
    ensures l in DurationTable ==> NoteLengthToDuration(l) == DurationTable[l]
    ensures l !in DurationTable ==> NoteLengthToDuration(l) == DefaultBeats
  {
  }

  /** Every duration is between a thirty-second note and a whole note and
      lies on the thirty-second-note grid, so it is exact in binary. */
  lemma DurationOnThirtySecondGrid(l: Symbol)
    ensures var units := NoteLengthToDuration(l) * 32.0;
            units.Floor as real == units && 4 <= units.Floor <= 128
  {
  }
}
