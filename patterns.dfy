/** A Pattern groups sequences started together, waits until every one of
    them has played, and then cues its own "played" signal. */
module Patterns {
  import opened Engine
  import opened Sequences

  /** Where the pattern's thread is: not started, waiting on its sequences
      (the `sync` loop), or finished after cueing its signal. */
  datatype WaitState = Idle | Waiting | Done

  /** No sequence object occurs twice in `ss`. */
  ghost predicate Distinct(ss: seq<Sequence>)
  {
    forall i, j :: 0 <= i < j < |ss| ==> ss[i] != ss[j]
  }

  class Pattern {
    const patternId: Symbol
    const playedSignal: Symbol
    var sequences: seq<Sequence>
    var state: WaitState
    /** What this pattern's own thread has asked the engine for. */
    var log: seq<Action>

    /** The pattern's thread cues its signal once, when it reaches `Done`,
        and asks the engine for nothing else. */
    ghost predicate Valid()
      reads this
    {
      log == (if state == Done then [Cue(playedSignal)] else [])
    }

    /** `played?`, as a specification: every member has played. */
    ghost predicate AllPlayed()
      reads this, sequences
    {
      forall i :: 0 <= i < |sequences| ==> sequences[i].played
    }

    /** `Pattern.new(parent, patternId, playedSignal)`. */
    constructor (patternId: Symbol, playedSignal: Symbol)
      ensures this.patternId == patternId && this.playedSignal == playedSignal
      ensures sequences == [] && state == Idle && Valid()
    {
      this.patternId := patternId;
      this.playedSignal := playedSignal;
      sequences := [];
      state := Idle;
      log := [];
    }

    /** Stamp the pattern id on `s`, then append `s` to the members. */
    method AddSequence(s: Sequence)
      modifies this`sequences, s`patternId
      ensures s.patternId == Some(patternId)
      ensures sequences == old(sequences) + [s]
      ensures state == old(state) && log == old(log)
    {
      s.SetPatternId(patternId);
      sequences := sequences + [s];
    }

    /** `played?`: the conjunction of the members' flags, accumulated in
        order; true for a pattern with no members. */
    method IsPlayed() returns (played: bool)
      ensures played <==> forall i :: 0 <= i < |sequences| ==> sequences[i].played
    {
      played := true;
      for i := 0 to |sequences|
        invariant played <==> forall j :: 0 <= j < i ==> sequences[j].played
      {
        played := played && sequences[i].played;
      }
    }

    /** One pass of the wait loop `while !played? do sync patternId end`,
        taken each time the thread wakes: once every member has played, cue
        the signal and finish; otherwise keep waiting. Outside the wait
        loop it does nothing. */
    method Recheck()
      requires Valid()
      modifies this`state, this`log
      ensures Valid()
      ensures old(state) == Waiting ==> (state == Done <==> AllPlayed())
      ensures old(state) == Waiting ==> (state == Waiting <==> !AllPlayed())
      ensures old(state) != Waiting ==> state == old(state) && log == old(log)
    {
      if state == Waiting {
        var played := IsPlayed();
        if played {
          log := log + [Cue(playedSignal)];
          state := Done;
        }
      }
    }

    /** The first half of `play`: start every member's thread (each
        unbounded one observed for `k` passes of its loop). Starting a thread
        changes a member's played flag, tick counter and log, never its
        pattern id. */
    method StartMembers(k: nat)
      requires forall i :: 0 <= i < |sequences| ==>
                 sequences[i].repetitions > 0 || sequences[i].played || |sequences[i].ring| > 0
      modifies sequences
      ensures forall i :: 0 <= i < |sequences| ==>
                (sequences[i].repetitions > 0 ==> sequences[i].played)
      ensures unchanged(sequences`patternId)
      ensures forall i :: 0 <= i < |sequences| ==>
                (sequences[i].repetitions <= 0 ==> sequences[i].played == old(sequences[i].played))
      ensures Distinct(sequences) ==> forall i :: 0 <= i < |sequences| ==>
                && sequences[i].cursor
                     == ThreadCursor(sequences[i].repetitions, |sequences[i].ring|, old(sequences[i].played), k)
                && sequences[i].log == old(sequences[i].log)
                     + ThreadRun(sequences[i].voice, sequences[i].ring, sequences[i].repetitions,
                                 old(sequences[i].patternId), old(sequences[i].played), k)
    {
      ghost var distinct := Distinct(sequences);
      for i := 0 to |sequences|
        invariant forall j :: 0 <= j < i ==>
                    (sequences[j].repetitions > 0 ==> sequences[j].played)
        invariant unchanged(sequences`patternId)
        invariant forall j :: 0 <= j < |sequences| ==>
                    (sequences[j].repetitions <= 0 ==> sequences[j].played == old(sequences[j].played))
        invariant distinct ==> forall j :: 0 <= j < i ==>
                    && sequences[j].cursor
                         == ThreadCursor(sequences[j].repetitions, |sequences[j].ring|, old(sequences[j].played), k)
                    && sequences[j].log == old(sequences[j].log)
                         + ThreadRun(sequences[j].voice, sequences[j].ring, sequences[j].repetitions,
                                     old(sequences[j].patternId), old(sequences[j].played), k)
        invariant distinct ==> forall j :: i <= j < |sequences| ==>
                    unchanged(sequences[j])
      {
        var s := sequences[i];
        ghost var log0, played0 := s.log, s.played;
        if distinct {
          assert forall j :: 0 <= j < |sequences| && j != i ==> sequences[j] != s;
          assert log0 == old(s.log) && played0 == old(s.played);
        }
        s.Play(k);
        assert s.log == log0 + ThreadRun(s.voice, s.ring, s.repetitions, s.patternId, played0, k);
        assert s.cursor == ThreadCursor(s.repetitions, |s.ring|, played0, k);
      }
    }

    /** `play`: start every member, then enter the wait loop and recheck. */
    method Play(k: nat)
      requires Valid() && state == Idle
      requires forall i :: 0 <= i < |sequences| ==>
                 sequences[i].repetitions > 0 || sequences[i].played || |sequences[i].ring| > 0
      modifies this`state, this`log, sequences
      ensures Valid() && state != Idle
      ensures state == Done <==> AllPlayed()
      ensures forall i :: 0 <= i < |sequences| ==>
                (sequences[i].repetitions > 0 ==> sequences[i].played)
      ensures forall i :: 0 <= i < |sequences| ==>
                (sequences[i].repetitions <= 0 ==> sequences[i].played == old(sequences[i].played))
      ensures forall i :: 0 <= i < |sequences| ==>
                sequences[i].patternId == old(sequences[i].patternId)
      ensures Distinct(sequences) ==> forall i :: 0 <= i < |sequences| ==>
                sequences[i].cursor
                  == ThreadCursor(sequences[i].repetitions, |sequences[i].ring|, old(sequences[i].played), k)
      ensures Distinct(sequences) ==> forall i :: 0 <= i < |sequences| ==>
                sequences[i].log == old(sequences[i].log)
                  + ThreadRun(sequences[i].voice, sequences[i].ring, sequences[i].repetitions,
                              old(sequences[i].patternId), old(sequences[i].played), k)
    {
      StartMembers(k);
      state := Waiting;
      Recheck();
    }
  }
}
