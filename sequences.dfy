/** A Sequence drives one voice through a ring of alternating event and
    duration symbols, either for a bounded number of repetitions or for ever.
    Its thread's engine requests are kept in its own log. */
module Sequences {
  import opened Engine
  import opened Durations
  import opened Voices

  /** The entry a tick with cursor `c` reads: past the end, the ring starts
      again from its first entry. */
  function RingAt(ring: seq<Symbol>, c: nat): Symbol
    requires |ring| > 0
    decreases c
  {
    if c < |ring| then ring[c] else RingAt(ring, c - |ring|)
  }

  /** Reading the ring at cursor `c` reads entry `c % |ring|`. */
  lemma {:induction false} RingAtIsMod(ring: seq<Symbol>, c: nat)
    requires |ring| > 0
    ensures RingAt(ring, c) == ring[c % |ring|]
    decreases c
  {
    if c >= |ring| {
      RingAtIsMod(ring, c - |ring|);
      ModLap(c - |ring|, |ring|);
    }
  }

  /** The actions of one `playNextNote` with cursor `c`: render the entry at
      `c`, then sleep the duration named by the entry at `c + 1`. */
  function NoteStep(v: Voice, ring: seq<Symbol>, c: nat): seq<Action>
    requires |ring| > 0
  {
    Render(v, RingAt(ring, c)) + [Sleep(NoteLengthToDuration(RingAt(ring, c + 1)))]
  }

  /** The actions of `k` consecutive steps from cursor `c`, where every step
      reads two ring entries and so advances the cursor by two. */
  function Steps(step: nat -> seq<Action>, c: nat, k: nat): seq<Action>
    decreases k
  {
    if k == 0 then [] else step(c) + Steps(step, c + 2, k - 1)
  }

  /** The actions of `k` consecutive `playNextNote`s from cursor `c`; each
      step reads two ring entries and so advances the cursor by two. */
  function NoteSteps(v: Voice, ring: seq<Symbol>, c: nat, k: nat): seq<Action>
    requires k == 0 || |ring| > 0
    decreases k
  {
    if k == 0 then [] else NoteStep(v, ring, c) + NoteSteps(v, ring, c + 2, k - 1)
  }

  /** Ring entries read in `r` full laps of a ring of `size` entries. */
  function LapEntries(r: nat, size: nat): (e: nat)
    ensures e == 0 <==> r == 0 || size == 0
    decreases r
  {
    if r == 0 then 0 else size + LapEntries(r - 1, size)
  }

  lemma {:induction false} LapEntriesIsProduct(r: nat, size: nat)
    ensures LapEntries(r, size) == r * size
    decreases r
  {
    if r > 0 {
      LapEntriesIsProduct(r - 1, size);
      assert r * size == size + (r - 1) * size;
    }
  }

  /** Number of note steps `repeat(r, _)` performs over a ring of `size`
      entries: `r * size * 0.5`, truncated to a whole count, none when `r`
      is not positive. */
  function StepCount(r: int, size: nat): (n: nat)
    ensures n > 0 ==> r > 0 && size > 0
  {
    if r <= 0 then 0 else LapEntries(r, size) / 2
  }

  /** The step count is `r * size / 2` rounded down: exactly half of
      `r * size` for an even ring, and never more than that. */
  lemma StepCountIsHalf(r: int, size: nat)
    requires r > 0
    ensures var n := StepCount(r, size);
            && 2 * n <= r * size < 2 * n + 2
            && (size % 2 == 0 ==> n == r * (size / 2))
  {
    LapEntriesIsProduct(r, size);
    if size % 2 == 0 {
      assert r * size == 2 * (r * (size / 2));
    }
  }

  /** The cue a finished bounded sequence emits: on its pattern id, if any. */
  function CueFor(patternId: Option<Symbol>): seq<Action>
  {
    if patternId.Some? then [Cue(patternId.value)] else []
  }

  /** The whole log of a bounded run (`repeat`) from cursor `c`. */
  function BoundedRun(v: Voice, ring: seq<Symbol>, c: nat, r: int, patternId: Option<Symbol>): seq<Action>
  {
    NoteSteps(v, ring, c, StepCount(r, |ring|)) + CueFor(patternId)
  }

  /** Running `k1 + k2` steps is running `k1` steps, then `k2` more from the
      cursor the first `k1` left. */
  lemma {:induction false} StepsSplit(step: nat -> seq<Action>, c: nat, k1: nat, k2: nat)
    ensures Steps(step, c, k1 + k2) == Steps(step, c, k1) + Steps(step, c + 2 * k1, k2)
    decreases k1
  {
    if k1 > 0 {
      StepsSplit(step, c + 2, k1 - 1, k2);
      assert c + 2 + 2 * (k1 - 1) == c + 2 * k1;
      assert Steps(step, c, k1 + k2) == step(c) + Steps(step, c + 2, (k1 - 1) + k2);
      AppendAssoc(step(c), Steps(step, c + 2, k1 - 1), Steps(step, c + 2 * k1, k2));
    }
  }

  /** If every step satisfies `p` exactly `m` times, `k` steps do `m * k` times. */
  lemma {:induction false} StepsCount(step: nat -> seq<Action>, c: nat, k: nat, p: Action -> bool, m: nat)
    requires forall c': nat :: Count(step(c'), p) == m
    ensures Count(Steps(step, c, k), p) == m * k
    decreases k
  {
    if k > 0 {
      StepsCount(step, c + 2, k - 1, p, m);
      CountConcat(step(c), Steps(step, c + 2, k - 1), p);
      assert m * k == m + m * (k - 1);
    }
  }

  /** If steps repeat every `n` cursor positions, so do runs of steps. */
  lemma {:induction false} StepsPeriodic(step: nat -> seq<Action>, n: nat, c: nat, k: nat)
    requires forall c': nat :: step(c' + n) == step(c')
    ensures Steps(step, c + n, k) == Steps(step, c, k)
    decreases k
  {
    if k > 0 {
      StepsPeriodic(step, n, c + 2, k - 1);
      assert Steps(step, c + n, k) == step(c + n) + Steps(step, (c + 2) + n, k - 1);
    }
  }

  /** Note steps are the generic steps of `NoteStep`. */
  lemma {:induction false} NoteStepsAreSteps(v: Voice, ring: seq<Symbol>, c: nat, k: nat)
    requires |ring| > 0
    ensures NoteSteps(v, ring, c, k) == Steps((c': nat) => NoteStep(v, ring, c'), c, k)
    decreases k
  {
    if k > 0 {
      NoteStepsAreSteps(v, ring, c + 2, k - 1);
    }
  }

  /** One note step renders the entry at `c` (nothing, or one action),
      then sleeps once, the duration named by the entry at `c + 1`. */
  lemma NoteStepShape(v: Voice, ring: seq<Symbol>, c: nat)
    requires |ring| > 0
    ensures var acts := NoteStep(v, ring, c);
            && Count(acts, IsSleep) == 1
            && Count(acts, IsCue) == 0
            && acts[|acts| - 1] == Sleep(NoteLengthToDuration(ring[(c + 1) % |ring|]))
            && acts[..|acts| - 1] == Render(v, ring[c % |ring|])
  {
    RingAtIsMod(ring, c);
    RingAtIsMod(ring, c + 1);
    var r := Render(v, RingAt(ring, c));
    var s := Sleep(NoteLengthToDuration(RingAt(ring, c + 1)));
    CountConcat(r, [s], IsSleep);
    CountConcat(r, [s], IsCue);
    assert Count([s], IsSleep) == 1;
    assert (r + [s])[..|r|] == r;
  }

  /** `k` note steps sleep exactly `k` times and never cue. */
  lemma NoteStepsCounts(v: Voice, ring: seq<Symbol>, c: nat, k: nat)
    requires k == 0 || |ring| > 0
    ensures Count(NoteSteps(v, ring, c, k), IsSleep) == k
    ensures Count(NoteSteps(v, ring, c, k), IsCue) == 0
  {
    if k > 0 {
      var step := (c': nat) => NoteStep(v, ring, c');
      forall c': nat ensures Count(step(c'), IsSleep) == 1 && Count(step(c'), IsCue) == 0 {
        NoteStepShape(v, ring, c');
      }
      NoteStepsAreSteps(v, ring, c, k);
      StepsCount(step, c, k, IsSleep, 1);
      StepsCount(step, c, k, IsCue, 0);
    }
  }

  /** Running `k1 + k2` note steps is running `k1`, then `k2` more. */
  lemma NoteStepsSplit(v: Voice, ring: seq<Symbol>, c: nat, k1: nat, k2: nat)
    requires k1 + k2 == 0 || |ring| > 0
    ensures NoteSteps(v, ring, c, k1 + k2) == NoteSteps(v, ring, c, k1) + NoteSteps(v, ring, c + 2 * k1, k2)
  {
    if k1 + k2 > 0 {
      NoteStepsAreSteps(v, ring, c, k1 + k2);
      NoteStepsAreSteps(v, ring, c, k1);
      NoteStepsAreSteps(v, ring, c + 2 * k1, k2);
      StepsSplit((c': nat) => NoteStep(v, ring, c'), c, k1, k2);
    }
  }

  /** One more `playNextNote` appends one note step at the cursor `k` steps leave. */
  lemma NoteStepsSnoc(v: Voice, ring: seq<Symbol>, c: nat, k: nat)
    requires |ring| > 0
    ensures NoteSteps(v, ring, c, k + 1) == NoteSteps(v, ring, c, k) + NoteStep(v, ring, c + 2 * k)
  {
    NoteStepsSplit(v, ring, c, k, 1);
    assert NoteSteps(v, ring, c + 2 * k, 1) == NoteStep(v, ring, c + 2 * k) + [];
  }

  /** A step from a cursor one lap further on does the same as from `c`. */
  lemma NoteStepPeriodic(v: Voice, ring: seq<Symbol>, c: nat)
    requires |ring| > 0
    ensures NoteStep(v, ring, c + |ring|) == NoteStep(v, ring, c)
  {
    assert RingAt(ring, c + |ring|) == RingAt(ring, c);
    assert RingAt(ring, c + 1 + |ring|) == RingAt(ring, c + 1);
  }

  lemma ModLap(c: nat, n: nat)
    requires n > 0
    ensures (c + n) % n == c % n
  {
    assert c + n == (c / n + 1) * n + c % n;
    ModOfMultiple(c + n, n, c / n + 1, c % n);
  }

  /** Over a ring of even length, `|ring| / 2` steps form one lap: after it
      the sequence starts again at the first (event, duration) pair. */
  lemma LapRepeats(v: Voice, ring: seq<Symbol>, c: nat, k: nat)
    requires |ring| > 0 && |ring| % 2 == 0
    ensures NoteSteps(v, ring, c, |ring| / 2 + k)
         == NoteSteps(v, ring, c, |ring| / 2) + NoteSteps(v, ring, c, k)
  {
    NoteStepsSplit(v, ring, c, |ring| / 2, k);
    NoteStepsPeriodic(v, ring, c, k);
    assert c + 2 * (|ring| / 2) == c + |ring|;
  }

  /** Note steps from a cursor one lap further on repeat those from `c`. */
  lemma NoteStepsPeriodic(v: Voice, ring: seq<Symbol>, c: nat, k: nat)
    requires |ring| > 0
    ensures NoteSteps(v, ring, c + |ring|, k) == NoteSteps(v, ring, c, k)
  {
    var step := (c': nat) => NoteStep(v, ring, c');
    forall c': nat ensures step(c' + |ring|) == step(c') {
      NoteStepPeriodic(v, ring, c');
    }
    NoteStepsAreSteps(v, ring, c, k);
    NoteStepsAreSteps(v, ring, c + |ring|, k);
    StepsPeriodic(step, |ring|, c, k);
  }

  /** Step `j` from cursor 0 over a ring of even length reads an even index
      `e` and then `e + 1`, both inside the ring. */
  lemma StepIndices(size: nat, j: nat)
    requires size > 0 && size % 2 == 0
    ensures var e := (2 * j) % size;
            e % 2 == 0 && e + 1 < size && (2 * j + 1) % size == e + 1
  {
    var m := size / 2;
    var q, r := j / m, j % m;
    assert j == q * m + r;
    assert 2 * j == q * size + 2 * r;
    ModOfMultiple(2 * j, size, q, 2 * r);
    ModOfMultiple(2 * j + 1, size, q, 2 * r + 1);
  }

  /** Over a ring of even length, step `j` from cursor 0 renders an entry at
      an even index and sleeps on the entry right after it: events and
      durations never swap roles. */
  lemma EventsAtEvenIndices(v: Voice, ring: seq<Symbol>, j: nat)
    requires |ring| > 0 && |ring| % 2 == 0
    ensures var e := (2 * j) % |ring|;
            && e % 2 == 0
            && e + 1 < |ring|
            && NoteSteps(v, ring, 0, j + 1)
               == NoteSteps(v, ring, 0, j) + Render(v, ring[e]) + [Sleep(NoteLengthToDuration(ring[e + 1]))]
  {
    StepIndices(|ring|, j);
    NoteStepsSnoc(v, ring, 0, j);
    RingAtIsMod(ring, 2 * j);
    RingAtIsMod(ring, 2 * j + 1);
  }

  /** The remainder is the unique `r` below `n` with `a == q * n + r`. */
  lemma ModOfMultiple(a: nat, n: nat, q: nat, r: nat)
    requires n > 0 && r < n && a == q * n + r
    ensures a % n == r
  {
    var q', r' := a / n, a % n;
    assert a == q' * n + r';
    if q' > q {
      assert (q' - q) * n == q' * n - q * n;
      MulAtLeast(q' - q, n);
    } else if q' < q {
      assert (q - q') * n == q * n - q' * n;
      MulAtLeast(q - q', n);
    }
  }

  lemma MulPred(x: int, n: int)
    ensures x * n == n + (x - 1) * n
  {
  }

  lemma MulAtLeast(x: int, n: int)
    requires x >= 1 && n >= 0
    ensures x * n >= n
  {
    assert x * n == (x - 1) * n + n;
  }

  /** What the thread `play` starts logs, from a sequence with voice `v`,
      ring `ring`, `r` repetitions, pattern id `patternId` and played flag
      `played`. The thread's tick counter starts at 0: a bounded run when
      `r > 0`, otherwise the first `k` passes of the unbounded loop (none
      when the loop finds the sequence already played). */
  function ThreadRun(v: Voice, ring: seq<Symbol>, r: int, patternId: Option<Symbol>,
                     played: bool, k: nat): seq<Action>
    requires r > 0 || played || |ring| > 0
  {
    if r > 0 then BoundedRun(v, ring, 0, r, patternId)
    else if played then []
    else NoteSteps(v, ring, 0, k)
  }

  /** Where that thread leaves its tick counter: two ticks per note step. */
  function ThreadCursor(r: int, size: nat, played: bool, k: nat): nat
  {
    if r > 0 then 2 * StepCount(r, size)
    else if played then 0
    else 2 * k
  }

  /** A bounded run sleeps exactly once per note step, and cues exactly
      once, as its last action, when a pattern id is set; never otherwise. */
  lemma BoundedRunShape(v: Voice, ring: seq<Symbol>, c: nat, r: int, patternId: Option<Symbol>)
    ensures var log := BoundedRun(v, ring, c, r, patternId);
            && Count(log, IsSleep) == StepCount(r, |ring|)
            && Count(log, IsCue) == (if patternId.Some? then 1 else 0)
            && (patternId.Some? ==> log[|log| - 1] == Cue(patternId.value))
            && (patternId.None? ==> log == NoteSteps(v, ring, c, StepCount(r, |ring|)))
  {
    var steps := NoteSteps(v, ring, c, StepCount(r, |ring|));
    NoteStepsCounts(v, ring, c, StepCount(r, |ring|));
    CountConcat(steps, CueFor(patternId), IsSleep);
    CountConcat(steps, CueFor(patternId), IsCue);
    assert steps + [] == steps;
  }

  /** A thread started without repetitions never cues: it sleeps once per
      pass of its loop, or does nothing when it finds the sequence played. */
  lemma UnboundedRunShape(v: Voice, ring: seq<Symbol>, r: int, patternId: Option<Symbol>,
                          played: bool, k: nat)
    requires r <= 0 && (played || |ring| > 0)
    ensures var log := ThreadRun(v, ring, r, patternId, played, k);
            && Count(log, IsCue) == 0
            && Count(log, IsSleep) == (if played then 0 else k)
  {
    if !played {
      NoteStepsCounts(v, ring, 0, k);
    }
  }

  /** Number of actions rendering the event entries (the even indices) of
      `ring` logs through voice `v`: one per event that sounds. */
  function SoundingEvents(v: Voice, ring: seq<Symbol>): nat
    decreases |ring|
  {
    if |ring| < 2 then 0 else |Render(v, ring[0])| + SoundingEvents(v, ring[2..])
  }

  /** The sounding events of two rings of whole pairs, one after the other,
      add up. */
  lemma {:induction false} SoundingEventsConcat(v: Voice, a: seq<Symbol>, b: seq<Symbol>)
    requires |a| % 2 == 0
    ensures SoundingEvents(v, a + b) == SoundingEvents(v, a) + SoundingEvents(v, b)
    decreases |a|
  {
    if |a| > 0 {
      assert (a + b)[2..] == a[2..] + b;
      assert (a + b)[0] == a[0];
      SoundingEventsConcat(v, a[2..], b);
    } else {
      assert a + b == b;
    }
  }

  /** A synth sounds every event of a ring of whole pairs that holds no
      `:none`. */
  lemma {:induction false} SynthSoundsAll(ring: seq<Symbol>)
    requires |ring| % 2 == 0
    requires forall i :: 0 <= i < |ring| ==> ring[i] != Silence
    ensures SoundingEvents(Synth, ring) == |ring| / 2
    decreases |ring|
  {
    if |ring| > 0 {
      assert ring[0] != Silence;
      SynthSoundsAll(ring[2..]);
    }
  }

  /** One note step renders what the entry at `c` renders, and sleeps. */
  lemma NoteStepRenders(v: Voice, ring: seq<Symbol>, c: nat)
    requires |ring| > 0
    ensures Count(NoteStep(v, ring, c), IsRender) == |Render(v, ring[c % |ring|])|
  {
    RingAtIsMod(ring, c);
    var sleep := Sleep(NoteLengthToDuration(RingAt(ring, c + 1)));
    CountConcat(Render(v, RingAt(ring, c)), [sleep], IsRender);
    RenderCount(v, RingAt(ring, c));
    assert Count([sleep], IsRender) == 0;
  }

  /** Steps that stay inside one lap render the sounding events they pass. */
  lemma {:induction false} StepsWithinLapRender(v: Voice, ring: seq<Symbol>, c: nat, k: nat)
    requires |ring| > 0 && c + 2 * k <= |ring|
    ensures Count(NoteSteps(v, ring, c, k), IsRender) == SoundingEvents(v, ring[c..c + 2 * k])
    decreases k
  {
    if k > 0 {
      var part := ring[c..c + 2 * k];
      NoteStepRenders(v, ring, c);
      ModOfMultiple(c, |ring|, 0, c);
      StepsWithinLapRender(v, ring, c + 2, k - 1);
      CountConcat(NoteStep(v, ring, c), NoteSteps(v, ring, c + 2, k - 1), IsRender);
      assert part[0] == ring[c];
      assert part[2..] == ring[c + 2..c + 2 * k];
    }
  }

  /** If steps repeat every lap of `n` steps, `laps` laps from cursor 0
      satisfy `p` `laps` times as often as one lap does. */
  lemma {:induction false} StepsLapsCount(step: nat -> seq<Action>, n: nat, laps: nat, p: Action -> bool)
    requires forall c': nat :: step(c' + 2 * n) == step(c')
    ensures Count(Steps(step, 0, laps * n), p) == laps * Count(Steps(step, 0, n), p)
    decreases laps
  {
    if laps > 0 {
      var rest := (laps - 1) * n;
      MulPred(laps, n);
      MulPred(laps, Count(Steps(step, 0, n), p));
      StepsSplit(step, 0, n, rest);
      StepsPeriodic(step, 2 * n, 0, rest);
      CountConcat(Steps(step, 0, n), Steps(step, 0, rest), p);
      StepsLapsCount(step, n, laps - 1, p);
    }
  }

  /** Over a ring of even length, `laps` full laps from cursor 0 sound every
      sounding event once per lap. */
  lemma LapsRender(v: Voice, ring: seq<Symbol>, laps: nat)
    requires |ring| > 0 && |ring| % 2 == 0
    ensures Count(NoteSteps(v, ring, 0, laps * (|ring| / 2)), IsRender) == laps * SoundingEvents(v, ring)
  {
    var half := |ring| / 2;
    var step := (c': nat) => NoteStep(v, ring, c');
    forall c': nat ensures step(c' + 2 * half) == step(c') {
      NoteStepPeriodic(v, ring, c');
    }
    NoteStepsAreSteps(v, ring, 0, laps * half);
    NoteStepsAreSteps(v, ring, 0, half);
    StepsLapsCount(step, half, laps, IsRender);
    StepsWithinLapRender(v, ring, 0, half);
    assert ring[0..2 * half] == ring;
  }

  /** A bounded run of `r` repetitions of an even ring, from cursor 0, sounds
      every sounding event of the ring exactly `r` times; its cue is no render. */
  lemma BoundedRunSounds(v: Voice, ring: seq<Symbol>, r: int, patternId: Option<Symbol>)
    requires r > 0 && |ring| > 0 && |ring| % 2 == 0
    ensures Count(BoundedRun(v, ring, 0, r, patternId), IsRender) == r * SoundingEvents(v, ring)
  {
    StepCountIsHalf(r, |ring|);
    LapsRender(v, ring, r);
    CountConcat(NoteSteps(v, ring, 0, StepCount(r, |ring|)), CueFor(patternId), IsRender);
    assert Count(CueFor(patternId), IsRender) == 0;
  }

  class Sequence {
    const voice: Voice
    const ring: seq<Symbol>
    const repetitions: int
    var patternId: Option<Symbol>
    var played: bool
    /** The ring's tick counter in the thread `play` last started: the index
        the next tick reads. Every new thread starts it at 0. */
    var cursor: nat
    /** What this sequence's thread has asked the engine for so far. */
    var log: seq<Action>

    /** `Sequence.new(parent, instrument, seq, repetitions = -1)`. */
    constructor (voice: Voice, ring: seq<Symbol>, repetitions: int := -1)
      ensures this.voice == voice && this.ring == ring && this.repetitions == repetitions
      ensures patternId == None && !played && cursor == 0 && log == []
    {
      this.voice := voice;
      this.ring := ring;
      this.repetitions := repetitions;
      patternId := None;
      played := false;
      cursor := 0;
      log := [];
    }

    method SetPatternId(id: Symbol)
      modifies this`patternId
      ensures patternId == Some(id)
    {
      patternId := Some(id);
    }

    /** Render the entry under the cursor, then sleep the duration after it. */
    method PlayNextNote()
      requires |ring| > 0
      modifies this`cursor, this`log
      ensures cursor == old(cursor) + 2
      ensures log == old(log) + NoteStep(voice, ring, old(cursor))
    {
      RingAtIsMod(ring, cursor);
      RingAtIsMod(ring, cursor + 1);
      var event := ring[cursor % |ring|];
      log := log + Render(voice, event);
      cursor := cursor + 1;
      var length := ring[cursor % |ring|];
      log := log + [Sleep(NoteLengthToDuration(length))];
      cursor := cursor + 1;
    }

    /** `n.times { playNextNote }`. */
    method PlayNotes(n: nat)
      requires n == 0 || |ring| > 0
      modifies this`cursor, this`log
      ensures cursor == old(cursor) + 2 * n
      ensures log == old(log) + NoteSteps(voice, ring, old(cursor), n)
    {
      ghost var start, c0 := log, cursor;
      var i := 0;
      while i < n
        invariant 0 <= i <= n
        invariant cursor == c0 + 2 * i
        invariant log == start + NoteSteps(voice, ring, c0, i)
      {
        ghost var before := log;
        PlayNextNote();
        assert log == before + NoteStep(voice, ring, c0 + 2 * i);
        NoteStepsSnoc(voice, ring, c0, i);
        AppendAssoc(start, NoteSteps(voice, ring, c0, i), NoteStep(voice, ring, c0 + 2 * i));
        i := i + 1;
      }
    }

    /** The bounded thread body: in a new thread, whose tick counter starts
        at 0, `r * size / 2` note steps, then mark the sequence played and
        cue the pattern id, if one is set. */
    method Repeat(r: int)
      modifies this`cursor, this`log, this`played
      ensures played
      ensures cursor == 2 * StepCount(r, |ring|)
      ensures log == old(log) + BoundedRun(voice, ring, 0, r, patternId)
    {
      cursor := 0;
      PlayNotes(StepCount(r, |ring|));
      played := true;
      if patternId.Some? {
        log := log + [Cue(patternId.value)];
      }
      AppendAssoc(old(log), NoteSteps(voice, ring, 0, StepCount(r, |ring|)), CueFor(patternId));
    }

    /** The unbounded thread body `while !played? do playNextNote end`, in a
        new thread whose tick counter starts at 0, run for its first `k`
        passes. */
    method SeqLoop(k: nat)
      requires played || |ring| > 0
      modifies this`cursor, this`log
      ensures cursor == (if played then 0 else 2 * k)
      ensures log == old(log) + (if played then [] else NoteSteps(voice, ring, 0, k))
    {
      cursor := 0;
      ghost var start := log;
      var i := 0;
      while !played && i < k
        invariant 0 <= i <= k
        invariant played ==> i == 0
        invariant cursor == 2 * i
        invariant log == start + NoteSteps(voice, ring, 0, i)
      {
        ghost var before := log;
        PlayNextNote();
        assert log == before + NoteStep(voice, ring, 2 * i);
        NoteStepsSnoc(voice, ring, 0, i);
        AppendAssoc(start, NoteSteps(voice, ring, 0, i), NoteStep(voice, ring, 2 * i));
        i := i + 1;
      }
      assert played ==> log == start + [];
    }

    /** `play`: bounded when `repetitions > 0`, otherwise the unbounded loop
        (observed for `k` passes), which never marks the sequence played. */
    method Play(k: nat)
      requires repetitions > 0 || played || |ring| > 0
      modifies this`cursor, this`log, this`played
      ensures repetitions > 0 ==> played
      ensures repetitions <= 0 ==> played == old(played)
      ensures cursor == ThreadCursor(repetitions, |ring|, old(played), k)
      ensures log == old(log) + ThreadRun(voice, ring, repetitions, patternId, old(played), k)
    {
      if repetitions > 0 {
        Repeat(repetitions);
      } else {
        SeqLoop(k);
      }
    }
  }
}
