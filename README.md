# A sequencer for a Sonic Pi score, modelled in Dafny

`aujourdhuijecode.rb` is a Sonic Pi piece built on a small sequencer.

- A **Sequence** drives one voice through a ring of alternating event and duration symbols.
  - Each `playNextNote` renders the event under the ring's cursor and sleeps for the duration named by the next entry.
  - A sequence started with repetitions plays `repetitions × size / 2` note steps, marks itself played, and cues its pattern's id.
  - A sequence started without repetitions loops until it is marked played, which never happens.
- A **Pattern** groups sequences.
  - `addSequence` stamps the pattern's id on the sequence and appends it.
  - `play` starts every member, then waits (`sync` on its id) until every member has played, and cues its own signal.
- The **voices**:
  - a synth sounds every event except `:none`;
  - a sample sounds only on `:x`, with its own envelope and amplitude 2.
- The **score** plays an intro (the synth riff four times), waits for it, then plays a verse (four drum rings and the riff, eight times each).

The model replaces the audio engine with an append-only log of the actions asked of it:

- a synth note;
- a sample trigger with its parameters;
- a sleep of a number of beats;
- a cue on a signal.

Every thread keeps its own log. That makes what each thread does deterministic, whatever order the threads interleave in.

Modules:

- `Engine` (engine.dfy): symbols, actions and counting over a log.
- `Durations` (durations.dfy): `noteLengthToDuration`, as a function, checked against a separate table.
- `Voices` (voices.dfy): `Synth#play` and `Sample#play`, as the actions a render logs.
- `Sequences` (sequences.dfy):
  - the `Sequence` class, with its cursor, `played` flag, pattern id and log;
  - the specification functions its methods are proved against (`NoteStep`, `NoteSteps`, `BoundedRun`, `ThreadRun`);
  - the lemmas about those functions.
- `Patterns` (patterns.dfy): the `Pattern` class, including its wait loop as a `Recheck` step.
- `Score` (score.dfy):
  - the piece's rings and voices;
  - the intro and verse played through `Pattern` and `Sequence` objects;
  - the concrete counts of what each thread logs.

How the source maps to the model:

- `Sequence#played?` is the `played` field, read directly.
- The ring's `tick` counter is the sequence's `cursor`. Each `play` starts a new thread, and that thread's counter starts at 0, so `Repeat` and `SeqLoop` reset the cursor to 0 before their first step. Entry `c` of the ring is entry `c % size` of the list.
- The durations are exact in `real`: every one is a multiple of 1/32 beat.

Two facts of the synth voice shape its model:

- Every synth note is wrapped in one `with_fx :distortion` (aujourdhuijecode.rb:34). The model logs the synth's whole `play` as one opaque note action.
- Every `Synth` is built with an LFO (aujourdhuijecode.rb:21-26, 184), from which its cutoff is computed on each note (line 33). That cutoff arithmetic is left out.

## Model

| member | source | states |
|---|---|---|
| Durations.NoteLengthToDuration | aujourdhuijecode.rb:118-143 | every duration is at least a thirty-second note (0.125 beat) and at most a whole note (4 beats) |
| Durations.DurationFollowsTable | aujourdhuijecode.rb:118-143 | each of the ten duration symbols maps to its beat count in the table; every other symbol, whatever it is, maps to the default of one beat |
| Durations.DurationOnThirtySecondGrid | aujourdhuijecode.rb:118-143 | every duration is a whole number of thirty-second notes, between 4 and 128 |
| Voices.RenderSilentExactly | aujourdhuijecode.rb:30-62 | a render logs at most one action, and that action is a render. It logs nothing exactly when a synth gets `:none`, or when a sample gets anything but `:x`. A synth logs the note itself; a sample logs its own name, envelope and amplitude 2 |
| Sequences.RingAtIsMod | aujourdhuijecode.rb:71 | reading the ring at cursor `c` reads entry `c % size`: the ring wraps around |
| Sequences.NoteStepShape | aujourdhuijecode.rb:113-116 | one note step with cursor `c` first renders the entry at `c % size`, then sleeps exactly once, for the duration named by the entry at `(c + 1) % size`, as its last action; it never cues |
| Sequences.Sequence.PlayNextNote | aujourdhuijecode.rb:113-116 | the cursor advances by two, and the log grows by exactly one note step from the old cursor |
| Sequences.EventsAtEvenIndices | aujourdhuijecode.rb:113-116 | over an even ring, step `j` from cursor 0 reads an even index `e` with `e + 1` inside the ring. The `j + 1` steps log the first `j` steps, then the render of entry `e`, then a sleep for the duration entry `e + 1` names. So events and durations never swap roles |
| Sequences.NoteStepsPeriodic | aujourdhuijecode.rb:113-116 | note steps from a cursor one lap further on log the same actions |
| Sequences.LapRepeats | aujourdhuijecode.rb:113-116 | over an even ring, after `size / 2` steps the sequence starts again at the first (event, duration) pair |
| Sequences.NoteStepsCounts | aujourdhuijecode.rb:113-116 | `k` note steps sleep exactly `k` times and never cue |
| Sequences.NoteStepsSplit | aujourdhuijecode.rb:103-105 | running `k1 + k2` steps logs `k1` steps, then `k2` steps from the cursor the first ones left |
| Sequences.Sequence.PlayNotes | aujourdhuijecode.rb:103-105 | `n` calls of `playNextNote` advance the cursor by `2n` and log exactly `n` note steps from the old cursor |
| Sequences.StepCountIsHalf | aujourdhuijecode.rb:103 | the number of steps of `repeat(r)` is `r × size / 2` rounded down: exactly half for an even ring, and never more |
| Sequences.BoundedRunShape | aujourdhuijecode.rb:100-111 | a bounded run sleeps once per note step. It cues exactly once, as its last action, on the pattern id when one is set. Otherwise it is only the note steps |
| Sequences.LapsRender | aujourdhuijecode.rb:103-105 | over an even ring, `laps` full laps from cursor 0 render every sounding event of the ring once per lap |
| Sequences.BoundedRunSounds | aujourdhuijecode.rb:100-111 | a bounded run of `r` repetitions of an even ring renders `r` times the events of one lap that sound; its cue is not a render |
| Sequences.UnboundedRunShape | aujourdhuijecode.rb:91-98 | a thread started without repetitions never cues. It sleeps once per pass of its loop, or logs nothing when it finds the sequence already played |
| Sequences.SynthSoundsAll | aujourdhuijecode.rb:30-31 | a synth sounds every event of a ring that holds no `:none` |
| Sequences.Sequence.constructor | aujourdhuijecode.rb:66-73 | a new sequence has the given voice, ring and repetitions (-1 by default), no pattern id, is not played, has cursor 0 and an empty log |
| Sequences.Sequence.SetPatternId | aujourdhuijecode.rb:75-77 | the pattern id becomes the given one |
| Sequences.Sequence.Repeat | aujourdhuijecode.rb:100-111 | the thread's tick counter starts at 0. The sequence ends played, with its cursor at two per note step. The log grows by the bounded run from cursor 0: the note steps, then the cue when a pattern id is set |
| Sequences.Sequence.SeqLoop | aujourdhuijecode.rb:91-98 | the thread's tick counter starts at 0. The first `k` passes of the `while !played?` loop log `k` note steps from cursor 0 and leave the cursor at `2k`. A sequence already played logs nothing and keeps the cursor at 0 |
| Sequences.Sequence.Play | aujourdhuijecode.rb:83-89 | with repetitions the sequence ends played and logs its bounded run; otherwise its played flag is unchanged and it logs the unbounded loop's passes. The cursor ends where that thread's steps leave it, counted from 0 |
| Patterns.Pattern.constructor | aujourdhuijecode.rb:148-153 | a new pattern has the given id and signal, no members, has not started and has logged nothing |
| Patterns.Pattern.AddSequence | aujourdhuijecode.rb:155-158 | the member's pattern id becomes the pattern's id, and the member is appended after the unchanged earlier members; nothing else changes |
| Patterns.Pattern.IsPlayed | aujourdhuijecode.rb:172-178 | the result is true if and only if every member is played, so it is true for a pattern with no members |
| Patterns.Pattern.Recheck | aujourdhuijecode.rb:165-168 | while waiting, a wake-up finishes the pattern if and only if every member has played, and keeps it waiting otherwise. The pattern's thread has cued its signal once when done and never before. Outside the wait loop a wake-up changes nothing |
| Patterns.Pattern.StartMembers | aujourdhuijecode.rb:161-164 | every member with repetitions ends played; the others keep their played flag. No member's pattern id changes. When no member appears twice, each member's log grows by exactly what its thread runs, and its cursor ends where that thread leaves it |
| Patterns.Pattern.Play | aujourdhuijecode.rb:160-170 | after `play` the pattern is waiting or done. It is done exactly when every member has played, and only then has it cued its signal, once. The members' played flags, pattern ids, cursors and logs change as in `StartMembers` |
| Score.DrumRingsAreBars | aujourdhuijecode.rb:197-200 | each drum ring is four bars of two (event, duration) pairs; the pedal hi-hat ring is the kick ring |
| Score.ScoreStepCounts | aujourdhuijecode.rb:191-201 | the riff plays 36 note steps in the intro (18 entries, 4 times) and 72 in the verse; every drum ring plays 64 (16 entries, 8 times) |
| Score.ScoreSoundingEvents | aujourdhuijecode.rb:184-201 | per lap the riff sounds 8 of its 9 events (all but the opening `:none`); the kick and the pedal hi-hat hit 4 times, the snare twice and the open hi-hat once |
| Score.PlayPattern | aujourdhuijecode.rb:191-206 | a pattern built as the score builds one, with a bounded sequence per voice and ring: each member's thread sleeps once per note step, renders each sounding event once per lap and ends with the pattern's cue. The pattern's thread cues its signal |
| Score.PlayIntro | aujourdhuijecode.rb:191-205 | the intro's riff thread sleeps 36 times, renders 32 notes and ends with the cue `:intro`; the intro then cues `:intro_played` |
| Score.VerseCounts | aujourdhuijecode.rb:196-201 | the verse has five members with even rings. Played eight times, each drum ring takes 64 note steps and the riff 72. The kick sounds 32 times, the snare 16, the pedal hi-hat 32, the open hi-hat 8 and the riff 64 |
| Score.PlayVerse | aujourdhuijecode.rb:196-207 | each verse member's thread logs those counts of sleeps and renders and ends with the cue `:verse`; the verse then cues `:verse_played` |
| Score.PlayScore | aujourdhuijecode.rb:204-207 | both of the main thread's waits end: `:intro_played` and then `:verse_played` are cued |

## Left out

- The `Lfo` class (lines 1-19) is not modelled. It is an endless background thread that steps through a mirrored range built by the engine library, in floating point.
- The synth's cutoff (line 33) is not modelled: it is floating-point interpolation from the LFO's value.
- The synth's `use_synth`, `with_fx` and note parameters (lines 32-38) are engine calls. They are logged as one opaque note action that carries the note.
- The voices' constructor-only parameters are not modelled: the synth's cutoff range, resonance and note length, and every `parent` handle.
- Threads are not modelled as interleavings.
  - `in_thread` becomes one log per thread.
  - `cue` is a logged action.
  - The `sync` wait loop is the explicit `Pattern.Recheck` step, taken on each wake-up.
  - When the engine delivers wake-ups, and what the main thread's `sync` does, are not modelled.
- `use_bpm` and the tempo are not modelled: the tempo is engine state, and a sleep records only its beat count.
- Sequences.StepCount: `(r * size * 0.5).times` is computed on a float. The model rounds the count down to a whole number, which is the truncation policy chosen for odd products. It does no steps when `r * size` is not positive.
- Sequences.Sequence.SeqLoop: the loop never ends on its own, so it is observed for its first `k` passes. `Sequence.Play` and `Pattern.Play` take the same bound.
- Sequences.Sequence.PlayNextNote: it requires a non-empty ring, because how the engine ticks an empty ring is not visible. A bounded run over an empty ring does no steps and needs no such requirement.
- Patterns.Pattern.Play: it requires a pattern that has not started. It models one `play` per pattern, as the score does. A second `play` would start a second thread on the same members.
- Patterns.Pattern.StartMembers: each member's cursor and log growth are stated only when no sequence object was added twice. A member added twice would be started twice.
- Sequences.Sequence.Play: the engine keeps one `tick` counter per thread. The model keeps only the counter of the thread that `play` last started, as the sequence's cursor.
- Engine.Symbol: any symbol outside the sequencer's own vocabulary is `Named` by its name, and such names never collide with the symbols that have their own constructor.
- Voices.Render: its contract is stated by the lemma `Voices.RenderSilentExactly` rather than on the function.
- Score.ScoreSoundingEvents: the drum rings are written exactly as in the score. The proofs count their sounding events through bars of four entries, which `Score.DrumRingsAreBars` shows the rings are.
