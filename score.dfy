/** The piece itself: an intro pattern (the synth riff, four times) followed
    by a verse pattern (four drum rings and the riff, eight times each). */
module Score {
  import opened Engine
  import opened Voices
  import opened Sequences
  import opened Patterns

  /** A rest in a drum ring: a symbol no voice sounds. */
  const Rest: Symbol := Named("o")

  /** The synth riff: nine (event, duration) pairs, opening on a silent event. */
  const Riff: seq<Symbol> := [
    Silence, N16th, Named("c4"), N16th, Named("a2"), N8th, Named("a3"), N8th,
    Named("a2"), N8th, Named("c3"), N8th, Named("d3"), N16th, Named("e3"), N8thDotted,
    Named("a2"), N8th]

  const KickRing: seq<Symbol> := [
    Hit, N8th, Rest, N8th, Hit, N8th, Rest, N8th,
    Hit, N8th, Rest, N8th, Hit, N8th, Rest, N8th]

  const SnareRing: seq<Symbol> := [
    Rest, N8th, Rest, N8th, Hit, N8th, Rest, N8th,
    Rest, N8th, Rest, N8th, Hit, N8th, Rest, N8th]

  const PedalHhRing: seq<Symbol> := [
    Hit, N8th, Rest, N8th, Hit, N8th, Rest, N8th,
    Hit, N8th, Rest, N8th, Hit, N8th, Rest, N8th]

  const OpenHhRing: seq<Symbol> := [
    Rest, N8th, Rest, N8th, Rest, N8th, Rest, N8th,
    Rest, N8th, Rest, N8th, Rest, N8th, Hit, N8th]

  /** A member of a pattern: a voice and the ring it plays. */
  datatype Part = Part(voice: Voice, ring: seq<Symbol>)

  const Kick: Voice := Sample(Named("drum_heavy_kick"))
  const Snare: Voice := Sample(Named("drum_snare_hard"))
  const PedalHh: Voice := Sample(Named("drum_cymbal_pedal"))
  const OpenHh: Voice := Sample(Named("drum_cymbal_open"), 0.0, 0.25, 0.0, 0.0)

  /** Step counts of the score's sequences: the riff plays 36 note steps in
      the intro and 72 in the verse, every drum ring 64. */
  lemma ScoreStepCounts()
    ensures StepCount(4, |Riff|) == 36
    ensures StepCount(8, |Riff|) == 72
    ensures StepCount(8, |KickRing|) == 64
    ensures StepCount(8, |SnareRing|) == 64
    ensures StepCount(8, |PedalHhRing|) == 64
    ensures StepCount(8, |OpenHhRing|) == 64
  {
    StepCountIsHalf(4, |Riff|);
    StepCountIsHalf(8, |Riff|);
    StepCountIsHalf(8, 16);
  }

  /** Four-entry bars the drum rings are made of. */
  const RestBar: seq<Symbol> := [Rest, N8th, Rest, N8th]
  const HitFirstBar: seq<Symbol> := [Hit, N8th, Rest, N8th]
  const HitLastBar: seq<Symbol> := [Rest, N8th, Hit, N8th]

  /** Each drum ring is four of those bars. */
  lemma DrumRingsAreBars()
    ensures KickRing == HitFirstBar + HitFirstBar + HitFirstBar + HitFirstBar
    ensures SnareRing == RestBar + HitFirstBar + RestBar + HitFirstBar
    ensures PedalHhRing == KickRing
    ensures OpenHhRing == RestBar + RestBar + RestBar + HitLastBar
  {
  }

  /** A sample sounds once in a bar with a hit, never in a bar of rests. */
  lemma BarsSound(v: Voice)
    requires v.Sample?
    ensures SoundingEvents(v, RestBar) == 0
    ensures SoundingEvents(v, HitFirstBar) == 1
    ensures SoundingEvents(v, HitLastBar) == 1
  {
    assert RestBar[2..] == [Rest, N8th];
    assert HitFirstBar[2..] == [Rest, N8th];
    assert HitLastBar[2..] == [Hit, N8th];
    assert [Rest, N8th][2..] == [] && [Hit, N8th][2..] == [];
    assert Render(v, Rest) == [] && |Render(v, Hit)| == 1;
    assert SoundingEvents(v, [Rest, N8th]) == 0;
  }

  /** Sounding events of a ring of four bars. */
  lemma FourBarsSound(v: Voice, a: seq<Symbol>, b: seq<Symbol>, c: seq<Symbol>, d: seq<Symbol>)
    requires |a| % 2 == 0 && |b| % 2 == 0 && |c| % 2 == 0
    ensures SoundingEvents(v, a + b + c + d)
         == SoundingEvents(v, a) + SoundingEvents(v, b) + SoundingEvents(v, c) + SoundingEvents(v, d)
  {
    SoundingEventsConcat(v, a + b + c, d);
    SoundingEventsConcat(v, a + b, c);
    SoundingEventsConcat(v, a, b);
  }

  /** Sounding events per lap: eight of the riff's nine events sound (all
      but the opening `:none`); the kick and pedal hi-hat hit four times,
      the snare twice and the open hi-hat once. */
  lemma ScoreSoundingEvents()
    ensures SoundingEvents(Synth, Riff) == 8
    ensures SoundingEvents(Kick, KickRing) == 4
    ensures SoundingEvents(Snare, SnareRing) == 2
    ensures SoundingEvents(PedalHh, PedalHhRing) == 4
    ensures SoundingEvents(OpenHh, OpenHhRing) == 1
  {
    assert Riff[2..][0] != Silence;
    SynthSoundsAll(Riff[2..]);
    DrumRingsAreBars();
    BarsSound(Kick);
    BarsSound(Snare);
    BarsSound(PedalHh);
    BarsSound(OpenHh);
    FourBarsSound(Kick, HitFirstBar, HitFirstBar, HitFirstBar, HitFirstBar);
    FourBarsSound(Snare, RestBar, HitFirstBar, RestBar, HitFirstBar);
    FourBarsSound(PedalHh, HitFirstBar, HitFirstBar, HitFirstBar, HitFirstBar);
    FourBarsSound(OpenHh, RestBar, RestBar, RestBar, HitLastBar);
  }

  /** What a bounded sequence of the score logs, started from cursor 0 in a
      pattern with id `patternId`: one sleep per note step, one render per
      sounding event per lap, and the pattern's cue last. */
  lemma ScoreRun(v: Voice, ring: seq<Symbol>, r: int, patternId: Symbol)
    requires r > 0 && |ring| > 0 && |ring| % 2 == 0
    ensures var log := BoundedRun(v, ring, 0, r, Some(patternId));
            && Count(log, IsSleep) == StepCount(r, |ring|)
            && Count(log, IsRender) == r * SoundingEvents(v, ring)
            && log[|log| - 1] == Cue(patternId)
  {
    BoundedRunShape(v, ring, 0, r, Some(patternId));
    BoundedRunSounds(v, ring, r, Some(patternId));
  }

  /** `Pattern.new`, then one `addSequence` of a new bounded sequence of `r`
      repetitions per part, in order. */
  method NewPattern(parts: seq<Part>, r: int, patternId: Symbol, signal: Symbol)
    returns (pattern: Pattern)
    ensures fresh(pattern) && pattern.state == Idle && pattern.Valid()
    ensures pattern.patternId == patternId && pattern.playedSignal == signal
    ensures |pattern.sequences| == |parts| && Distinct(pattern.sequences)
    ensures forall j :: 0 <= j < |parts| ==>
              var s := pattern.sequences[j];
              && fresh(s) && s.voice == parts[j].voice && s.ring == parts[j].ring && s.repetitions == r
              && s.patternId == Some(patternId) && !s.played && s.cursor == 0 && s.log == []
  {
    pattern := new Pattern(patternId, signal);
    for i := 0 to |parts|
      invariant fresh(pattern) && pattern.state == Idle && pattern.Valid()
      invariant pattern.patternId == patternId && pattern.playedSignal == signal
      invariant |pattern.sequences| == i
      invariant Distinct(pattern.sequences)
      invariant forall j :: 0 <= j < i ==>
                  var s := pattern.sequences[j];
                  && fresh(s) && s.voice == parts[j].voice && s.ring == parts[j].ring && s.repetitions == r
                  && s.patternId == Some(patternId) && !s.played && s.cursor == 0 && s.log == []
    {
      var s := new Sequence(parts[i].voice, parts[i].ring, r);
      pattern.AddSequence(s);
    }
  }

  /** What each member's thread has logged, in member order. */
  method MemberLogs(members: seq<Sequence>) returns (logs: seq<seq<Action>>)
    ensures |logs| == |members|
    ensures forall i :: 0 <= i < |members| ==> logs[i] == members[i].log
  {
    logs := [];
    for i := 0 to |members|
      invariant |logs| == i
      invariant forall j :: 0 <= j < i ==> logs[j] == members[j].log
    {
      logs := logs + [members[i].log];
    }
  }

  /** A pattern built as the score builds one (`Pattern.new`, then
      `addSequence` of one bounded sequence per voice and ring, each of `r`
      repetitions) and played. Each member's thread logs its bounded run from
      cursor 0: one sleep per note step, every sounding event once per lap,
      and the pattern's cue last; the pattern's thread then cues its signal. */
  method PlayPattern(parts: seq<Part>, r: int, patternId: Symbol, signal: Symbol)
    returns (logs: seq<seq<Action>>, signalLog: seq<Action>)
    requires r > 0
    requires forall i :: 0 <= i < |parts| ==> |parts[i].ring| > 0 && |parts[i].ring| % 2 == 0
    ensures |logs| == |parts|
    ensures forall i :: 0 <= i < |logs| ==>
              && Count(logs[i], IsSleep) == StepCount(r, |parts[i].ring|)
              && Count(logs[i], IsRender) == r * SoundingEvents(parts[i].voice, parts[i].ring)
              && logs[i] != [] && logs[i][|logs[i]| - 1] == Cue(patternId)
    ensures signalLog == [Cue(signal)]
  {
    var pattern := NewPattern(parts, r, patternId, signal);
    pattern.Play(0);
    logs := MemberLogs(pattern.sequences);
    forall i | 0 <= i < |logs|
      ensures && Count(logs[i], IsSleep) == StepCount(r, |parts[i].ring|)
              && Count(logs[i], IsRender) == r * SoundingEvents(parts[i].voice, parts[i].ring)
              && logs[i] != [] && logs[i][|logs[i]| - 1] == Cue(patternId)
    {
      var run := BoundedRun(parts[i].voice, parts[i].ring, 0, r, Some(patternId));
      assert logs[i] == [] + run;
      assert [] + run == run;
      ScoreRun(parts[i].voice, parts[i].ring, r, patternId);
    }
    signalLog := pattern.log;
  }

  /** `intro.play`: the riff four times, then the intro's signal. Returns
      what the riff's thread and the intro's own thread log. */
  method PlayIntro() returns (riffLog: seq<Action>, signalLog: seq<Action>)
    ensures Count(riffLog, IsSleep) == 36 && Count(riffLog, IsRender) == 32
    ensures riffLog != [] && riffLog[|riffLog| - 1] == Cue(Named("intro"))
    ensures signalLog == [Cue(Named("intro_played"))]
  {
    var logs;
    logs, signalLog := PlayPattern([Part(Synth, Riff)], 4, Named("intro"), Named("intro_played"));
    riffLog := logs[0];
    ScoreStepCounts();
    ScoreSoundingEvents();
  }

  /** The verse's members, in the order the score adds them. */
  const Verse: seq<Part> := [
    Part(Kick, KickRing), Part(Snare, SnareRing), Part(PedalHh, PedalHhRing),
    Part(OpenHh, OpenHhRing), Part(Synth, Riff)]

  /** The counts of one verse member: its note steps over eight passes of
      its ring, and the events of one pass that sound. */
  lemma VerseKick()
    ensures StepCount(8, |Verse[0].ring|) == 64 && SoundingEvents(Verse[0].voice, Verse[0].ring) == 4
  {
    assert Verse[0] == Part(Kick, KickRing);
    ScoreStepCounts();
    ScoreSoundingEvents();
  }

  lemma VerseSnare()
    ensures StepCount(8, |Verse[1].ring|) == 64 && SoundingEvents(Verse[1].voice, Verse[1].ring) == 2
  {
    assert Verse[1] == Part(Snare, SnareRing);
    ScoreStepCounts();
    ScoreSoundingEvents();
  }

  lemma VersePedalHh()
    ensures StepCount(8, |Verse[2].ring|) == 64 && SoundingEvents(Verse[2].voice, Verse[2].ring) == 4
  {
    assert Verse[2] == Part(PedalHh, PedalHhRing);
    ScoreStepCounts();
    ScoreSoundingEvents();
  }

  lemma VerseOpenHh()
    ensures StepCount(8, |Verse[3].ring|) == 64 && SoundingEvents(Verse[3].voice, Verse[3].ring) == 1
  {
    assert Verse[3] == Part(OpenHh, OpenHhRing);
    ScoreStepCounts();
    ScoreSoundingEvents();
  }

  lemma VerseRiff()
    ensures StepCount(8, |Verse[4].ring|) == 72 && SoundingEvents(Verse[4].voice, Verse[4].ring) == 8
  {
    assert Verse[4] == Part(Synth, Riff);
    ScoreStepCounts();
    ScoreSoundingEvents();
  }

  /** The verse has five members, each with a non-empty ring of even length. */
  lemma VerseShape()
    ensures |Verse| == 5
    ensures forall i :: 0 <= i < |Verse| ==> |Verse[i].ring| > 0 && |Verse[i].ring| % 2 == 0
  {
  }

  /** Per verse member, played eight times: 64 note steps for every drum ring
      and 72 for the riff; 32 kicks, 16 snares, 32 pedal and 8 open hi-hats,
      and 64 synth notes. */
  lemma VerseCounts()
    ensures |Verse| == 5
    ensures forall i :: 0 <= i < |Verse| ==> |Verse[i].ring| > 0 && |Verse[i].ring| % 2 == 0
    ensures StepCount(8, |Verse[0].ring|) == 64 && 8 * SoundingEvents(Verse[0].voice, Verse[0].ring) == 32
    ensures StepCount(8, |Verse[1].ring|) == 64 && 8 * SoundingEvents(Verse[1].voice, Verse[1].ring) == 16
    ensures StepCount(8, |Verse[2].ring|) == 64 && 8 * SoundingEvents(Verse[2].voice, Verse[2].ring) == 32
    ensures StepCount(8, |Verse[3].ring|) == 64 && 8 * SoundingEvents(Verse[3].voice, Verse[3].ring) == 8
    ensures StepCount(8, |Verse[4].ring|) == 72 && 8 * SoundingEvents(Verse[4].voice, Verse[4].ring) == 64
  {
    VerseShape();
    VerseKick();
    VerseSnare();
    VersePedalHh();
    VerseOpenHh();
    VerseRiff();
  }

  /** `verse.play`: kick, snare, pedal hi-hat, open hi-hat and riff, eight
      times each, then the verse's signal. Returns each member's thread log
      in that order, and the verse's own. */
  method PlayVerse() returns (logs: seq<seq<Action>>, signalLog: seq<Action>)
    ensures |logs| == 5
    ensures Count(logs[0], IsSleep) == 64 && Count(logs[0], IsRender) == 32
    ensures Count(logs[1], IsSleep) == 64 && Count(logs[1], IsRender) == 16
    ensures Count(logs[2], IsSleep) == 64 && Count(logs[2], IsRender) == 32
    ensures Count(logs[3], IsSleep) == 64 && Count(logs[3], IsRender) == 8
    ensures Count(logs[4], IsSleep) == 72 && Count(logs[4], IsRender) == 64
    ensures forall i :: 0 <= i < 5 ==> logs[i] != [] && logs[i][|logs[i]| - 1] == Cue(Named("verse"))
    ensures signalLog == [Cue(Named("verse_played"))]
  {
    VerseCounts();
    logs, signalLog := PlayPattern(Verse, 8, Named("verse"), Named("verse_played"));
  }

  /** The score's main thread: play the intro, wait on `:intro_played`, then
      play the verse and wait on `:verse_played`. Both waits end: the signals
      the main thread syncs on are cued, in that order. */
  method PlayScore() returns (signals: seq<Action>)
    ensures signals == [Cue(Named("intro_played")), Cue(Named("verse_played"))]
  {
    var riffLog, introSignal := PlayIntro();
    var verseLogs, verseSignal := PlayVerse();
    signals := introSignal + verseSignal;
  }
}
