/** The audio engine the sequencer drives, replaced by an append-only log of
    the actions it is asked to perform. Symbols are Ruby symbol names
    (`:n_8th` is written "n_8th"). */
module Engine {

  /** A Ruby symbol. The symbols the sequencer dispatches on have their own
      constructors; every other symbol (note names such as `:c4`, rests such
      as `:o`, pattern ids, signals) is `Named` by its name, which is never
      one of the names given their own constructor here. */
  datatype Symbol =
    | Hit          // :x
    | Silence      // :none
    | NW           // :n_w
    | NH           // :n_h
    | NHDotted     // :n_h_dotted
    | NQ           // :n_q
    | NQDotted     // :n_q_dotted
    | N8th         // :n_8th
    | N8thDotted   // :n_8th_dotted
    | N16th        // :n_16th
    | N16thDotted  // :n_16th_dotted
    | N32nd        // :n_32nd
    | Named(name: string)

  datatype Option<T> = None | Some(value: T)

  /** One request to the engine. */
  datatype Action =
    | SynthNote(note: Symbol)
      // `use_synth :tb303`, `with_fx :distortion` and `play note, ...`, taken as one opaque action
    | SampleHit(sample: Symbol, attack: real, decay: real, sustainLevel: real, release: real, amp: real)
    | Sleep(beats: real)
    | Cue(signal: Symbol)

  predicate IsSleep(a: Action) { a.Sleep? }

  predicate IsCue(a: Action) { a.Cue? }

  /** A render: a note or a sample trigger. */
  predicate IsRender(a: Action) { a.SynthNote? || a.SampleHit? }

  /** Number of actions in `log` that satisfy `p`. */
  function Count(log: seq<Action>, p: Action -> bool): (n: nat)
    ensures n <= |log|
  {
    if log == [] then 0
    else (if p(log[0]) then 1 else 0) + Count(log[1..], p)
  }

  lemma AppendAssoc(a: seq<Action>, b: seq<Action>, c: seq<Action>)
    ensures (a + b) + c == a + (b + c)
  {
  }

  lemma {:induction false} CountConcat(a: seq<Action>, b: seq<Action>, p: Action -> bool)
    ensures Count(a + b, p) == Count(a, p) + Count(b, p)
  {
    if a == [] {
      assert a + b == b;
    } else {
      assert (a + b)[0] == a[0];
      assert (a + b)[1..] == a[1..] + b;
      CountConcat(a[1..], b, p);
    }
  }
}
