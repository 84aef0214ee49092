/** Voices: what a sequence renders each event through. */
module Voices {
  import opened Engine

  /** The fixed amplitude every sample trigger is given. */
  const SampleAmp: real := 2.0

  /** A `Synth` (its filter cutoff, resonance and LFO are not part of this
      model) or a `Sample` with its envelope, defaulting as the constructor does. */
  datatype Voice =
    | Synth
    | Sample(name: Symbol, attack: real := 0.0, decay: real := 0.0,
             sustainLevel: real := 1.0, release: real := 1.0)

  /** `Synth#play` and `Sample#play`: the actions rendering event `n` logs. */
  function Render(v: Voice, n: Symbol): seq<Action>
  {
    match v
    case Synth =>
      if n != Silence then [SynthNote(n)] else []
    case Sample(name, a, d, s, r) =>
      if n == Hit then [SampleHit(name, a, d, s, r, SampleAmp)] else []
  }

  /** A synth sounds every event but `:none`; a sample sounds `:x` only,
      with its own envelope and the fixed amplitude. Either way a render
      logs at most one action, and never a sleep or a cue. */
  lemma RenderSilentExactly(v: Voice, n: Symbol)
    ensures var acts := Render(v, n);
            && |acts| <= 1
            && (acts == [] <==> (if v.Synth? then n == Silence else n != Hit))
            && (forall a :: a in acts ==> IsRender(a))
            && (v.Synth? && acts != [] ==> acts[0] == SynthNote(n))
            && (v.Sample? && acts != [] ==>
                  acts[0] == SampleHit(v.name, v.attack, v.decay, v.sustainLevel, v.release, SampleAmp))
  {
  }

  /** Every action a render logs is counted as a render. */
  lemma RenderCount(v: Voice, n: Symbol)
    ensures Count(Render(v, n), IsRender) == |Render(v, n)|
  {
    RenderSilentExactly(v, n);
    if Render(v, n) != [] {
      assert Render(v, n)[1..] == [];
    }
  }
}
