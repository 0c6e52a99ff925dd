/**
 * A direct-connection output: the i-th token of its list is sent to the i-th entity of
 * its target list. It has no gate of its own and never counts.
 */
module DirectOutput {
  import opened Wrappers
  import opened World
  import opened Delivery

  /**
   * The index is outside one of the lists, or the target there is null (or destroyed).
   * A negative index passes the source's length tests and throws on the list indexer
   * before any write, so it is refused with no effect here.
   */
  predicate Unsendable(w: World, o: Handle, index: int)
    requires o in w.components && w.components[o].kind.DirectOut?
  {
    var k := w.components[o].kind;
    index < 0 || index + 1 > |k.stimuli| || index + 1 > |k.targets| || !Live(w, k.targets[index])
  }

  /** `SendStimulus(index)`. */
  function SendStimulusAt(w: World, o: Handle, index: int, hops: nat): (r: Outcome)
    requires o in w.components && w.components[o].kind.DirectOut?
  {
    var k := w.components[o].kind;
    if Unsendable(w, o, index) then Outcome(w, false)
    else SendDirect(w, k.targets[index].value, k.stimuli[index], hops)
  }

  /**
   * Out-of-range indices and null targets answer false with no effect; otherwise the
   * answer and effect are those of sending the index's token to the index's target.
   * The output's own component never changes.
   */
  lemma SendStimulusPairs(w: World, o: Handle, index: int, hops: nat)
    requires o in w.components && w.components[o].kind.DirectOut?
    ensures Unsendable(w, o, index) ==> SendStimulusAt(w, o, index, hops) == Outcome(w, false)
    ensures !Unsendable(w, o, index) ==>
      var k := w.components[o].kind;
      SendStimulusAt(w, o, index, hops) == SendDirect(w, k.targets[index].value, k.stimuli[index], hops)
    ensures SendStimulusAt(w, o, index, hops).world.components[o] == w.components[o]
    ensures Frame(w, SendStimulusAt(w, o, index, hops).world)
  {
  }

  /** `SendStimulus(index)`. */
  method SendStimulus(e: Engine, o: Handle, index: int, hops: nat) returns (ok: bool)
    requires o in e.components && e.components[o].kind.DirectOut?
    modifies e
    ensures Outcome(e.State(), ok) == SendStimulusAt(old(e.State()), o, index, hops)
  {
    var k := e.components[o].kind;
    if index < 0 {
      return false;
    }
    if index + 1 > |k.stimuli| || index + 1 > |k.targets| || !(k.targets[index].Some? && k.targets[index].value in e.entities) {
      return false;
    }
    ok := SendDirectStimulus(e, k.targets[index].value, k.stimuli[index], hops);
  }
}
