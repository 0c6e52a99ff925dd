/**
 * The stimulus vocabulary: an ordered list of string tokens without repetitions,
 * kept by the root system and consulted by authoring tools.
 */
module StimulusRegistry {
  import opened Lists

  /** The list after `AddStimulus(s)`: `s` is appended only when it is not already there. */
  function Added(values: seq<string>, s: string): (r: seq<string>)
    ensures s in r
    ensures s in values ==> r == values
    ensures s !in values ==> r == values + [s]
  {
    if s in values then values else values + [s]
  }

  /** Adding keeps the list free of duplicates. */
  lemma AddedKeepsNoDuplicates(values: seq<string>, s: string)
    requires NoDuplicates(values)
    ensures NoDuplicates(Added(values, s))
  {
  }

  /** The list after adding every token of `tokens`, in order. */
  function AddedAll(values: seq<string>, tokens: seq<string>): (r: seq<string>)
    ensures |values| <= |r|
    ensures r[..|values|] == values
    decreases tokens
  {
    if tokens == [] then values else AddedAll(Added(values, tokens[0]), tokens[1..])
  }

  /**
   * Uniqueness: after any sequence of additions starting from a duplicate-free list,
   * the list is still duplicate-free, holds every token added, holds nothing else, and
   * the tokens that were there before keep their positions.
   */
  lemma {:induction false} AddedAllUnique(values: seq<string>, tokens: seq<string>)
    requires NoDuplicates(values)
    ensures NoDuplicates(AddedAll(values, tokens))
    ensures forall t :: t in tokens ==> t in AddedAll(values, tokens)
    ensures forall t :: t in AddedAll(values, tokens) ==> t in values || t in tokens
    decreases tokens
  {
    if tokens != [] {
      AddedKeepsNoDuplicates(values, tokens[0]);
      AddedAllUnique(Added(values, tokens[0]), tokens[1..]);
      var r := AddedAll(values, tokens);
      var mid := Added(values, tokens[0]);
      assert r[..|mid|] == mid;
      assert tokens[0] in r by { assert tokens[0] in mid; assert mid == r[..|mid|]; }
      forall t | t in tokens ensures t in r {
        if t != tokens[0] { assert t in tokens[1..]; }
      }
    }
  }

  /** Adding a token that is already present, or adding the same token twice, changes nothing. */
  lemma AddedIdempotent(values: seq<string>, s: string)
    ensures Added(Added(values, s), s) == Added(values, s)
  {
  }

  /**
   * The component that owns the vocabulary. `AddStimulus` does not reject the empty
   * string: only the authoring caller filters it out.
   */
  class StimulusManager {
    var values: seq<string>

    constructor ()
      ensures values == []
    {
      values := [];
    }

    /** `AddStimulus`: appends `stimulus` at the end unless it is already present. */
    method AddStimulus(stimulus: string)
      modifies this
      ensures values == Added(old(values), stimulus)
      ensures NoDuplicates(old(values)) ==> NoDuplicates(values)
      ensures old(values) <= values
    {
      if stimulus !in values {
        values := values + [stimulus];
      }
    }

    /** `ValidStimulus`: exactly list membership. */
    method ValidStimulus(stimulus: string) returns (valid: bool)
      ensures valid <==> exists i :: 0 <= i < |values| && values[i] == stimulus
    {
      valid := stimulus in values;
    }

    /** `Value(index)`: the token at that position. */
    method Value(index: int) returns (stimulus: string)
      requires 0 <= index < |values|
      ensures stimulus in values && IndexOf(values, stimulus) <= index
      ensures stimulus == values[index]
    {
      stimulus := values[index];
    }

    /**
     * `Values`: a copy of the list. A Dafny sequence is a value, so the caller can
     * never change the registry through it.
     */
    method Values() returns (copy: seq<string>)
      ensures |copy| == |values| && forall i :: 0 <= i < |copy| ==> copy[i] == values[i]
    {
      copy := values;
    }
  }

  /** A client's view: after `AddStimulus(s)`, `ValidStimulus(s)` holds and earlier tokens keep their positions. */
  method AddThenValid(m: StimulusManager, s: string) returns (valid: bool)
    modifies m
    ensures valid
    ensures old(m.values) <= m.values
  {
    m.AddStimulus(s);
    valid := m.ValidStimulus(s);
  }
}
