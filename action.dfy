/** The action-selection bar chart of the fast cycle: priorities are drawn
    negated, to the left of a shared action axis, and inhibitions as they are. */
module Action {
  import opened Wrappers

  /** The category axis shared by both bars. */
  const ACTION_LIST: seq<string> :=
    ["Mull", "Orient", "Approach", "Flee", "Avert", "Halt", "Retreat", "Special"]

  /** The two parallel series drawn on the action chart. */
  datatype ActionSeries = ActionSeries(priority: seq<real>, inhibition: seq<real>)

  /** Every sample of `s` with its sign flipped. */
  function Negated(s: seq<real>): (r: seq<real>)
    ensures |r| == |s|
    ensures forall i :: 0 <= i < |s| ==> r[i] == -s[i]
  {
    if s == [] then [] else [-s[0]] + Negated(s[1..])
  }

  /** Negation is its own inverse: the drawn priority bars give back the priorities. */
  lemma NegatedTwice(s: seq<real>)
    ensures Negated(Negated(s)) == s
  {
    var r := Negated(Negated(s));
    assert forall i :: 0 <= i < |s| ==> r[i] == s[i];
  }

  /** The series for one tick. Only when both vectors are present are they
      drawn (priority negated, inhibition unchanged); otherwise both series are
      the single placeholder sample 0. */
  function SeriesOf(priority: Option<seq<real>>, inhibition: Option<seq<real>>): (r: ActionSeries)
    ensures priority.Some? && inhibition.Some? ==>
      |r.priority| == |priority.value| &&
      (forall i :: 0 <= i < |r.priority| ==> r.priority[i] == -priority.value[i]) &&
      r.inhibition == inhibition.value
    ensures priority.None? || inhibition.None? ==> r == ActionSeries([0.0], [0.0])
  {
    if priority.Some? && inhibition.Some? then
      ActionSeries(Negated(priority.value), inhibition.value)
    else
      ActionSeries([0.0], [0.0])
  }

  /** With both vectors present the tick's inputs can be read back from the chart. */
  lemma SeriesRecoverInputs(priority: seq<real>, inhibition: seq<real>)
    ensures var r := SeriesOf(Some(priority), Some(inhibition));
            Negated(r.priority) == priority && r.inhibition == inhibition
  {
    NegatedTwice(priority);
  }
}
