/** The order of the phases of `KinesisTest#run` (app.rb:27-33): the main phases run one after
    another until one raises, and the `ensure` clause deletes the stream on every path. */
module Lifecycle {
  import opened Types

  datatype Phase = CreatePhase | PublishPhase | ConsumePhase | DeletePhase

  /** The body of `run`, in order. */
  const MainPhases: seq<Phase> := [CreatePhase, PublishPhase, ConsumePhase]

  /** How many main phases run, given how each would end: all up to and including the first
      that raises. */
  function Entered(outcomes: seq<Outcome>): (n: nat)
    requires |outcomes| > 0
    ensures 1 <= n <= |outcomes|
    ensures forall j :: 0 <= j < n - 1 ==> outcomes[j].Pass?
    ensures n < |outcomes| ==> outcomes[n - 1].Fail?
  {
    if |outcomes| == 1 || outcomes[0].Fail? then 1 else 1 + Entered(outcomes[1..])
  }

  /** The phases that run: the main phases entered, then the deletion. */
  function Trace(phases: seq<Phase>, outcomes: seq<Outcome>): (trace: seq<Phase>)
    requires |phases| == |outcomes| > 0
  {
    phases[..Entered(outcomes)] + [DeletePhase]
  }

  /** How `run` ends: the way the last phase entered ended, which is the first exception if
      any phase raised. */
  function Raised(outcomes: seq<Outcome>): (outcome: Outcome)
    requires |outcomes| > 0
  {
    outcomes[Entered(outcomes) - 1]
  }

  /** A phase runs exactly when every earlier one returned normally; the stream is deleted
      exactly once, last, whatever raised; and `run` raises exactly when some phase raised,
      re-raising the first such exception. */
  lemma RunShape(outcomes: seq<Outcome>)
    requires |outcomes| == |MainPhases|
    ensures var t := Trace(MainPhases, outcomes);
      && t[|t| - 1] == DeletePhase
      && multiset(t)[DeletePhase] == 1
      && (forall j :: 0 <= j < |MainPhases| ==>
            (MainPhases[j] in t <==> forall i :: 0 <= i < j ==> outcomes[i].Pass?))
    ensures Raised(outcomes).Pass? <==> forall j :: 0 <= j < |outcomes| ==> outcomes[j].Pass?
    ensures Raised(outcomes).Fail? ==>
      exists j :: 0 <= j < |outcomes| && outcomes[j] == Raised(outcomes) &&
        forall i :: 0 <= i < j ==> outcomes[i].Pass?
  {
  }

  /** The three traces `run` can produce. */
  lemma TraceOfMainPhases(outcomes: seq<Outcome>)
    requires |outcomes| == |MainPhases|
    ensures outcomes[0].Fail? ==>
      Trace(MainPhases, outcomes) == [CreatePhase, DeletePhase] && Raised(outcomes) == outcomes[0]
    ensures outcomes[0].Pass? && outcomes[1].Fail? ==>
      Trace(MainPhases, outcomes) == [CreatePhase, PublishPhase, DeletePhase] && Raised(outcomes) == outcomes[1]
    ensures outcomes[0].Pass? && outcomes[1].Pass? ==>
      Trace(MainPhases, outcomes) == MainPhases + [DeletePhase] && Raised(outcomes) == outcomes[2]
  {
  }
}
