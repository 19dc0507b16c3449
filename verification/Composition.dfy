/** Routing, health and execution together. */
module RoutedExecution {
  import opened Prelude
  import opened Domain
  import opened HealthModels
  import opened HealthMachine
  import opened HealthTheorems
  import opened RoutingPolicies
  import opened RoutingKernel
  import opened RoutingHealth
  import opened Attempts
  import opened Execution

  /** A plan built from a snapshot and executed at that instant, before any other call,
      is never turned away at once: its first target is attempted, so if its Provider is
      registered the request never ends for want of an available target. */
  lemma FreshPlanIsAttempted(w: World, history: seq<Op>, now: Time, snap: AvailabilitySnapshot,
                             policy: RoutingPolicy, request: RoutingRequest, session: Option<SessionSnapshot>,
                             engine: Engine, envelope: Envelope, script: Script, steps: seq<Execution.Step>)
    requires w.Valid() && IsSnapshot(w, From(w, history), now, snap)
    requires policy.Valid() && policy.targets == w.catalog && PlanOf(policy, request, session, snap).Ok?
    requires Executed(w, history, engine, envelope, PlanOf(policy, request, session, snap).value, script, steps)
    requires steps != [] && script(0).before == [] && script(0).at == now
    ensures steps[0].Tried?
    ensures steps[0].target.provider in engine.providers ==> !NeverInvoked(engine, steps)
  {
    var plan := PlanOf(policy, request, session, snap).value;
    assert Faithful(w, history, engine, envelope, plan, script, steps, 0);
    assert AcquireAll(plan.Targets()[..0], now) == [];
    assert history + AllCalls(script, steps[..0]) + script(0).before == history;
    PlansAreJointlyAdmissible(w, From(w, history), now, snap, policy, request, session, 0);
    hide *;
    FirstIsInvoked(engine, steps);
  }

  lemma {:induction false} FirstIsInvoked(engine: Engine, steps: seq<Execution.Step>)
    requires steps != [] && steps[0].Tried?
    ensures steps[0].target.provider in engine.providers ==> CountInvoked(engine, steps) > 0
    decreases |steps|
  {
    if |steps| > 1 {
      FirstIsInvoked(engine, steps[..|steps| - 1]);
    }
  }
}
