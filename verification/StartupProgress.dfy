/** Which processes can come to serve, and who may create the claim. */
module StartupProgress {
  import opened Wrappers
  import opened Messages
  import opened Binding
  import opened Startup
  import opened StartupDurability
  import ClusterId
  import Fsm

  /** Steps of one process's own startup. */
  predicate OwnSteps(steps: seq<Step>, p: nat) {
    forall i :: 0 <= i < |steps| ==> OfProcess(steps[i]) && !steps[i].Serve? && steps[i].process == p
  }

  predicate Serves(f: Fleet, p: nat) {
    p < |f.processes| && f.processes[p].pc.Serving?
  }

  /** The key is this cluster's already, or free for a process that may claim it. */
  predicate MayServe(f: Fleet, p: nat, id: string)
    requires p < |f.processes|
  {
    f.claim == Some(id) || (f.claim.None? && f.processes[p].mayClaim)
  }

  lemma BindsFrom(sign: Payload -> Signature, f: Fleet, p: nat, id: string) returns (own: seq<Step>, g: Fleet)
    requires Inv(sign, f, false) && p < |f.processes| && f.processes[p].history < |f.histories|
    requires f.processes[p].pc == Identified(id) && ClusterId.Valid(id) && MayServe(f, p, id)
    ensures OwnSteps(own, p) && g == Continue(sign, f, own) && Inv(sign, g, false)
    ensures p < |g.processes| && g.processes[p] == f.processes[p].(pc := Bound(id))
    ensures |g.histories| == |f.histories|
  {
    if f.claim == Some(id) {
      CheckStep(sign, f, p, id);
      own, g := OneStep(sign, f, Check(p, true));
    } else {
      own, g := ClaimsAndBinds(sign, f, p, id);
    }
  }

  lemma ServesFrom(sign: Payload -> Signature, f: Fleet, p: nat, id: string) returns (own: seq<Step>)
    requires Inv(sign, f, false) && p < |f.processes| && f.processes[p].history < |f.histories|
    requires f.processes[p].pc == Identified(id) && ClusterId.Valid(id) && MayServe(f, p, id)
    ensures OwnSteps(own, p) && Serves(Continue(sign, f, own), p)
  {
    var bind, f1 := BindsFrom(sign, f, p, id);
    var enter, g := EntersService(sign, f1, p, id);
    own := Joined(sign, f, bind, f1, enter);
  }

  /** The process is not admitted: it has not passed its check and the claim is not its own nor to be had. */
  predicate Barred(f: Fleet, p: nat, id: string) {
    && p < |f.processes| && (f.processes[p].pc == Identified(id) || f.processes[p].pc.Stopped?)
    && !MayServe(f, p, id)
  }

  lemma OwnStepKeepsBarred(sign: Payload -> Signature, f: Fleet, step: Step, p: nat, id: string)
    requires Barred(f, p, id) && OfProcess(step) && !step.Serve? && step.process == p
    ensures Barred(Exec(sign, f, step), p, id)
  {
  }

  lemma {:induction false} BarredForever(sign: Payload -> Signature, f: Fleet, own: seq<Step>, p: nat, id: string)
    requires Barred(f, p, id) && OwnSteps(own, p)
    ensures Barred(Continue(sign, f, own), p, id)
  {
    if own != [] {
      BarredForever(sign, f, own[..|own| - 1], p, id);
      OwnStepKeepsBarred(sign, Continue(sign, f, own[..|own| - 1]), own[|own| - 1], p, id);
    }
  }

  /**
    In every reachable state, a process that knows its identity can come to serve by steps of its own if and
    only if the key is claimed for that identity, or is unclaimed and the process may claim it.
   */
  lemma ServesIff(
    sign: Payload -> Signature, resource: Resource, m: nat, n: nat, steps: seq<Step>, p: nat, id: string)
    requires p < |Run(sign, resource, m, n, steps).processes|
    requires Run(sign, resource, m, n, steps).processes[p].pc == Identified(id)
    ensures var f := Run(sign, resource, m, n, steps);
      (exists own :: OwnSteps(own, p) && Serves(Continue(sign, f, own), p)) <==> MayServe(f, p, id)
  {
    var f := Run(sign, resource, m, n, steps);
    RunKeepsInv(sign, resource, m, n, steps, false);
    assert ProcessOk(f, f.processes[p], false);
    Fsm.ReplayIdentity(f.histories[f.processes[p].history].log);
    if MayServe(f, p, id) {
      var own := ServesFrom(sign, f, p, id);
    } else {
      forall own | OwnSteps(own, p) ensures !Serves(Continue(sign, f, own), p) {
        BarredForever(sign, f, own, p, id);
      }
    }
  }

  /** Of all steps of processes, only the claim of one that may claim creates the claim, and for its identity. */
  lemma OnlyClaimantsCreate(sign: Payload -> Signature, f: Fleet, step: Step)
    requires Inv(sign, f, false) && f.claim.None? && Exec(sign, f, step).claim.Some? && !step.LateClaim?
    ensures step.Claim? && step.process < |f.processes| && f.processes[step.process].mayClaim
    ensures f.processes[step.process].history < |f.histories|
    ensures Exec(sign, f, step).claim == Some(IdentityOf(f, f.processes[step.process].history))
  {
    if OfProcess(step) && step.process < |f.processes| {
      assert ProcessOk(f, f.processes[step.process], false);
    }
  }
}
