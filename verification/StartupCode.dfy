/** The startup sequence of one process, as code running among all the others. */
module StartupCode {
  import opened Wrappers
  import opened Messages
  import opened Binding
  import opened Startup
  import ClusterId
  import Fsm

  datatype StartupError =
    | NoIdentity
    | Refused(reason: BindingError)
    | ClaimFailed
    | PreflightFailed
    | Cancelled
    | RenewalFailed

  class FleetWorld {
    const sign: Payload -> Signature
    const resource: Resource
    const m: nat
    const n: nat
    var f: Fleet
    ghost var steps: seq<Step>
    ghost var troubles: nat      // how often the environment failed this process

    ghost predicate Valid()
      reads this`f, this`steps
    {
      f == Run(sign, resource, m, n, steps)
    }

    constructor (sign: Payload -> Signature, resource: Resource, m: nat, n: nat)
      ensures Valid() && f == Init(resource, m, n)
    {
      this.sign := sign;
      this.resource := resource;
      this.m := m;
      this.n := n;
      f := Init(resource, m, n);
      steps := [];
      troubles := 0;
    }

    /** The environment decides whether the next thing works. */
    method Luck() returns (good: bool)
      modifies this`troubles
      ensures troubles == old(troubles) + if good then 0 else 1
    {
      good := *;
      troubles := troubles + if good then 0 else 1;
    }

    method Do(step: Step)
      requires Valid()
      modifies this`f, this`steps
      ensures Valid() && steps == old(steps) + [step] && f == Exec(sign, old(f), step)
    {
      f := Exec(sign, f, step);
      steps := steps + [step];
      assert steps[..|steps| - 1] == old(steps);
    }

    /** Everything but the given process runs. */
    method Others(p: nat)
      requires Valid() && p < |f.processes|
      modifies this`f, this`steps
      ensures Valid() && old(steps) <= steps && NoClaim(old(steps), steps, p)
      ensures p < |f.processes| && f.processes[p] == old(f.processes[p])
    {
      var budget: nat := *;
      while budget > 0
        invariant Valid() && old(steps) <= steps && NoClaim(old(steps), steps, p)
        invariant p < |f.processes| && f.processes[p] == old(f.processes[p])
      {
        var step: Step := *;
        if Foreign(step, p, f.processes[p]) {
          ForeignKeepsProcess(sign, f, step, p);
          Do(step);
        }
        budget := budget - 1;
      }
    }

    /** The claim as this process's backend reads it at this moment. */
    method ClusterBinding(p: nat, readable: bool) returns (r: Result<string, BindingError>)
      ensures r == ReadClaim(f.claim, readable)
    {
      r := ReadClaim(f.claim, readable);
    }

    /**
      Ensures the identity, then the claim: an unclaimed key is claimed when the process may, and the
      claim is read again through the runtime backend before anything is signed.  Unless the environment
      fails it, the process is refused only for a claim that is another's, or for none that it may not make.
     */
    method PrepareStartupWithClaim(p: nat) returns (r: Result<string, StartupError>)
      requires Valid() && p < |f.processes| && f.processes[p].pc.Booting?
      modifies this
      ensures Valid() && old(steps) <= steps && p < |f.processes|
      ensures r.Ok? && old(f.processes[p].initializeOnly) ==> f.processes[p].pc == InitializedOnly(r.value)
      ensures r.Ok? && !old(f.processes[p].initializeOnly) ==>
        f.processes[p].pc == Serving(r.value) && f.claim == Some(r.value) && Owns(f, f.processes[p].history)
      ensures r.Ok? && !old(f.processes[p].initializeOnly) && resource.StoreRecord? ==>
        OwnsDurably(f, f.processes[p].history)
      ensures r.Err? ==> f.processes[p].pc.Booting? || f.processes[p].pc.Stopped?
      ensures r.Err? && troubles == old(troubles) ==> DeservedBy(f, p, r.error)
      ensures !old(f.processes[p].mayClaim) ==> NoClaim(old(steps), steps, p)
    {
      var initializeOnly := f.processes[p].initializeOnly;
      var identity := EnsureIdentity(p);
      if identity.None? {
        return Err(NoIdentity);
      }
      var id := identity.value;
      if initializeOnly {
        return Ok(id);
      }
      var failed := BindAndEnter(p, id);
      return if failed.None? then Ok(id) else Err(failed.value);
    }

    /** From a process that knows its identity to one that serves. */
    method BindAndEnter(p: nat, id: string) returns (error: Option<StartupError>)
      requires Valid() && p < |f.processes| && f.processes[p].pc == Identified(id)
      modifies this
      ensures Valid() && old(steps) <= steps && p < |f.processes|
      ensures error.None? ==>
        f.processes[p].pc == Serving(id) && f.claim == Some(id) && Owns(f, f.processes[p].history)
      ensures error.None? && resource.StoreRecord? ==> OwnsDurably(f, f.processes[p].history)
      ensures error.Some? ==> f.processes[p].pc.Stopped?
      ensures error.Some? && troubles == old(troubles) ==> DeservedBy(f, p, error.value)
      ensures !old(f.processes[p].mayClaim) ==> NoClaim(old(steps), steps, p)
    {
      error := RequireBinding(p, id);
      if error.None? {
        error := EnterService(p, id);
      }
    }

    /** Preflight, context and renewal: from a bound process to one that serves. */
    method EnterService(p: nat, id: string) returns (error: Option<StartupError>)
      requires Valid() && p < |f.processes| && f.processes[p].pc == Bound(id)
      modifies this
      ensures Valid() && old(steps) <= steps && p < |f.processes| && NoClaim(old(steps), steps, p)
      ensures error.None? ==>
        f.processes[p].pc == Serving(id) && f.claim == Some(id) && Owns(f, f.processes[p].history)
      ensures error.None? && resource.StoreRecord? ==> OwnsDurably(f, f.processes[p].history)
      ensures error.Some? ==> f.processes[p].pc.Stopped? && troubles > old(troubles)
    {
      var passed := VerifyCanSign(p, id);
      if !passed {
        return Some(PreflightFailed);
      }
      error := BeginService(p, id);
    }

    /** The identity of the process's own history, if it answers in time. */
    method EnsureIdentity(p: nat) returns (id: Option<string>)
      requires Valid() && p < |f.processes| && f.processes[p].pc.Booting?
      modifies this
      ensures Valid() && old(steps) <= steps && p < |f.processes| && NoClaim(old(steps), steps, p)
      ensures id.None? ==> f.processes[p] == old(f.processes[p]) && troubles > old(troubles)
      ensures id.Some? ==> troubles == old(troubles)
      ensures id.Some? ==> f.processes[p] == old(f.processes[p]).(
        pc := if old(f.processes[p].initializeOnly) then InitializedOnly(id.value) else Identified(id.value))
    {
      Others(p);
      ProcessKnown(sign, resource, m, n, steps, p);
      var identities := f.histories[f.processes[p].history].identities;
      var k: nat := *;
      if !(0 <= k < |identities|) {
        troubles := troubles + 1;
        return None;
      }
      Do(Identify(p, k));
      return Some(identities[k]);
    }

    /** The preflight of a backend that has one; its probe is the first time the key signs. */
    method VerifyCanSign(p: nat, id: string) returns (passed: bool)
      requires Valid() && p < |f.processes| && f.processes[p].pc == Bound(id)
      modifies this
      ensures Valid() && old(steps) <= steps && p < |f.processes| && NoClaim(old(steps), steps, p)
      ensures passed ==> f.processes[p].pc == Verified(id) && f.claim == Some(id) && Owns(f, f.processes[p].history)
      ensures passed ==> troubles == old(troubles)
      ensures !passed ==> f.processes[p].pc.Stopped? && troubles > old(troubles)
    {
      Others(p);
      ProcessKnown(sign, resource, m, n, steps, p);
      var hasPreflight: bool := *;
      passed := true;
      if hasPreflight {
        passed := Luck();
      }
      PreflightStep(sign, f, p, id, hasPreflight, passed);
      Do(Preflight(p, hasPreflight, passed));
    }

    /** The last look at the context, and token renewal for a backend that needs it. */
    method BeginService(p: nat, id: string) returns (error: Option<StartupError>)
      requires Valid() && p < |f.processes| && f.processes[p].pc == Verified(id)
      modifies this
      ensures Valid() && old(steps) <= steps && p < |f.processes| && NoClaim(old(steps), steps, p)
      ensures error.None? ==>
        f.processes[p].pc == Serving(id) && f.claim == Some(id) && Owns(f, f.processes[p].history)
      ensures error.None? && resource.StoreRecord? ==> OwnsDurably(f, f.processes[p].history)
      ensures error.Some? ==> f.processes[p].pc.Stopped? && troubles > old(troubles)
    {
      Others(p);
      ProcessKnown(sign, resource, m, n, steps, p);
      var alive := Luck();
      var renews := Luck();
      FinishStep(sign, f, p, id, alive && renews);
      Do(Finish(p, alive && renews));
      return if !alive then Some(Cancelled) else if !renews then Some(RenewalFailed) else None;
    }

    /** The binding check, with the claim and the second check in between when there is no owner yet. */
    method RequireBinding(p: nat, id: string) returns (error: Option<StartupError>)
      requires Valid() && p < |f.processes| && f.processes[p].pc == Identified(id)
      modifies this
      ensures Valid() && old(steps) <= steps
      ensures p < |f.processes|
      ensures f.processes[p] == old(f.processes[p]).(pc := f.processes[p].pc) && troubles >= old(troubles)
      ensures error.None? ==> f.processes[p].pc == Bound(id)
      ensures error.Some? ==> f.processes[p].pc.Stopped?
      ensures error.Some? && error.value.Refused? ==> Reason(f.claim, id, error.value.reason)
      ensures Named(f, p, id)
      ensures error.Some? && troubles == old(troubles) ==> Deserved(f.claim, f.processes[p].mayClaim, id, error.value)
      ensures !old(f.processes[p].mayClaim) ==> NoClaim(old(steps), steps, p)
    {
      Others(p);
      var readable := Luck();
      ProcessKnown(sign, resource, m, n, steps, p);
      var binding := ClusterBinding(p, readable);
      var e := RequireClusterBinding(id, binding);
      MovesOnlyProcess(sign, f, Check(p, readable));
      Do(Check(p, readable));
      if e.None? {
        return None;
      }
      if e.value != Unclaimed || !f.processes[p].mayClaim {
        return Some(Refused(e.value));
      }
      error := ClaimAndReread(p, id);
    }

    /** Claims the key and reads the claim back; what that read finds is the reason given. */
    method ClaimAndReread(p: nat, id: string) returns (error: Option<StartupError>)
      requires Valid() && p < |f.processes| && f.processes[p].pc == Claiming(id)
      modifies this
      ensures Valid() && old(steps) <= steps
      ensures p < |f.processes|
      ensures f.processes[p] == old(f.processes[p]).(pc := f.processes[p].pc) && troubles >= old(troubles)
      ensures error.None? ==> f.processes[p].pc == Bound(id)
      ensures error.Some? ==> f.processes[p].pc.Stopped?
      ensures error.Some? && error.value.Refused? ==> Reason(f.claim, id, error.value.reason)
      ensures Named(f, p, id)
      ensures error.Some? && troubles == old(troubles) ==> Deserved(f.claim, f.processes[p].mayClaim, id, error.value)
    {
      Others(p);
      ProcessKnown(sign, resource, m, n, steps, p);
      var created := Luck();
      var reported := Luck();
      ClaimStep(sign, f, p, id, created, reported);
      Do(Claim(p, created, reported));
      if f.processes[p].pc.Stopped? {
        return Some(ClaimFailed);
      }
      Others(p);
      error := RereadClaim(p, id);
    }

    method RereadClaim(p: nat, id: string) returns (error: Option<StartupError>)
      requires Valid() && p < |f.processes| && f.processes[p].pc == Rereading(id)
      modifies this
      ensures Valid() && old(steps) <= steps
      ensures p < |f.processes|
      ensures f.processes[p] == old(f.processes[p]).(pc := f.processes[p].pc) && troubles >= old(troubles)
      ensures error.None? ==> f.processes[p].pc == Bound(id)
      ensures error.Some? ==> f.processes[p].pc.Stopped? && error.value.Refused? && troubles > old(troubles)
      ensures error.Some? ==> Reason(f.claim, id, error.value.reason)
      ensures Named(f, p, id)
    {
      ProcessKnown(sign, resource, m, n, steps, p);
      var readable := Luck();
      var binding := ClusterBinding(p, readable);
      var e := RequireClusterBinding(id, binding);
      MovesOnlyProcess(sign, f, Reread(p, readable));
      Do(Reread(p, readable));
      return if e.None? then None else Some(Refused(e.value));
    }
  }

  /** What a refused binding check says of the claim it looked at. */
  predicate Reason(claim: Option<string>, id: string, reason: BindingError) {
    match reason
    case Unclaimed => claim.None?
    case Mismatch => claim.Some? && claim.value != id
    case InvalidId => !ClusterId.Valid(id)
    case _ => reason == Unreadable
  }

  /** What startup may be refused for when nothing fails. */
  predicate Deserved(claim: Option<string>, mayClaim: bool, id: string, error: StartupError) {
    || (error == Refused(Unclaimed) && claim.None? && !mayClaim)
    || ((error == Refused(Mismatch) || error == ClaimFailed) && claim.Some? && claim.value != id)
  }

  /** This is the identity of the process's own history. */
  predicate Named(f: Fleet, p: nat, id: string) {
    && p < |f.processes| && f.processes[p].history < |f.histories|
    && id == IdentityOf(f, f.processes[p].history) && id != ""
  }

  /** The refusal is deserved for the identity of the process's own history. */
  predicate DeservedBy(f: Fleet, p: nat, error: StartupError) {
    && p < |f.processes| && f.processes[p].history < |f.histories|
    && Deserved(f.claim, f.processes[p].mayClaim, IdentityOf(f, f.processes[p].history), error)
  }

  /** None of the new steps is a claim of the process. */
  predicate NoClaim(before: seq<Step>, after: seq<Step>, p: nat) {
    forall i :: |before| <= i < |after| ==> !(after[i].Claim? && after[i].process == p)
  }

  /** A step of another process, or a crash that this process survives. */
  predicate Foreign(step: Step, p: nat, me: Process) {
    && !(step.Identify? && step.process == p)
    && !(step.Check? && step.process == p)
    && !(step.Claim? && step.process == p)
    && !(step.Reread? && step.process == p)
    && !(step.Preflight? && step.process == p)
    && !(step.Finish? && step.process == p)
    && !(step.Stop? && step.process == p)
    && !step.HostCrash?
    && !(step.InHistory? && step.gate.Crash? && step.history == me.history && step.gate.replica == me.replica)
  }

  lemma ClaimStep(sign: Payload -> Signature, f: Fleet, p: nat, id: string, created: bool, reported: bool)
    requires p < |f.processes| && f.processes[p].history < |f.histories| && f.processes[p].pc == Claiming(id)
    ensures var g := Exec(sign, f, Claim(p, created, reported));
      && g.histories == f.histories && |g.processes| == |f.processes|
      && g.processes[p] == f.processes[p].(pc := g.processes[p].pc)
      && (g.processes[p].pc == Rereading(id) || g.processes[p].pc.Stopped?)
      && (g.processes[p].pc.Stopped? && created && reported ==> g.claim.Some? && g.claim.value != id)
  {
  }

  lemma PreflightStep(sign: Payload -> Signature, f: Fleet, p: nat, id: string, probes: bool, passed: bool)
    requires p < |f.processes| && f.processes[p].history < |f.histories| && f.processes[p].pc == Bound(id)
    ensures var g := Exec(sign, f, Preflight(p, probes, passed));
      && g.histories == f.histories && g.claim == f.claim && |g.processes| == |f.processes|
      && g.processes[p] == f.processes[p].(pc := if passed then Verified(id) else Stopped)
  {
  }

  lemma FinishStep(sign: Payload -> Signature, f: Fleet, p: nat, id: string, ready: bool)
    requires p < |f.processes| && f.processes[p].history < |f.histories| && f.processes[p].pc == Verified(id)
    ensures var g := Exec(sign, f, Finish(p, ready));
      && g.histories == f.histories && g.claim == f.claim && g.durable == f.durable && |g.processes| == |f.processes|
      && g.processes[p] == f.processes[p].(pc := if ready then Serving(id) else Stopped)
  {
  }

  lemma ProcessKnown(sign: Payload -> Signature, resource: Resource, m: nat, n: nat, steps: seq<Step>, p: nat)
    requires p < |Run(sign, resource, m, n, steps).processes|
    ensures var f := Run(sign, resource, m, n, steps);
      && ProcessOk(f, f.processes[p], false) && ClaimOk(f) && f.resource == resource
      && (IdentityOf(f, f.processes[p].history) != "" ==> ClusterId.Valid(IdentityOf(f, f.processes[p].history)))
  {
    RunKeepsInv(sign, resource, m, n, steps, false);
    var f := Run(sign, resource, m, n, steps);
    assert ProcessOk(f, f.processes[p], false);
    Fsm.ReplayIdentity(f.histories[f.processes[p].history].log);
  }

  lemma ForeignKeepsProcess(sign: Payload -> Signature, f: Fleet, step: Step, p: nat)
    requires p < |f.processes| && Foreign(step, p, f.processes[p])
    ensures p < |Exec(sign, f, step).processes| && Exec(sign, f, step).processes[p] == f.processes[p]
  {
  }
}
