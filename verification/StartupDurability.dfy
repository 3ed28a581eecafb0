/**
  When a claim protects a key that several histories share.  The startup check takes
  the claim as it reads it; whether that claim can still be lost decides whether two
  histories can ever sign different payloads for one height, round and step.
 */
module StartupDurability {
  import opened Wrappers
  import opened Messages
  import opened Binding
  import opened Startup
  import ClusterId
  import Fsm
  import Gate
  import GateInvariant
  import GateService

  // ---------------------------------------------------------------- continuing from a fleet

  /** The fleet after more steps. */
  function Continue(sign: Payload -> Signature, f: Fleet, more: seq<Step>): Fleet {
    if more == [] then f else Exec(sign, Continue(sign, f, more[..|more| - 1]), more[|more| - 1])
  }

  lemma {:induction false} RunContinues(
    sign: Payload -> Signature, resource: Resource, m: nat, n: nat, steps: seq<Step>, more: seq<Step>)
    ensures Run(sign, resource, m, n, steps + more) == Continue(sign, Run(sign, resource, m, n, steps), more)
    decreases |more|
  {
    if more == [] {
      assert steps + more == steps;
    } else {
      RunContinues(sign, resource, m, n, steps, more[..|more| - 1]);
      assert (steps + more)[..|steps + more| - 1] == steps + more[..|more| - 1];
    }
  }

  lemma {:induction false} ContinueFurther(sign: Payload -> Signature, f: Fleet, a: seq<Step>, b: seq<Step>)
    ensures Continue(sign, f, a + b) == Continue(sign, Continue(sign, f, a), b)
    decreases |b|
  {
    if b == [] {
      assert a + b == a;
    } else {
      ContinueFurther(sign, f, a, b[..|b| - 1]);
      assert (a + b)[..|a + b| - 1] == a + b[..|b| - 1];
    }
  }

  /** One step as a continuation. */
  lemma OneStep(sign: Payload -> Signature, f: Fleet, step: Step) returns (more: seq<Step>, g: Fleet)
    requires Inv(sign, f, false)
    ensures g == Continue(sign, f, more) && Inv(sign, g, false)
    ensures more == [step] && g == Exec(sign, f, step)
  {
    more := [step];
    assert more[..0] == [];
    g := Exec(sign, f, step);
    StepKeepsInv(sign, f, step, false);
  }

  /** Two continuations as one. */
  lemma Joined(sign: Payload -> Signature, f: Fleet, a: seq<Step>, g: Fleet, b: seq<Step>) returns (more: seq<Step>)
    requires g == Continue(sign, f, a)
    ensures more == a + b && Continue(sign, f, more) == Continue(sign, g, b)
  {
    more := a + b;
    ContinueFurther(sign, f, a, b);
  }

  // ---------------------------------------------------------------- a durable claim stays

  /** A step keeps the identities and the number of replicas of all histories. */
  lemma HistoriesContinue(sign: Payload -> Signature, f: Fleet, step: Step)
    ensures var g := Exec(sign, f, step);
      && |g.histories| == |f.histories|
      && forall h :: 0 <= h < |f.histories| ==>
           && |g.histories[h].replicas| == |f.histories[h].replicas|
           && (IdentityOf(f, h) != "" ==> IdentityOf(g, h) == IdentityOf(f, h))
  {
    if step.InHistory? && step.history < |f.histories| {
      GateStepFacts(sign, f.histories[step.history], step.gate);
    }
    if step.Serve? && step.process < |f.processes| && f.processes[step.process].history < |f.histories| {
      var me := f.processes[step.process];
      GateStepFacts(sign, f.histories[me.history], Gate.Begin(me.replica, step.request));
    }
  }

  /** How the claim of a fleet may move. */
  lemma FleetMoves(sign: Payload -> Signature, f: Fleet, step: Step)
    requires ClaimOk(f)
    ensures var g := Exec(sign, f, step);
      ClaimMove(f.claim, f.durable, g.claim, g.durable, step.HostCrash? && f.resource.MarkerFile?)
  {
  }

  /** Only the crash of a host with an unsynced claim breaks off what processes rely on. */
  lemma StepContinues(sign: Payload -> Signature, f: Fleet, step: Step)
    requires ClaimOk(f) && (step.HostCrash? && f.resource.MarkerFile? && f.claim.Some? ==> f.durable)
    ensures Continues(f, Exec(sign, f, step))
  {
    HistoriesContinue(sign, f, step);
    FleetMoves(sign, f, step);
  }

  lemma ContinuesTransitively(f: Fleet, g: Fleet, h: Fleet)
    requires Continues(f, g) && Continues(g, h)
    ensures Continues(f, h)
  {
  }

  lemma DurableStep(sign: Payload -> Signature, f: Fleet, g: Fleet, step: Step) returns (t: Fleet)
    requires f.claim.Some? && f.durable && Continues(f, g) && Inv(sign, g, true)
    ensures t == Exec(sign, g, step) && Continues(f, t) && Inv(sign, t, true)
  {
    t := Stepped(sign, g, step, true);
    StepContinues(sign, g, step);
    ContinuesTransitively(f, g, t);
  }

  /** From a durable claim on, every check finds it durable, and claim and identities stay. */
  lemma {:induction false} DurableContinues(sign: Payload -> Signature, f: Fleet, more: seq<Step>)
    requires f.claim.Some? && f.durable && Inv(sign, f, true)
    ensures Continues(f, Continue(sign, f, more)) && Inv(sign, Continue(sign, f, more), true)
  {
    if more != [] {
      DurableContinues(sign, f, more[..|more| - 1]);
      var t := DurableStep(sign, f, Continue(sign, f, more[..|more| - 1]), more[|more| - 1]);
    }
  }

  /** A history has told a process its identity, as the answer j. */
  predicate Answered(f: Fleet, h: nat, j: nat, id: string) {
    h < |f.histories| && j < |f.histories[h].identities| && f.histories[h].identities[j] == id
  }

  /** An answered identity is the valid one of its history's log. */
  lemma AnsweredIsValid(sign: Payload -> Signature, f: Fleet, k: nat, j: nat, id: string)
    requires Inv(sign, f, false) && Answered(f, k, j, id)
    ensures id != "" && id == IdentityOf(f, k) && ClusterId.Valid(id) && f.histories[k].replicas != []
  {
    assert HistoryOk(sign, f, k, false);
    assert GateInvariant.IdentitiesOk(f.histories[k].log, f.histories[k].identities);
    Fsm.ReplayIdentity(f.histories[k].log);
  }

  /** Once a durable claim is another's, a history never makes the key sign. */
  lemma DurableShutsOut(
    sign: Payload -> Signature, resource: Resource, m: nat, n: nat, steps: seq<Step>, more: seq<Step>,
    k: nat, j: nat, id: string)
    requires ChecksDurable(sign, resource, m, n, steps)
    requires var f := Run(sign, resource, m, n, steps);
      f.claim.Some? && f.durable && Answered(f, k, j, id) && f.claim != Some(id)
    ensures var g := Run(sign, resource, m, n, steps + more); k < |g.histories| && !UsedKey(g, k)
  {
    var f := Run(sign, resource, m, n, steps);
    RunKeepsInv(sign, resource, m, n, steps, false);
    RunKeepsInv(sign, resource, m, n, steps, true);
    AnsweredIsValid(sign, f, k, j, id);
    DurableContinues(sign, f, more);
    RunContinues(sign, resource, m, n, steps, more);
    var g := Continue(sign, f, more);
    if UsedKey(g, k) {
      UsersOwn(sign, g, k);
      assert false;
    }
  }

  /** What a history has answered is its identity in every continuation. */
  lemma {:induction false} IdentityStays(sign: Payload -> Signature, f: Fleet, more: seq<Step>, k: nat)
    requires k < |f.histories| && IdentityOf(f, k) != ""
    ensures var g := Continue(sign, f, more); k < |g.histories| && IdentityOf(g, k) == IdentityOf(f, k)
  {
    if more != [] {
      IdentityStays(sign, f, more[..|more| - 1], k);
      HistoriesContinue(sign, Continue(sign, f, more[..|more| - 1]), more[|more| - 1]);
    }
  }

  // ---------------------------------------------------------------- the way to a signature

  /** A free step of a history changes that history and nothing else. */
  lemma InOneHistory(sign: Payload -> Signature, f: Fleet, h: nat, gate: Gate.Step)
    requires h < |f.histories| && !gate.Begin? && !gate.Crash?
    ensures Exec(sign, f, InHistory(h, gate)) == SetHistory(f, h, Gate.Exec(sign, f.histories[h], gate))
  {
  }

  /** What a history can do by itself, it can do in the fleet. */
  lemma {:induction false} Lifted(sign: Payload -> Signature, f: Fleet, h: nat, gates: seq<Gate.Step>)
    returns (more: seq<Step>, g: Fleet)
    requires Inv(sign, f, false) && h < |f.histories| && GateService.Calm(gates)
    ensures g == Continue(sign, f, more) && Inv(sign, g, false)
    ensures g == SetHistory(f, h, GateService.Continue(sign, f.histories[h], gates))
    decreases |gates|
  {
    if gates == [] {
      more, g := [], f;
      assert SetHistory(f, h, f.histories[h]) == f;
    } else {
      var last := gates[|gates| - 1];
      var front, f1 := Lifted(sign, f, h, gates[..|gates| - 1]);
      InOneHistory(sign, f1, h, last);
      var one;
      one, g := OneStep(sign, f1, InHistory(h, last));
      more := Joined(sign, f, front, f1, one);
    }
  }

  lemma ServeStep(sign: Payload -> Signature, f: Fleet, p: nat, req: Request)
    requires p < |f.processes| && f.processes[p].pc.Serving? && f.processes[p].history < |f.histories|
    ensures var me := f.processes[p];
      Exec(sign, f, Serve(p, req))
        == SetHistory(f, me.history, Gate.Exec(sign, f.histories[me.history], Gate.Begin(me.replica, req)))
  {
  }

  /** The request is for a place above the history's mark. */
  predicate Above(c: Gate.Cluster, ask: Ask) {
    var st := Fsm.Get(Fsm.Replay(c.log), ask.chain);
    st.Some? ==> Fsm.Less(st.value.mark, ask.mark)
  }

  /** The history's next signature is this one. */
  predicate SignsNext(sign: Payload -> Signature, c: Gate.Cluster, d: Gate.Cluster, ask: Ask) {
    && |d.signed| == |c.signed| + 1
    && d.signed[|c.signed|].chain == ask.chain && d.signed[|c.signed|].mark == ask.mark
    && d.signed[|c.signed|].signBytes == ask.signBytes
  }

  lemma BeginFacts(sign: Payload -> Signature, c: Gate.Cluster, r: nat, req: Request)
    requires r < |c.replicas| && Admit(req).Some?
    ensures var d := Gate.Exec(sign, c, Gate.Begin(r, req));
      && d.signed == c.signed && d.log == c.log && |d.replicas| == |c.replicas|
      && |d.calls| == |c.calls| + 1 && d.calls[|c.calls|] == Gate.Call(r, req, Gate.Admitted)
  {
  }

  /** A serving process makes the key sign any request above its history's mark. */
  lemma ServesSignature(sign: Payload -> Signature, f: Fleet, p: nat, req: Request)
    returns (more: seq<Step>, g: Fleet)
    requires Inv(sign, f, false) && p < |f.processes| && f.processes[p].pc.Serving?
    requires f.processes[p].history < |f.histories|
    requires Admit(req).Some? && Above(f.histories[f.processes[p].history], Admit(req).value)
    ensures g == Continue(sign, f, more) && Inv(sign, g, false)
    ensures var h := f.processes[p].history;
      && h < |g.histories| && g == SetHistory(f, h, g.histories[h])
      && SignsNext(sign, f.histories[h], g.histories[h], Admit(req).value)
  {
    var me := f.processes[p];
    var h := me.history;
    assert ProcessOk(f, me, false);
    ServeStep(sign, f, p, req);
    var serve, f1 := OneStep(sign, f, Serve(p, req));
    BeginFacts(sign, f.histories[h], me.replica, req);
    assert HistoryOk(sign, f1, h, false);
    var gates := GateService.FreshCallSigns(sign, f1.histories[h], |f.histories[h].calls|);
    var rest;
    rest, g := Lifted(sign, f1, h, gates);
    more := Joined(sign, f, serve, f1, rest);
  }

  // ---------------------------------------------------------------- the way through startup

  /** Booted and told its identity. */
  lemma Identifies(sign: Payload -> Signature, f: Fleet, h: nat, j: nat, id: string, mayClaim: bool)
    returns (more: seq<Step>, g: Fleet)
    requires Inv(sign, f, false) && Answered(f, h, j, id)
    ensures g == Continue(sign, f, more) && Inv(sign, g, false)
    ensures g == f.(processes := f.processes + [Process(h, 0, false, mayClaim, Identified(id))])
  {
    AnsweredIsValid(sign, f, h, j, id);
    var boot, f1 := OneStep(sign, f, Boot(h, 0, false, mayClaim));
    var identify;
    identify, g := OneStep(sign, f1, Identify(|f.processes|, j));
    more := Joined(sign, f, boot, f1, identify);
  }

  lemma ClaimSteps(sign: Payload -> Signature, f: Fleet, q: nat, id: string, reported: bool)
    requires q < |f.processes| && f.processes[q].history < |f.histories| && f.processes[q].mayClaim
    requires f.processes[q].pc == Identified(id) && ClusterId.Valid(id) && f.claim.None?
    ensures Exec(sign, Exec(sign, f, Check(q, true)), Claim(q, true, reported))
      == SetPc(f.(claim := Some(id), durable := reported || f.resource.StoreRecord?), q,
               if reported then Rereading(id) else Stopped)
  {
  }

  /** An unclaimed key is claimed by a process that may; its success may go unreported. */
  lemma Claims(sign: Payload -> Signature, f: Fleet, q: nat, id: string, reported: bool)
    returns (more: seq<Step>, g: Fleet)
    requires Inv(sign, f, false) && q < |f.processes| && f.processes[q].history < |f.histories|
    requires f.processes[q].mayClaim && f.processes[q].pc == Identified(id) && ClusterId.Valid(id)
    requires f.claim.None?
    ensures g == Continue(sign, f, more) && Inv(sign, g, false)
    ensures more == [Check(q, true)] + [Claim(q, true, reported)]
    ensures g == SetPc(f.(claim := Some(id), durable := reported || f.resource.StoreRecord?), q,
                       if reported then Rereading(id) else Stopped)
  {
    ClaimSteps(sign, f, q, id, reported);
    var check, f1 := OneStep(sign, f, Check(q, true));
    var claim;
    claim, g := OneStep(sign, f1, Claim(q, true, reported));
    more := Joined(sign, f, check, f1, claim);
  }

  lemma EnterSteps(sign: Payload -> Signature, f: Fleet, p: nat, id: string)
    requires p < |f.processes| && f.processes[p].history < |f.histories| && f.processes[p].pc == Bound(id)
    ensures Exec(sign, Exec(sign, f, Preflight(p, false, true)), Finish(p, true)) == SetPc(f, p, Serving(id))
  {
  }

  /** A bound process comes to serve, whether or not its backend signs a probe; here it does not. */
  lemma EntersService(sign: Payload -> Signature, f: Fleet, p: nat, id: string)
    returns (more: seq<Step>, g: Fleet)
    requires Inv(sign, f, false) && p < |f.processes| && f.processes[p].history < |f.histories|
    requires f.processes[p].pc == Bound(id)
    ensures g == Continue(sign, f, more) && Inv(sign, g, false)
    ensures more == [Preflight(p, false, true)] + [Finish(p, true)]
    ensures g == SetPc(f, p, Serving(id))
  {
    EnterSteps(sign, f, p, id);
    var preflight, f1 := OneStep(sign, f, Preflight(p, false, true));
    var finish;
    finish, g := OneStep(sign, f1, Finish(p, true));
    more := Joined(sign, f, preflight, f1, finish);
  }

  lemma RereadStep(sign: Payload -> Signature, f: Fleet, q: nat, id: string)
    requires q < |f.processes| && f.processes[q].history < |f.histories| && f.processes[q].pc == Rereading(id)
    requires ClusterId.Valid(id) && f.claim == Some(id)
    ensures Exec(sign, f, Reread(q, true)) == SetPc(f, q, Bound(id))
  {
  }

  /** An unclaimed key is claimed, and the claim is read back. */
  lemma ClaimsAndBinds(sign: Payload -> Signature, f: Fleet, q: nat, id: string) returns (more: seq<Step>, g: Fleet)
    requires Inv(sign, f, false) && q < |f.processes| && f.processes[q].history < |f.histories|
    requires f.processes[q].mayClaim && f.processes[q].pc == Identified(id) && ClusterId.Valid(id) && f.claim.None?
    ensures g == Continue(sign, f, more) && Inv(sign, g, false)
    ensures more == [Check(q, true)] + [Claim(q, true, true)] + [Reread(q, true)]
    ensures g == SetPc(f.(claim := Some(id), durable := true), q, Bound(id))
  {
    var claim, f1 := Claims(sign, f, q, id, true);
    RereadStep(sign, f1, q, id);
    var reread;
    reread, g := OneStep(sign, f1, Reread(q, true));
    more := Joined(sign, f, claim, f1, reread);
  }

  /** Where there is no claim, any history with an identity can claim the key and come to serve. */
  lemma ClaimantServes(sign: Payload -> Signature, f: Fleet, h: nat, j: nat, id: string)
    returns (more: seq<Step>, g: Fleet)
    requires Inv(sign, f, false) && f.resource.MarkerFile? && f.claim.None? && Answered(f, h, j, id)
    ensures g == Continue(sign, f, more) && Inv(sign, g, false)
    ensures g == f.(claim := Some(id), durable := true,
                    processes := f.processes + [Process(h, 0, false, true, Serving(id))])
  {
    AnsweredIsValid(sign, f, h, j, id);
    var q := |f.processes|;
    var identify, f1 := Identifies(sign, f, h, j, id, true);
    var claim, f2 := ClaimsAndBinds(sign, f1, q, id);
    var enter;
    enter, g := EntersService(sign, f2, q, id);
    more := Joined(sign, f, identify, f1, claim);
    more := Joined(sign, f, more, f2, enter);
  }

  /** The claim of a history is there, unsynced, and another process of it has found it. */
  function Unsynced(f: Fleet, h: nat, id: string): Fleet {
    f.(claim := Some(id), durable := false,
       processes := f.processes + [Process(h, 0, false, true, Stopped)] + [Process(h, 0, false, false, Bound(id))])
  }

  lemma CheckStep(sign: Payload -> Signature, f: Fleet, p: nat, id: string)
    requires p < |f.processes| && f.processes[p].history < |f.histories| && f.processes[p].pc == Identified(id)
    requires ClusterId.Valid(id) && f.claim == Some(id)
    ensures Exec(sign, f, Check(p, true)) == SetPc(f, p, Bound(id))
  {
  }

  /** Where there is no claim, a process can come to be bound to one that was never synced. */
  lemma UnsyncedReached(sign: Payload -> Signature, f: Fleet, h: nat, j: nat, id: string)
    returns (more: seq<Step>, g: Fleet)
    requires Inv(sign, f, false) && f.resource.MarkerFile? && f.claim.None? && Answered(f, h, j, id)
    ensures g == Continue(sign, f, more) && Inv(sign, g, false)
    ensures g == Unsynced(f, h, id)
  {
    var claim, f1 := ClaimUnreported(sign, f, h, j, id);
    var find;
    find, g := FindsClaim(sign, f1, h, j, id);
    more := Joined(sign, f, claim, f1, find);
  }

  lemma ClaimUnreported(sign: Payload -> Signature, f: Fleet, h: nat, j: nat, id: string)
    returns (more: seq<Step>, g: Fleet)
    requires Inv(sign, f, false) && f.resource.MarkerFile? && f.claim.None? && Answered(f, h, j, id)
    ensures g == Continue(sign, f, more) && Inv(sign, g, false)
    ensures g == f.(claim := Some(id), durable := false,
                    processes := f.processes + [Process(h, 0, false, true, Stopped)])
  {
    AnsweredIsValid(sign, f, h, j, id);
    var identify, f1 := Identifies(sign, f, h, j, id, true);
    var claim;
    claim, g := Claims(sign, f1, |f.processes|, id, false);
    more := Joined(sign, f, identify, f1, claim);
  }

  lemma FindsClaim(sign: Payload -> Signature, f: Fleet, h: nat, j: nat, id: string)
    returns (more: seq<Step>, g: Fleet)
    requires Inv(sign, f, false) && f.claim == Some(id) && Answered(f, h, j, id)
    ensures g == Continue(sign, f, more) && Inv(sign, g, false)
    ensures g == f.(processes := f.processes + [Process(h, 0, false, false, Bound(id))])
  {
    AnsweredIsValid(sign, f, h, j, id);
    var identify, f1 := Identifies(sign, f, h, j, id, false);
    CheckStep(sign, f1, |f.processes|, id);
    var check;
    check, g := OneStep(sign, f1, Check(|f.processes|, true));
    more := Joined(sign, f, identify, f1, check);
  }

  /** A crash of the host loses a claim that was not synced. */
  lemma ClaimLost(sign: Payload -> Signature, f: Fleet) returns (more: seq<Step>, g: Fleet)
    requires Inv(sign, f, false) && f.resource.MarkerFile? && !f.durable
    ensures g == Continue(sign, f, more) && Inv(sign, g, false)
    ensures g == f.(claim := None, processes := Halted(f.processes))
  {
    more, g := OneStep(sign, f, HostCrash);
  }

  // ---------------------------------------------------------------- an unsynced claim does not protect

  /** Two histories have made the key sign different bytes for one place of one chain. */
  ghost predicate DoubleSigned(f: Fleet, h: nat, k: nat) {
    && h < |f.histories| && k < |f.histories|
    && exists i, j ::
         && 0 <= i < |f.histories[h].signed| && 0 <= j < |f.histories[k].signed|
         && Conflicting(f.histories[h].signed[i], f.histories[k].signed[j])
  }

  predicate Conflicting(a: Gate.Signing, b: Gate.Signing) {
    a.chain == b.chain && a.mark == b.mark && a.signBytes != b.signBytes
  }

  /** A prevote for a block at a height. */
  function Prevote(height: int, block: BlockId): Request {
    VoteRequest("", Vote(PREVOTE_TYPE, height, 0, block, 0, [], [], []))
  }

  function Height(c: Gate.Cluster): int {
    var st := Fsm.Get(Fsm.Replay(c.log), "");
    if st.Some? then st.value.mark.height else 0
  }

  lemma HigherIsAbove(c: Gate.Cluster, height: int, block: BlockId)
    requires height > Height(c) && !block.MalformedBlock?
    ensures Admit(Prevote(height, block)).Some? && Above(c, Admit(Prevote(height, block)).value)
  {
  }

  /** The first history signs on the strength of an unsynced claim, and the claim is lost. */
  lemma SignsThenLost(sign: Payload -> Signature, f: Fleet, p: nat, req: Request)
    returns (more: seq<Step>, g: Fleet)
    requires Inv(sign, f, false) && f.resource.MarkerFile? && !f.durable
    requires p < |f.processes| && f.processes[p].pc.Bound? && f.processes[p].history < |f.histories|
    requires Admit(req).Some? && Above(f.histories[f.processes[p].history], Admit(req).value)
    ensures g == Continue(sign, f, more) && Inv(sign, g, false) && g.resource.MarkerFile? && g.claim.None?
    ensures var h := f.processes[p].history;
      && |g.histories| == |f.histories| && g.histories == f.histories[h := g.histories[h]]
      && SignsNext(sign, f.histories[h], g.histories[h], Admit(req).value)
  {
    var enter, f1 := EntersService(sign, f, p, f.processes[p].pc.id);
    var first, f2 := ServesSignature(sign, f1, p, req);
    var crash;
    crash, g := ClaimLost(sign, f2);
    more := Joined(sign, f, enter, f1, first);
    more := Joined(sign, f, more, f2, crash);
  }

  /** Where there is no claim, a history claims the key and signs. */
  lemma ClaimsThenSigns(sign: Payload -> Signature, f: Fleet, k: nat, j: nat, id: string, req: Request)
    returns (more: seq<Step>, g: Fleet)
    requires Inv(sign, f, false) && f.resource.MarkerFile? && f.claim.None? && Answered(f, k, j, id)
    requires Admit(req).Some? && Above(f.histories[k], Admit(req).value)
    ensures g == Continue(sign, f, more) && Inv(sign, g, false)
    ensures |g.histories| == |f.histories| && g.histories == f.histories[k := g.histories[k]]
    ensures SignsNext(sign, f.histories[k], g.histories[k], Admit(req).value)
  {
    var claim, f1 := ClaimantServes(sign, f, k, j, id);
    var serve;
    serve, g := ServesSignature(sign, f1, |f.processes|, req);
    more := Joined(sign, f, claim, f1, serve);
  }

  /** A height above the marks of both histories. */
  function CommonHeight(c: Gate.Cluster, d: Gate.Cluster): (height: int)
    ensures height > Height(c) && height > Height(d)
  {
    1 + if Height(c) > Height(d) then Height(c) else Height(d)
  }

  /**
    A process of one history is bound to a claim that was never synced, and another history has an
    identity: the first signs, the host crashes, the second claims the key and signs something else.
   */
  lemma UnsyncedDoubleSigns(sign: Payload -> Signature, f: Fleet, p: nat, k: nat, j: nat, id: string)
    returns (more: seq<Step>)
    requires Inv(sign, f, false) && f.resource.MarkerFile? && !f.durable
    requires p < |f.processes| && f.processes[p].pc.Bound? && Answered(f, k, j, id) && f.claim != Some(id)
    ensures DoubleSigned(Continue(sign, f, more), f.processes[p].history, k)
  {
    var h := f.processes[p].history;
    assert ProcessOk(f, f.processes[p], false);
    AnsweredIsValid(sign, f, k, j, id);
    assert h != k;
    var height := CommonHeight(f.histories[h], f.histories[k]);
    HigherIsAbove(f.histories[h], height, NilBlock);
    HigherIsAbove(f.histories[k], height, Block([]));
    var first, f1 := SignsThenLost(sign, f, p, Prevote(height, NilBlock));
    assert f1.histories[k] == f.histories[k];
    var second, f2 := ClaimsThenSigns(sign, f1, k, j, id, Prevote(height, Block([])));
    assert f2.histories[h] == f1.histories[h];
    assert Conflicting(
      f2.histories[h].signed[|f.histories[h].signed|], f2.histories[k].signed[|f.histories[k].signed|]);
    more := Joined(sign, f, first, f1, second);
  }

  /** Where no claim is durable, any two histories with different identities can come to double-sign. */
  lemma UnprotectedDoubleSigns(
    sign: Payload -> Signature, f: Fleet, h: nat, i: nat, a: string, k: nat, j: nat, b: string)
    returns (more: seq<Step>)
    requires Inv(sign, f, false) && f.resource.MarkerFile? && !f.durable
    requires Answered(f, h, i, a) && Answered(f, k, j, b) && a != b
    ensures DoubleSigned(Continue(sign, f, more), h, k)
  {
    var crash, f1 := ClaimLost(sign, f);
    var bind, f2 := UnsyncedReached(sign, f1, h, i, a);
    var rest := UnsyncedDoubleSigns(sign, f2, |f1.processes| + 1, k, j, b);
    more := Joined(sign, f, crash, f1, bind);
    more := Joined(sign, f, more, f2, rest);
  }

  lemma DoubleSignersUse(f: Fleet, h: nat, k: nat)
    requires DoubleSigned(f, h, k)
    ensures BothUse(f, h, k)
  {
  }

  predicate BothUse(f: Fleet, h: nat, k: nat) {
    h < |f.histories| && k < |f.histories| && UsedKey(f, h) && UsedKey(f, k)
  }

  // ---------------------------------------------------------------- exactly when

  /** After a check that passes the process is bound. */
  lemma PassedCheck(sign: Payload -> Signature, f: Fleet, p: nat)
    requires Inv(sign, f, false) && PassesCheck(f, Check(p, true))
    ensures var g := Exec(sign, f, Check(p, true));
      f.claim.Some? && g == SetPc(f, p, Bound(f.claim.value)) && Inv(sign, g, false)
  {
    assert ProcessOk(f, f.processes[p], false);
    StepKeepsInv(sign, f, Check(p, true), false);
  }

  lemma AfterUnsyncedCheck(
    sign: Payload -> Signature, resource: Resource, m: nat, n: nat, steps: seq<Step>,
    p: nat, k: nat, j: nat, id: string)
    returns (more: seq<Step>)
    requires var f := Run(sign, resource, m, n, steps);
      && PassesCheck(f, Check(p, true)) && !f.durable
      && Answered(f, k, j, id) && f.claim != Some(id)
    ensures p < |Run(sign, resource, m, n, steps).processes|
    ensures var h := Run(sign, resource, m, n, steps).processes[p].history;
      DoubleSigned(Run(sign, resource, m, n, steps + [Check(p, true)] + more), h, k)
  {
    var f := Run(sign, resource, m, n, steps);
    RunKeepsInv(sign, resource, m, n, steps, false);
    PassedCheck(sign, f, p);
    assert (steps + [Check(p, true)])[..|steps|] == steps;
    more := UnsyncedDoubleSigns(sign, SetPc(f, p, Bound(f.claim.value)), p, k, j, id);
    RunContinues(sign, resource, m, n, steps + [Check(p, true)], more);
  }

  /**
    A process is about to pass its check, and another history has another identity.  In some continuation
    the two histories sign different bytes for one height/round/step, if and only if the claim the check
    finds is not yet durable.
   */
  lemma DoubleSignIff(
    sign: Payload -> Signature, resource: Resource, m: nat, n: nat, steps: seq<Step>,
    p: nat, k: nat, j: nat, id: string)
    requires ChecksDurable(sign, resource, m, n, steps)
    requires var f := Run(sign, resource, m, n, steps);
      && PassesCheck(f, Check(p, true))
      && Answered(f, k, j, id) && f.claim != Some(id)
    ensures var f := Run(sign, resource, m, n, steps);
      && p < |f.processes|
      && var h := f.processes[p].history;
         (exists more :: DoubleSigned(Run(sign, resource, m, n, steps + [Check(p, true)] + more), h, k)) <==> !f.durable
  {
    var f := Run(sign, resource, m, n, steps);
    if f.durable {
      var s1 := steps + [Check(p, true)];
      forall more ensures !DoubleSigned(Run(sign, resource, m, n, s1 + more), f.processes[p].history, k) {
        DurableShutsOut(sign, resource, m, n, steps, [Check(p, true)] + more, k, j, id);
        assert s1 + more == steps + ([Check(p, true)] + more);
      }
    } else {
      var more := AfterUnsyncedCheck(sign, resource, m, n, steps, p, k, j, id);
    }
  }

  /** The same condition decides whether both histories ever use the key at all, for a probe included. */
  lemma SecondSignerIff(
    sign: Payload -> Signature, resource: Resource, m: nat, n: nat, steps: seq<Step>,
    p: nat, k: nat, j: nat, id: string)
    requires ChecksDurable(sign, resource, m, n, steps)
    requires var f := Run(sign, resource, m, n, steps);
      && PassesCheck(f, Check(p, true))
      && Answered(f, k, j, id) && f.claim != Some(id)
    ensures var f := Run(sign, resource, m, n, steps);
      && p < |f.processes|
      && var h := f.processes[p].history;
         (exists more :: BothUse(Run(sign, resource, m, n, steps + [Check(p, true)] + more), h, k)) <==> !f.durable
  {
    var f := Run(sign, resource, m, n, steps);
    var s1 := steps + [Check(p, true)];
    if f.durable {
      forall more ensures !BothUse(Run(sign, resource, m, n, s1 + more), f.processes[p].history, k) {
        DurableShutsOut(sign, resource, m, n, steps, [Check(p, true)] + more, k, j, id);
        assert s1 + more == steps + ([Check(p, true)] + more);
      }
    } else {
      var more := AfterUnsyncedCheck(sign, resource, m, n, steps, p, k, j, id);
      DoubleSignersUse(Run(sign, resource, m, n, s1 + more), f.processes[p].history, k);
    }
  }

  lemma RecordNeverDoubleSigns(
    sign: Payload -> Signature, m: nat, n: nat, steps: seq<Step>, more: seq<Step>,
    h: nat, i: nat, a: string, k: nat, j: nat, b: string)
    requires var f := Run(sign, StoreRecord, m, n, steps); Answered(f, h, i, a) && Answered(f, k, j, b) && a != b
    ensures !BothUse(Run(sign, StoreRecord, m, n, steps + more), h, k)
  {
    var f, g := Run(sign, StoreRecord, m, n, steps), Run(sign, StoreRecord, m, n, steps + more);
    RunKeepsInv(sign, StoreRecord, m, n, steps, false);
    AnsweredIsValid(sign, f, h, i, a);
    AnsweredIsValid(sign, f, k, j, b);
    RunContinues(sign, StoreRecord, m, n, steps, more);
    IdentityStays(sign, f, more, h);
    IdentityStays(sign, f, more, k);
    RecordChecksDurable(sign, m, n, steps + more);
    if BothUse(g, h, k) {
      UserOwns(sign, StoreRecord, m, n, steps + more, h);
      UserOwns(sign, StoreRecord, m, n, steps + more, k);
      assert false;
    }
  }

  /**
    What protects a key from two histories: while no check has passed on less than a durable claim, they
    can come to double-sign if and only if the claim is a marker file and is not durable now.
   */
  lemma ProtectedIff(
    sign: Payload -> Signature, resource: Resource, m: nat, n: nat, steps: seq<Step>,
    h: nat, i: nat, a: string, k: nat, j: nat, b: string)
    requires ChecksDurable(sign, resource, m, n, steps)
    requires var f := Run(sign, resource, m, n, steps); Answered(f, h, i, a) && Answered(f, k, j, b) && a != b
    ensures var f := Run(sign, resource, m, n, steps);
      (exists more :: DoubleSigned(Run(sign, resource, m, n, steps + more), h, k))
      <==> resource.MarkerFile? && !f.durable
  {
    var f := Run(sign, resource, m, n, steps);
    RunKeepsInv(sign, resource, m, n, steps, false);
    if resource.MarkerFile? && !f.durable {
      var more := UnprotectedDoubleSigns(sign, f, h, i, a, k, j, b);
      RunContinues(sign, resource, m, n, steps, more);
    } else {
      forall more ensures !DoubleSigned(Run(sign, resource, m, n, steps + more), h, k) {
        if resource.StoreRecord? {
          RecordNeverDoubleSigns(sign, m, n, steps, more, h, i, a, k, j, b);
        } else if f.claim != Some(a) {
          DurableShutsOut(sign, resource, m, n, steps, more, h, i, a);
        } else {
          DurableShutsOut(sign, resource, m, n, steps, more, k, j, b);
        }
      }
    }
  }

  // ---------------------------------------------------------------- a run with two signers

  /** What a history that has just begun becomes when its identity is proposed, committed, applied and read. */
  function Named(id: string): Gate.Cluster {
    var c := Fsm.InitCluster(id);
    var (fsm, answer) := Fsm.Apply(Fsm.EMPTY, c);
    Gate.Init(1).(log := [c], origin := [0], proposals := [c],
                  replicas := [Gate.Replica(fsm, 1, map[0 := answer])], identities := [id])
  }

  function Logged(id: string): Gate.Cluster {
    Gate.Init(1).(log := [Fsm.InitCluster(id)], origin := [0], proposals := [Fsm.InitCluster(id)])
  }

  lemma ProposedAndAppended(sign: Payload -> Signature, id: string)
    ensures Gate.Exec(sign, Gate.Exec(sign, Gate.Init(1), Gate.ProposeIdentity(id)), Gate.Append(0)) == Logged(id)
  {
  }

  lemma AppliedAndRead(sign: Payload -> Signature, id: string)
    requires ClusterId.Valid(id) && id != ""
    ensures Gate.Exec(sign, Gate.Exec(sign, Logged(id), Gate.ApplyNext(0)), Gate.ReadIdentity(0)) == Named(id)
  {
    var d := Gate.Exec(sign, Logged(id), Gate.ApplyNext(0));
    assert d == Gate.ApplyAt(Logged(id), 0);
    assert d.replicas == Named(id).replicas;
    assert d.replicas[0].fsm.clusterId == id;
  }

  lemma TwoInHistory(sign: Payload -> Signature, f: Fleet, h: nat, a: Gate.Step, b: Gate.Step)
    returns (more: seq<Step>, g: Fleet)
    requires Inv(sign, f, false) && h < |f.histories| && !a.Begin? && !a.Crash? && !b.Begin? && !b.Crash?
    ensures g == Continue(sign, f, more) && Inv(sign, g, false)
    ensures g == SetHistory(f, h, Gate.Exec(sign, Gate.Exec(sign, f.histories[h], a), b))
  {
    InOneHistory(sign, f, h, a);
    var first, f1 := OneStep(sign, f, InHistory(h, a));
    InOneHistory(sign, f1, h, b);
    var second;
    second, g := OneStep(sign, f1, InHistory(h, b));
    more := Joined(sign, f, first, f1, second);
  }

  lemma GetsIdentity(sign: Payload -> Signature, f: Fleet, h: nat, id: string) returns (more: seq<Step>, g: Fleet)
    requires Inv(sign, f, false) && h < |f.histories| && f.histories[h] == Gate.Init(1) && ClusterId.Valid(id)
    ensures g == Continue(sign, f, more) && Inv(sign, g, false)
    ensures g == SetHistory(f, h, Named(id))
  {
    var first, f1 := TwoInHistory(sign, f, h, Gate.ProposeIdentity(id), Gate.Append(0));
    ProposedAndAppended(sign, id);
    assert f1.histories[h] == Logged(id);
    var second;
    second, g := TwoInHistory(sign, f1, h, Gate.ApplyNext(0), Gate.ReadIdentity(0));
    AppliedAndRead(sign, id);
    more := Joined(sign, f, first, f1, second);
  }

  /** Two clusters bootstrapped side by side, each with its identity. */
  lemma TwoNamed(sign: Payload -> Signature, a: string, b: string) returns (steps: seq<Step>, f: Fleet)
    requires ClusterId.Valid(a) && ClusterId.Valid(b)
    ensures f == Run(sign, MarkerFile, 2, 1, steps) && Inv(sign, f, false)
    ensures |f.histories| == 2 && f.resource.MarkerFile? && !f.durable
    ensures Answered(f, 0, 0, a) && Answered(f, 1, 0, b)
  {
    var start := Init(MarkerFile, 2, 1);
    InitInv(sign, MarkerFile, 2, 1, false);
    var first, f1 := GetsIdentity(sign, start, 0, a);
    var second;
    second, f := GetsIdentity(sign, f1, 1, b);
    steps := Joined(sign, start, first, f1, second);
    RunContinues(sign, MarkerFile, 2, 1, [], steps);
    assert [] + steps == steps;
  }

  /** Answered identities that differ stay and stay different. */
  lemma IdentitiesStayDistinct(
    sign: Payload -> Signature, f: Fleet, i: nat, a: string, j: nat, b: string, more: seq<Step>)
    requires Inv(sign, f, false) && |f.histories| == 2 && Answered(f, 0, i, a) && Answered(f, 1, j, b) && a != b
    ensures DistinctIdentities(Continue(sign, f, more))
  {
    AnsweredIsValid(sign, f, 0, i, a);
    AnsweredIsValid(sign, f, 1, j, b);
    IdentityStays(sign, f, more, 0);
    IdentityStays(sign, f, more, 1);
    HistoriesStay(sign, f, more);
  }

  /**
    Two independent clusters with different identities can both sign for one height/round/step, and sign
    different bytes, with a key whose claim is a marker file.
   */
  lemma TwoHistoriesCanSign(sign: Payload -> Signature, a: string, b: string) returns (steps: seq<Step>)
    requires ClusterId.Valid(a) && ClusterId.Valid(b) && a != b
    ensures var f := Run(sign, MarkerFile, 2, 1, steps); DoubleSigned(f, 0, 1) && DistinctIdentities(f)
  {
    var named, f := TwoNamed(sign, a, b);
    var rest := UnprotectedDoubleSigns(sign, f, 0, 0, a, 1, 0, b);
    IdentitiesStayDistinct(sign, f, 0, a, 0, b, rest);
    RunContinues(sign, MarkerFile, 2, 1, named, rest);
    steps := named + rest;
  }

  lemma {:induction false} HistoriesStay(sign: Payload -> Signature, f: Fleet, more: seq<Step>)
    ensures |Continue(sign, f, more).histories| == |f.histories|
  {
    if more != [] {
      HistoriesStay(sign, f, more[..|more| - 1]);
      HistoriesContinue(sign, Continue(sign, f, more[..|more| - 1]), more[|more| - 1]);
    }
  }
}
