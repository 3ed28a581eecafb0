/**
  Startup against a shared key resource.  Any number of independent histories, each
  a cluster of its own with its own log, share one key and one create-only claim on
  it; a process serves signing requests only after it passed startup.

  A claim kept as a record of a key-value store is durable once it is there.  One
  kept as a marker file may be lost by a crash of its host until it is synced: a
  successful claim has synced it, but a check only reads it.
 */
module Startup {
  import opened Wrappers
  import opened Messages
  import opened Binding
  import Fsm
  import Gate
  import GateInvariant
  import GateService

  /** How far a process got; it carries the identity of its own history. */
  datatype Pc =
    | Booting
    | Identified(id: string)
    | Claiming(id: string)
    | Rereading(id: string)
    | Bound(id: string)
    | Verified(id: string)
    | Serving(id: string)
    | InitializedOnly(id: string)
    | Stopped

  datatype Process = Process(history: nat, replica: nat, initializeOnly: bool, mayClaim: bool, pc: Pc)

  datatype Resource = StoreRecord | MarkerFile

  /** The histories, the claim on the shared key, the processes, and the preflight signatures made. */
  datatype Fleet = Fleet(
    histories: seq<Gate.Cluster>, resource: Resource, claim: Option<string>, durable: bool,
    processes: seq<Process>, preflights: seq<nat>)

  datatype Step =
    | Boot(history: nat, replica: nat, initializeOnly: bool, mayClaim: bool)
    | Identify(process: nat, answer: nat)
    | Check(process: nat, readable: bool)
    | Claim(process: nat, created: bool, reported: bool)
    | Reread(process: nat, readable: bool)
    | Preflight(process: nat, probes: bool, passed: bool)   // not every backend signs a probe
    | Finish(process: nat, ready: bool)                     // the context is alive and renewal started
    | Stop(process: nat)
    | Serve(process: nat, request: Request)
    | InHistory(history: nat, gate: Gate.Step)
    | LateClaim(id: string)   // a write that outlived its process lands, or another tool claims
    | SyncClaim               // the claim reaches the disk
    | HostCrash               // the host of a marker file crashes, with all processes on it

  function Init(resource: Resource, histories: nat, replicas: nat): Fleet {
    Fleet(seq(histories, _ => Gate.Init(replicas)), resource, None, false, [], [])
  }

  /** A create-only write. */
  function Created(f: Fleet, id: string): Fleet {
    if f.claim.Some? then f else f.(claim := Some(id), durable := f.resource.StoreRecord?)
  }

  /** The claim as a backend read reports it. */
  function ReadClaim(claim: Option<string>, readable: bool): Result<string, BindingError> {
    if !readable then Err(Unreadable)
    else match claim
         case None => Err(Unclaimed)
         case Some(owner) => Ok(owner)
  }

  /** After the first binding check: bound, to be claimed, or refused. */
  function AfterCheck(p: Process, id: string, claim: Option<string>, readable: bool): Pc {
    match RequireClusterBinding(id, ReadClaim(claim, readable))
    case None => Bound(id)
    case Some(e) => if e == Unclaimed && p.mayClaim then Claiming(id) else Stopped
  }

  function AfterReread(id: string, claim: Option<string>, readable: bool): Pc {
    if RequireClusterBinding(id, ReadClaim(claim, readable)).None? then Bound(id) else Stopped
  }

  function SetPc(f: Fleet, p: nat, pc: Pc): Fleet
    requires p < |f.processes|
  {
    f.(processes := f.processes[p := f.processes[p].(pc := pc)])
  }

  function SetHistory(f: Fleet, h: nat, c: Gate.Cluster): Fleet
    requires h < |f.histories|
  {
    f.(histories := f.histories[h := c])
  }

  /** A replica's crash stops the processes on it. */
  function AfterCrash(ps: seq<Process>, h: nat, r: nat): seq<Process> {
    seq(|ps|, i requires 0 <= i < |ps| =>
      if ps[i].history == h && ps[i].replica == r then ps[i].(pc := Stopped) else ps[i])
  }

  predicate OfProcess(step: Step) {
    || step.Identify? || step.Check? || step.Claim? || step.Reread?
    || step.Preflight? || step.Finish? || step.Stop? || step.Serve?
  }

  /** One claim attempt: its write may land or not, and success means the claim is this cluster's and synced. */
  function ClaimAttempt(f: Fleet, p: nat, id: string, created: bool, reported: bool): Fleet
    requires p < |f.processes|
  {
    var g := if created then Created(f, id) else f;
    if reported && g.claim == Some(id) then SetPc(g.(durable := true), p, Rereading(id)) else SetPc(g, p, Stopped)
  }

  function Halted(ps: seq<Process>): seq<Process> {
    seq(|ps|, i requires 0 <= i < |ps| => ps[i].(pc := Stopped))
  }

  function ProcessStep(sign: Payload -> Signature, f: Fleet, step: Step): Fleet
    requires OfProcess(step) && step.process < |f.processes|
    requires f.processes[step.process].history < |f.histories|
  {
    var p := step.process;
    var me := f.processes[p];
    match step
    case Identify(_, k) =>
      if me.pc.Booting? && k < |f.histories[me.history].identities|
      then var id := f.histories[me.history].identities[k];
           SetPc(f, p, if me.initializeOnly then InitializedOnly(id) else Identified(id)) else f
    case Check(_, readable) =>
      if me.pc.Identified? then SetPc(f, p, AfterCheck(me, me.pc.id, f.claim, readable)) else f
    case Claim(_, created, reported) =>
      if me.pc.Claiming? then ClaimAttempt(f, p, me.pc.id, created, reported) else f
    case Reread(_, readable) =>
      if me.pc.Rereading? then SetPc(f, p, AfterReread(me.pc.id, f.claim, readable)) else f
    case Preflight(_, probes, passed) =>
      if me.pc.Bound?
      then SetPc(f, p, if passed then Verified(me.pc.id) else Stopped)
             .(preflights := f.preflights + if probes then [me.history] else []) else f
    case Finish(_, ready) =>
      if me.pc.Verified? then SetPc(f, p, if ready then Serving(me.pc.id) else Stopped) else f
    case Stop(_) => SetPc(f, p, Stopped)
    case Serve(_, request) =>
      if me.pc.Serving?
      then SetHistory(f, me.history, Gate.Exec(sign, f.histories[me.history], Gate.Begin(me.replica, request))) else f
  }

  /**
    Requests enter a history only through Serve; all its other steps are free.  A crash of the host
    leaves what the processes had begun to those free steps, which only adds runs.
   */
  function Exec(sign: Payload -> Signature, f: Fleet, step: Step): Fleet {
    match step
    case Boot(h, r, initializeOnly, mayClaim) =>
      if h < |f.histories| && r < |f.histories[h].replicas|
      then f.(processes := f.processes + [Process(h, r, initializeOnly, mayClaim, Booting)]) else f
    case InHistory(h, gate) =>
      if h < |f.histories| && !gate.Begin? then
        SetHistory(f, h, Gate.Exec(sign, f.histories[h], gate))
          .(processes := if gate.Crash? then AfterCrash(f.processes, h, gate.replica) else f.processes)
      else f
    case LateClaim(id) => Created(f, id)
    case SyncClaim => if f.claim.Some? then f.(durable := true) else f
    case HostCrash =>
      if f.resource.StoreRecord? then f
      else f.(claim := if f.durable then f.claim else None, processes := Halted(f.processes))
    case _ =>
      if step.process < |f.processes| && f.processes[step.process].history < |f.histories|
      then ProcessStep(sign, f, step) else f
  }

  /** Everything that can happen to m histories of n replicas each in front of one key. */
  function Run(sign: Payload -> Signature, resource: Resource, m: nat, n: nat, steps: seq<Step>): Fleet {
    if steps == [] then Init(resource, m, n)
    else Exec(sign, Run(sign, resource, m, n, steps[..|steps| - 1]), steps[|steps| - 1])
  }

  /** The step is a startup check that finds the process's own claim. */
  predicate PassesCheck(f: Fleet, step: Step) {
    && step.Check? && step.process < |f.processes|
    && var me := f.processes[step.process];
       me.pc.Identified? && AfterCheck(me, me.pc.id, f.claim, step.readable).Bound?
  }

  /** Every startup check that passed in this run found a claim that no crash can take away. */
  predicate ChecksDurable(sign: Payload -> Signature, resource: Resource, m: nat, n: nat, steps: seq<Step>) {
    steps == [] ||
    (var front := steps[..|steps| - 1];
     var f := Run(sign, resource, m, n, front);
     ChecksDurable(sign, resource, m, n, front) && (PassesCheck(f, steps[|steps| - 1]) ==> f.durable))
  }

  // ---------------------------------------------------------------- the invariant

  function IdentityOf(f: Fleet, h: nat): string
    requires h < |f.histories|
  {
    Fsm.FirstIdentity(f.histories[h].log)
  }

  /** The key is claimed for this history's own identity. */
  predicate Owns(f: Fleet, h: nat) {
    h < |f.histories| && IdentityOf(f, h) != "" && f.claim == Some(IdentityOf(f, h))
  }

  predicate OwnsDurably(f: Fleet, h: nat) {
    Owns(f, h) && f.durable
  }

  /** With strict, what is bound or serving is so by a claim that no crash can take away. */
  predicate ProcessOk(f: Fleet, p: Process, strict: bool) {
    && p.history < |f.histories| && p.replica < |f.histories[p.history].replicas|
    && (p.pc.Identified? || p.pc.Claiming? || p.pc.Rereading? || Accepted(p.pc) ==>
          p.pc.id != "" && p.pc.id == IdentityOf(f, p.history))
    && (p.pc.Claiming? ==> p.mayClaim)
    && (Accepted(p.pc) ==> Owns(f, p.history))
    && (p.pc.Rereading? || (strict && Accepted(p.pc)) ==> OwnsDurably(f, p.history))
  }

  /** The process has found the claim to be its own. */
  predicate Accepted(pc: Pc) { pc.Bound? || pc.Verified? || pc.Serving? }

  ghost predicate HistoryOk(sign: Payload -> Signature, f: Fleet, h: nat, strict: bool)
    requires h < |f.histories|
  {
    && GateInvariant.Inv(sign, f.histories[h])
    && (strict && f.histories[h].calls != [] ==> OwnsDurably(f, h))
    && (f.histories[h].calls == [] ==> f.histories[h].signed == [] && f.histories[h].extended == [])
    && (f.histories[h].identities != [] ==> f.histories[h].replicas != [])
  }

  /** Only a claim that is there is durable, and a record of the store is durable once it is there. */
  predicate ClaimOk(f: Fleet) {
    && (f.durable ==> f.claim.Some?)
    && (f.resource.StoreRecord? && f.claim.Some? ==> f.durable)
  }

  ghost predicate Inv(sign: Payload -> Signature, f: Fleet, strict: bool) {
    && ClaimOk(f)
    && (forall h :: 0 <= h < |f.histories| ==> HistoryOk(sign, f, h, strict))
    && (forall p :: 0 <= p < |f.processes| ==> ProcessOk(f, f.processes[p], strict))
    && (strict ==> forall k :: 0 <= k < |f.preflights| ==> OwnsDurably(f, f.preflights[k]))
  }

  /** Ownership and identities survive as long as no claim is lost and logs only grow. */
  predicate Continues(f: Fleet, g: Fleet) {
    && |f.histories| == |g.histories|
    && CreateOnly(f.claim, g.claim)
    && (f.claim.Some? && f.durable ==> g.durable)
    && (forall h :: 0 <= h < |f.histories| ==> |g.histories[h].replicas| == |f.histories[h].replicas|)
    && forall h :: 0 <= h < |f.histories| && IdentityOf(f, h) != "" ==> IdentityOf(g, h) == IdentityOf(f, h)
  }

  lemma OwnsContinues(f: Fleet, g: Fleet, h: nat)
    requires Continues(f, g) && Owns(f, h)
    ensures Owns(g, h) && (f.durable ==> OwnsDurably(g, h))
  {
  }

  /** A step of one history keeps its identity, and without calls nothing is ever signed in it. */
  lemma GateStepFacts(sign: Payload -> Signature, c: Gate.Cluster, step: Gate.Step)
    ensures var d := Gate.Exec(sign, c, step);
      && (Fsm.FirstIdentity(c.log) != "" ==> Fsm.FirstIdentity(d.log) == Fsm.FirstIdentity(c.log))
      && (!step.Begin? ==> (d.calls == [] <==> c.calls == []))
      && (c.calls == [] ==> d.signed == c.signed && d.extended == c.extended)
      && |d.replicas| == |c.replicas| && |c.calls| <= |d.calls|
      && (d.identities == c.identities || c.replicas != [])
  {
    GateService.ReplicasStay(sign, c, step);
    GateService.CallsGrow(sign, c, step);
    GateService.LogGrows(sign, c, step);
    var d := Gate.Exec(sign, c, step);
    Fsm.IdentityIsStable(d.log, |c.log|);
    assert d.log[..|c.log|] == c.log;
  }

  /** A step of one history, with all that the others rely on. */
  lemma GateStep(sign: Payload -> Signature, c: Gate.Cluster, step: Gate.Step) returns (d: Gate.Cluster)
    requires GateInvariant.Inv(sign, c)
    ensures d == Gate.Exec(sign, c, step) && GateInvariant.Inv(sign, d) && |d.replicas| == |c.replicas|
    ensures Fsm.FirstIdentity(c.log) != "" ==> Fsm.FirstIdentity(d.log) == Fsm.FirstIdentity(c.log)
    ensures !step.Begin? ==> (d.calls == [] <==> c.calls == [])
    ensures c.calls == [] ==> d.signed == c.signed && d.extended == c.extended
    ensures |c.calls| <= |d.calls| && (d.identities == c.identities || c.replicas != [])
  {
    d := Gate.Exec(sign, c, step);
    GateInvariant.StepKeepsInv(sign, c, step);
    GateStepFacts(sign, c, step);
  }

  /** Processes as they were, or stopped. */
  predicate AtMostStopped(before: seq<Process>, after: seq<Process>) {
    && |after| == |before|
    && forall p :: 0 <= p < |after| ==> after[p] == before[p] || after[p] == before[p].(pc := Stopped)
  }

  /** A process that did not move, or was stopped, stays justified. */
  lemma StaysOk(f: Fleet, g: Fleet, p: Process, q: Process, strict: bool)
    requires Continues(f, g) && ProcessOk(f, p, strict) && (q == p || q == p.(pc := Stopped))
    ensures ProcessOk(g, q, strict)
  {
  }

  /** One history moves on as its own steps let it; what the rest rely on stays. */
  lemma HistoryMoveKeepsInv(
    sign: Payload -> Signature, f: Fleet, h: nat, d: Gate.Cluster, ps: seq<Process>, strict: bool)
    requires Inv(sign, f, strict) && h < |f.histories| && AtMostStopped(f.processes, ps)
    requires var c := f.histories[h];
      && GateInvariant.Inv(sign, d) && |d.replicas| == |c.replicas|
      && (Fsm.FirstIdentity(c.log) != "" ==> Fsm.FirstIdentity(d.log) == Fsm.FirstIdentity(c.log))
      && (d.calls == [] ==> d.signed == [] && d.extended == [])
      && (d.identities == c.identities || c.replicas != [])
      && (strict && c.calls == [] && d.calls != [] ==> OwnsDurably(f, h))
    ensures Inv(sign, SetHistory(f, h, d).(processes := ps), strict)
  {
    var g := SetHistory(f, h, d).(processes := ps);
    assert Continues(f, g);
    forall k | 0 <= k < |g.histories| ensures HistoryOk(sign, g, k, strict) {
      assert HistoryOk(sign, f, k, strict);
      if Owns(f, k) { OwnsContinues(f, g, k); }
    }
    forall p | 0 <= p < |g.processes| ensures ProcessOk(g, g.processes[p], strict) {
      assert ProcessOk(f, f.processes[p], strict);
      StaysOk(f, g, f.processes[p], g.processes[p], strict);
    }
    if strict {
      forall k | 0 <= k < |g.preflights| ensures OwnsDurably(g, g.preflights[k]) {
        OwnsContinues(f, g, f.preflights[k]);
      }
    }
  }

  lemma HistoryStepKeepsInv(
    sign: Payload -> Signature, f: Fleet, h: nat, gate: Gate.Step, ps: seq<Process>, strict: bool)
    requires Inv(sign, f, strict) && h < |f.histories| && AtMostStopped(f.processes, ps)
    requires strict && gate.Begin? ==> OwnsDurably(f, h)
    ensures Inv(sign, SetHistory(f, h, Gate.Exec(sign, f.histories[h], gate)).(processes := ps), strict)
  {
    assert HistoryOk(sign, f, h, strict);
    var d := GateStep(sign, f.histories[h], gate);
    HistoryMoveKeepsInv(sign, f, h, d, ps, strict);
  }

  /** Moving one process, with the claim only created or synced, keeps what the rest rely on. */
  lemma ProcessMoveKeepsInv(sign: Payload -> Signature, f: Fleet, g: Fleet, p: nat, strict: bool)
    requires Inv(sign, f, strict) && p < |f.processes| && |g.processes| == |f.processes|
    requires g.histories == f.histories && g.resource == f.resource && Continues(f, g)
    requires forall i :: 0 <= i < |g.processes| && i != p ==> g.processes[i] == f.processes[i]
    requires MovedOk(f, g, p, strict)
    ensures Inv(sign, g, strict)
  {
    forall k | 0 <= k < |g.histories| ensures HistoryOk(sign, g, k, strict) {
      assert HistoryOk(sign, f, k, strict);
      if Owns(f, k) { OwnsContinues(f, g, k); }
    }
    forall i | 0 <= i < |g.processes| ensures ProcessOk(g, g.processes[i], strict) {
      if i != p { assert ProcessOk(f, f.processes[i], strict); }
    }
    if strict {
      forall k | 0 <= k < |g.preflights| ensures OwnsDurably(g, g.preflights[k]) {
        if k < |f.preflights| {
          assert g.preflights[..|f.preflights|][k] == f.preflights[k];
          OwnsContinues(f, g, f.preflights[k]);
        }
      }
    }
  }

  lemma ProcessStepKeepsInv(sign: Payload -> Signature, f: Fleet, step: Step, strict: bool)
    requires Inv(sign, f, strict) && OfProcess(step) && step.process < |f.processes|
    requires strict && PassesCheck(f, step) ==> f.durable
    ensures f.processes[step.process].history < |f.histories|
    ensures Inv(sign, ProcessStep(sign, f, step), strict)
  {
    var p := step.process;
    var me := f.processes[p];
    assert ProcessOk(f, me, strict);
    if step.Serve? {
      if me.pc.Serving? {
        HistoryStepKeepsInv(sign, f, me.history, Gate.Begin(me.replica, step.request), f.processes, strict);
      }
    } else {
      assert HistoryOk(sign, f, me.history, strict);
      MovesOnlyProcess(sign, f, step);
      if step.Check? || step.Reread? { CheckOk(sign, f, step, strict); }
      else if step.Claim? { ClaimAttemptOk(sign, f, step, strict); }
      else if step.Identify? { IdentifyOk(sign, f, step, strict); }
      else { FinishOk(sign, f, step, strict); }
      ProcessMoveKeepsInv(sign, f, ProcessStep(sign, f, step), p, strict);
    }
  }

  lemma MovesOnlyProcess(sign: Payload -> Signature, f: Fleet, step: Step)
    requires OfProcess(step) && !step.Serve? && step.process < |f.processes|
    requires f.processes[step.process].history < |f.histories|
    ensures var g := ProcessStep(sign, f, step);
      && g.histories == f.histories && g.resource == f.resource && Continues(f, g)
      && |g.processes| == |f.processes|
      && forall i :: 0 <= i < |g.processes| && i != step.process ==> g.processes[i] == f.processes[i]
  {
  }

  /** What a moved process and the claim and probes it leaves must satisfy. */
  predicate MovedOk(f: Fleet, g: Fleet, p: nat, strict: bool) {
    && ClaimOk(g) && p < |g.processes| && ProcessOk(g, g.processes[p], strict)
    && (g.preflights == f.preflights
        || (|g.preflights| == |f.preflights| + 1 && g.preflights[..|f.preflights|] == f.preflights
            && (strict ==> OwnsDurably(g, g.preflights[|f.preflights|]))))
  }

  lemma CheckOk(sign: Payload -> Signature, f: Fleet, step: Step, strict: bool)
    requires (step.Check? || step.Reread?) && step.process < |f.processes| && ClaimOk(f)
    requires ProcessOk(f, f.processes[step.process], strict)
    requires strict && PassesCheck(f, step) ==> f.durable
    ensures MovedOk(f, ProcessStep(sign, f, step), step.process, strict)
  {
  }

  lemma ClaimAttemptOk(sign: Payload -> Signature, f: Fleet, step: Step, strict: bool)
    requires step.Claim? && step.process < |f.processes| && ClaimOk(f)
    requires ProcessOk(f, f.processes[step.process], strict)
    ensures MovedOk(f, ProcessStep(sign, f, step), step.process, strict)
  {
    var p := step.process;
    if f.processes[p].pc.Claiming? {
      AttemptOk(f, p, f.processes[p].pc.id, step.created, step.reported, strict);
    }
  }

  lemma AttemptOk(f: Fleet, p: nat, id: string, created: bool, reported: bool, strict: bool)
    requires p < |f.processes| && ClaimOk(f) && ProcessOk(f, f.processes[p], strict)
    requires f.processes[p].pc == Claiming(id)
    ensures MovedOk(f, ClaimAttempt(f, p, id, created, reported), p, strict)
  {
  }

  lemma FinishOk(sign: Payload -> Signature, f: Fleet, step: Step, strict: bool)
    requires (step.Preflight? || step.Finish? || step.Stop?) && step.process < |f.processes| && ClaimOk(f)
    requires ProcessOk(f, f.processes[step.process], strict)
    ensures MovedOk(f, ProcessStep(sign, f, step), step.process, strict)
  {
  }

  lemma IdentifyOk(sign: Payload -> Signature, f: Fleet, step: Step, strict: bool)
    requires step.Identify? && step.process < |f.processes| && ClaimOk(f)
    requires ProcessOk(f, f.processes[step.process], strict)
    requires var c := f.histories[f.processes[step.process].history]; GateInvariant.IdentitiesOk(c.log, c.identities)
    ensures MovedOk(f, ProcessStep(sign, f, step), step.process, strict)
  {
  }

  /** What an unsynced claim was relied on for is lost with it; nothing is when it was durable. */
  lemma HostCrashKeepsInv(sign: Payload -> Signature, f: Fleet, strict: bool)
    requires Inv(sign, f, strict)
    ensures Inv(sign, Exec(sign, f, HostCrash), strict)
  {
    var g := Exec(sign, f, HostCrash);
    forall k | 0 <= k < |g.histories| ensures HistoryOk(sign, g, k, strict) { assert HistoryOk(sign, f, k, strict); }
    forall i | 0 <= i < |g.processes| ensures ProcessOk(g, g.processes[i], strict) {
      assert ProcessOk(f, f.processes[i], strict);
    }
  }

  /** A step outside the processes that at most creates or syncs the claim. */
  lemma ClaimMoveKeepsInv(sign: Payload -> Signature, f: Fleet, g: Fleet, strict: bool)
    requires Inv(sign, f, strict) && Continues(f, g)
    requires g == f.(claim := g.claim, durable := g.durable) && ClaimOk(g)
    ensures Inv(sign, g, strict)
  {
    forall k | 0 <= k < |g.histories| ensures HistoryOk(sign, g, k, strict) {
      assert HistoryOk(sign, f, k, strict);
      if Owns(f, k) { OwnsContinues(f, g, k); }
    }
    forall i | 0 <= i < |g.processes| ensures ProcessOk(g, g.processes[i], strict) {
      assert ProcessOk(f, f.processes[i], strict);
    }
  }

  lemma BootKeepsInv(sign: Payload -> Signature, f: Fleet, step: Step, strict: bool)
    requires Inv(sign, f, strict) && step.Boot?
    ensures Inv(sign, Exec(sign, f, step), strict)
  {
    var g := Exec(sign, f, step);
    forall k | 0 <= k < |g.histories| ensures HistoryOk(sign, g, k, strict) { assert HistoryOk(sign, f, k, strict); }
    forall i | 0 <= i < |g.processes| ensures ProcessOk(g, g.processes[i], strict) {
      if i < |f.processes| { assert ProcessOk(f, f.processes[i], strict); }
    }
  }

  lemma StepKeepsInv(sign: Payload -> Signature, f: Fleet, step: Step, strict: bool)
    requires Inv(sign, f, strict)
    requires strict && PassesCheck(f, step) ==> f.durable
    ensures Inv(sign, Exec(sign, f, step), strict)
  {
    var g := Exec(sign, f, step);
    match step
    case Boot(h, _, _, _) => BootKeepsInv(sign, f, step, strict);
    case InHistory(h, gate) =>
      if h < |f.histories| && !gate.Begin? {
        HistoryStepKeepsInv(sign, f, h, gate,
          if gate.Crash? then AfterCrash(f.processes, h, gate.replica) else f.processes, strict);
      }
    case LateClaim(_) => ClaimMoveKeepsInv(sign, f, g, strict);
    case SyncClaim => ClaimMoveKeepsInv(sign, f, g, strict);
    case HostCrash => HostCrashKeepsInv(sign, f, strict);
    case _ =>
      if step.process < |f.processes| && f.processes[step.process].history < |f.histories| {
        ProcessStepKeepsInv(sign, f, step, strict);
      }
  }

  lemma InitInv(sign: Payload -> Signature, resource: Resource, m: nat, n: nat, strict: bool)
    ensures Inv(sign, Init(resource, m, n), strict)
  {
    var f := Init(resource, m, n);
    GateInvariant.RunKeepsInv(sign, n, []);
    forall h | 0 <= h < |f.histories| ensures HistoryOk(sign, f, h, strict) {
      assert f.histories[h] == Gate.Run(sign, n, []);
    }
  }

  lemma Stepped(sign: Payload -> Signature, f: Fleet, step: Step, strict: bool) returns (g: Fleet)
    requires Inv(sign, f, strict)
    requires strict && PassesCheck(f, step) ==> f.durable
    ensures g == Exec(sign, f, step) && Inv(sign, g, strict) && g.resource == f.resource
  {
    g := Exec(sign, f, step);
    StepKeepsInv(sign, f, step, strict);
    ExecKeepsResource(sign, f, step);
  }

  lemma ExecKeepsResource(sign: Payload -> Signature, f: Fleet, step: Step)
    ensures Exec(sign, f, step).resource == f.resource
  {
  }

  /** The invariant holds in every run, and its strict form in those whose checks found durable claims. */
  lemma {:induction false} RunKeepsInv(
    sign: Payload -> Signature, resource: Resource, m: nat, n: nat, steps: seq<Step>, strict: bool)
    requires strict ==> ChecksDurable(sign, resource, m, n, steps)
    ensures Inv(sign, Run(sign, resource, m, n, steps), strict)
    ensures Run(sign, resource, m, n, steps).resource == resource
  {
    if steps == [] {
      InitInv(sign, resource, m, n, strict);
    } else {
      RunKeepsInv(sign, resource, m, n, steps[..|steps| - 1], strict);
      var g := Stepped(sign, Run(sign, resource, m, n, steps[..|steps| - 1]), steps[|steps| - 1], strict);
    }
  }

  /** A record of the store is durable whenever a check can find it. */
  lemma {:induction false} RecordChecksDurable(sign: Payload -> Signature, m: nat, n: nat, steps: seq<Step>)
    ensures ChecksDurable(sign, StoreRecord, m, n, steps)
  {
    if steps != [] {
      RecordChecksDurable(sign, m, n, steps[..|steps| - 1]);
      RunKeepsInv(sign, StoreRecord, m, n, steps[..|steps| - 1], false);
    }
  }

  // ---------------------------------------------------------------- what every fleet guarantees

  /** The history has made the key sign something: a preflight probe, a canonical vote or an extension. */
  predicate UsedKey(f: Fleet, h: nat)
    requires h < |f.histories|
  {
    h in f.preflights || f.histories[h].signed != [] || f.histories[h].extended != []
  }

  predicate DistinctIdentities(f: Fleet) {
    forall h, k :: 0 <= h < k < |f.histories| && IdentityOf(f, h) != "" ==> IdentityOf(f, h) != IdentityOf(f, k)
  }

  lemma UserOwns(sign: Payload -> Signature, resource: Resource, m: nat, n: nat, steps: seq<Step>, h: nat)
    requires ChecksDurable(sign, resource, m, n, steps)
    requires h < |Run(sign, resource, m, n, steps).histories| && UsedKey(Run(sign, resource, m, n, steps), h)
    ensures OwnsDurably(Run(sign, resource, m, n, steps), h)
  {
    RunKeepsInv(sign, resource, m, n, steps, true);
    UsersOwn(sign, Run(sign, resource, m, n, steps), h);
  }

  lemma UsersOwn(sign: Payload -> Signature, f: Fleet, h: nat)
    requires Inv(sign, f, true) && h < |f.histories| && UsedKey(f, h)
    ensures OwnsDurably(f, h)
  {
    assert HistoryOk(sign, f, h, true);
  }

  /** If the histories have different identities, at most one of them ever makes the key sign. */
  lemma OneHistorySigns(
    sign: Payload -> Signature, resource: Resource, m: nat, n: nat, steps: seq<Step>, h: nat, k: nat)
    requires resource.StoreRecord? || ChecksDurable(sign, resource, m, n, steps)
    requires var f := Run(sign, resource, m, n, steps);
      && DistinctIdentities(f) && h < |f.histories| && k < |f.histories|
      && UsedKey(f, h) && UsedKey(f, k)
    ensures h == k
  {
    if resource.StoreRecord? { RecordChecksDurable(sign, m, n, steps); }
    UserOwns(sign, resource, m, n, steps, h);
    UserOwns(sign, resource, m, n, steps, k);
    if h < k {
      assert false;
    } else if k < h {
      assert false;
    }
  }

  /** No double-sign over the whole set of histories. */
  lemma NoDoubleSignAcrossHistories(
    sign: Payload -> Signature, resource: Resource, m: nat, n: nat, steps: seq<Step>, h: nat, k: nat, i: nat, j: nat)
    requires resource.StoreRecord? || ChecksDurable(sign, resource, m, n, steps)
    requires var f := Run(sign, resource, m, n, steps);
      && DistinctIdentities(f) && h < |f.histories| && k < |f.histories|
      && i < |f.histories[h].signed| && j < |f.histories[k].signed|
      && f.histories[h].signed[i].chain == f.histories[k].signed[j].chain
      && f.histories[h].signed[i].mark == f.histories[k].signed[j].mark
    ensures var f := Run(sign, resource, m, n, steps);
      && f.histories[h].signed[i].signBytes == f.histories[k].signed[j].signBytes
      && f.histories[h].signed[i].sig == f.histories[k].signed[j].sig
  {
    var f := Run(sign, resource, m, n, steps);
    RunKeepsInv(sign, resource, m, n, steps, false);
    OneHistorySigns(sign, resource, m, n, steps, h, k);
    assert HistoryOk(sign, f, h, false);
    var c := f.histories[h];
    var a, b := c.signed[i], c.signed[j];
    assert GateInvariant.SigningOk(sign, c.log, a) && GateInvariant.SigningOk(sign, c.log, b);
    GateInvariant.HeldIsUnique(c.log, a.chain, a.mark, a.signBytes, b.signBytes);
  }
}
