/**
  The signer's own code, written as the sequence of effects it has on the shared
  cluster.  Between any two effects every other call, replica and failure of the
  cluster may take any number of steps, so an execution of these methods is a run
  of the gate, and the results are stated through the gate's theorems.
 */
module PrivValidator {
  import opened Wrappers
  import opened Messages
  import opened Gate
  import opened GateInvariant
  import opened GateTheorems
  import GateService
  import Fsm
  import ClusterId

  datatype SignError =
    | NilMessage
    | BadRequest(defect: Defect)
    | NotLeader
    | ApplyFailed
    | RefusedByGate(reason: Fsm.FsmError)
    | BackendFailed
    | ExtensionFailed

  /** What is wrong with a request that is not admitted. */
  datatype Defect = UnknownVoteType | UnexpectedExtension | InvalidRequest

  datatype IdentityError = Closed | NoEntropy | InitializeFailed | DeadlineExceeded

  /** The cluster, the run that led to it, and the key's signing function. */
  class World {
    const sign: Payload -> Signature
    const n: nat
    var s: Cluster
    ghost var steps: seq<Step>
    ghost var troubles: nat      // how often leadership, a reply, the backend or time failed a caller

    ghost predicate Valid()
      reads this`s, this`steps
    {
      s == Run(sign, n, steps)
    }

    constructor (sign: Payload -> Signature, n: nat)
      ensures Valid() && s == Init(n) && this.sign == sign && this.n == n
    {
      this.sign := sign;
      this.n := n;
      s := Init(n);
      steps := [];
      troubles := 0;
    }

    /** The environment decides whether the next thing works. */
    method Luck() returns (good: bool)
      modifies this`troubles
      ensures troubles == old(troubles) + if good then 0 else 1
    {
      good := *;
      troubles := troubles + if good then 0 else 1;
    }

    method Do(step: Step)
      requires Valid()
      modifies this`s, this`steps
      ensures Valid() && steps == old(steps) + [step] && s == Exec(sign, old(s), step)
    {
      s := Exec(sign, s, step);
      steps := steps + [step];
      assert steps[..|steps| - 1] == old(steps);
    }

    /** The rest of the cluster runs; a given call, and the process that serves it, stay as they are. */
    method Others(mine: nat)
      requires Valid() && mine < |s.calls|
      modifies this`s, this`steps
      ensures Valid() && old(steps) <= steps
      ensures mine < |s.calls| && s.calls[mine] == old(s.calls[mine])
    {
      var budget: nat := *;
      while budget > 0
        invariant Valid() && old(steps) <= steps
        invariant mine < |s.calls| && s.calls[mine] == old(s.calls[mine])
      {
        var step: Step := *;
        if !(IsCallStep(step) && step.call == mine) && !(step.Crash? && step.replica == s.calls[mine].replica) {
          OtherStepsKeepCall(sign, s, step, mine);
          Do(step);
        }
        budget := budget - 1;
      }
    }

    /** The whole rest of the cluster runs. */
    method Anything()
      requires Valid()
      modifies this`s, this`steps
      ensures Valid() && old(steps) <= steps
    {
      var budget: nat := *;
      while budget > 0
        invariant Valid() && old(steps) <= steps
      {
        var step: Step := *;
        Do(step);
        budget := budget - 1;
      }
    }
  }

  /** A step of another call, or a crash of another process, leaves a call where it is. */
  lemma OtherStepsKeepCall(sign: Payload -> Signature, s: Cluster, step: Step, mine: nat)
    requires mine < |s.calls|
    requires !(IsCallStep(step) && step.call == mine)
    requires !(step.Crash? && step.replica == s.calls[mine].replica)
    ensures mine < |Exec(sign, s, step).calls| && Exec(sign, s, step).calls[mine] == s.calls[mine]
  {
  }

  /** The entry is the reservation, or a commit, of what the request asks for. */
  predicate Concerns(c: Fsm.Command, req: Request) {
    && Admit(req).Some?
    && var ask := Admit(req).value;
       || c == Fsm.Reserve(ask.chain, ask.mark, ask.signBytes, ask.ts)
       || (c.Commit? && c.chain == ask.chain && c.mark == ask.mark)
  }

  /** The log has refused the request's reservation or commit for this reason. */
  ghost predicate RefusedByLog(log: seq<Fsm.Command>, req: Request, error: SignError) {
    && error.RefusedByGate?
    && exists i :: 0 <= i < |log| && Concerns(log[i], req) && Fsm.ResponseAt(log, i) == Fsm.Refused(error.reason)
  }

  /** An answer a call gets is the log's answer to its own entry. */
  lemma AnswerOfLog(sign: Payload -> Signature, n: nat, steps: seq<Step>, c: nat, i: nat)
    requires var s := Run(sign, n, steps);
      && c < |s.calls| && (s.calls[c].pc.Reserving? || s.calls[c].pc.Committing?)
      && Answered(s, s.calls[c].replica, s.calls[c].pc.pid, i)
    ensures var s := Run(sign, n, steps);
      i < |s.log| && Concerns(s.log[i], s.calls[c].request)
      && s.replicas[s.calls[c].replica].replies[i] == Fsm.ResponseAt(s.log, i)
  {
    var s := Run(sign, n, steps);
    RunKeepsInv(sign, n, steps);
    assert CallOk(sign, s.log, s.proposals, s.calls[c]);
    AnsweredMeans(sign, s, s.calls[c].replica, s.calls[c].pc.pid, i);
  }

  // What the steps of a call do to it.

  lemma FailStep(sign: Payload -> Signature, s: Cluster, c: nat)
    requires c < |s.calls| && Admit(s.calls[c].request).Some? && !Over(s.calls[c].pc)
    ensures var t := Exec(sign, s, Fail(c)); c < |t.calls| && t.calls[c] == s.calls[c].(pc := Failed)
  {
  }

  lemma SubmitStep(sign: Payload -> Signature, s: Cluster, c: nat)
    requires c < |s.calls| && Admit(s.calls[c].request).Some?
    ensures s.calls[c].pc.Admitted? ==>
      var t := Exec(sign, s, SubmitReserve(c));
      c < |t.calls| && t.calls[c] == s.calls[c].(pc := Reserving(|s.proposals|))
    ensures s.calls[c].pc.Signed? ==>
      var t, pc := Exec(sign, s, SubmitCommit(c)), s.calls[c].pc;
      c < |t.calls| && t.calls[c] == s.calls[c].(pc := Committing(|s.proposals|, pc.signBytes, pc.sig, pc.ts))
  {
  }

  lemma ReserveReplyStep(sign: Payload -> Signature, s: Cluster, c: nat, i: nat)
    requires c < |s.calls| && Admit(s.calls[c].request).Some? && s.calls[c].pc.Reserving?
    requires Answered(s, s.calls[c].replica, s.calls[c].pc.pid, i)
    ensures var t := Exec(sign, s, ReserveReply(c, i));
      && c < |t.calls| && t.log == s.log
      && t.calls[c] == s.calls[c].(pc := AfterReserve(s.replicas[s.calls[c].replica].replies[i]))
  {
  }

  lemma CommitReplyStep(sign: Payload -> Signature, s: Cluster, c: nat, i: nat)
    requires c < |s.calls| && Admit(s.calls[c].request).Some? && s.calls[c].pc.Committing?
    requires Answered(s, s.calls[c].replica, s.calls[c].pc.pid, i)
    ensures var t := Exec(sign, s, CommitReply(c, i));
      && c < |t.calls| && t.log == s.log
      && t.calls[c] == s.calls[c].(pc := if s.replicas[s.calls[c].replica].replies[i].Refused? then Failed
                                         else Gated(s.calls[c].pc.sig, s.calls[c].pc.ts))
  {
  }

  class GatedPrivValidator {
    const world: World
    const replica: nat

    constructor (world: World, replica: nat)
      ensures this.world == world && this.replica == replica
    {
      this.world := world;
      this.replica := replica;
    }

    /** The store's Reserve: leadership check, apply, reply or loss of it. */
    method Reserve(c: nat) returns (r: Result<Fsm.Response, SignError>)
      requires world.Valid() && c < |world.s.calls| && world.s.calls[c].pc.Admitted?
      requires Admit(world.s.calls[c].request).Some?
      modifies world
      ensures world.Valid() && old(world.steps) <= world.steps
      ensures c < |world.s.calls| && world.s.calls[c].request == old(world.s.calls[c].request)
      ensures r.Ok? ==> !r.value.Refused? && world.s.calls[c].pc == AfterReserve(r.value)
      ensures r.Err? ==> world.s.calls[c].pc.Failed? && !r.error.BadRequest? && !r.error.NilMessage?
      ensures world.troubles >= old(world.troubles)
      ensures r.Err? && world.troubles == old(world.troubles) ==>
        RefusedByLog(world.s.log, world.s.calls[c].request, r.error)
    {
      var leader := world.Luck();
      if !leader {
        GiveUp(c);
        return Err(NotLeader);
      }
      SubmitStep(world.sign, world.s, c);
      world.Do(SubmitReserve(c));
      world.Others(c);
      r := AwaitReserve(c);
    }

    /** The call fails. */
    method GiveUp(c: nat)
      requires world.Valid() && c < |world.s.calls| && !Over(world.s.calls[c].pc)
      requires Admit(world.s.calls[c].request).Some?
      modifies world
      ensures world.Valid() && old(world.steps) <= world.steps && world.troubles == old(world.troubles)
      ensures c < |world.s.calls| && world.s.calls[c] == old(world.s.calls[c]).(pc := Failed)
    {
      FailStep(world.sign, world.s, c);
      world.Do(Fail(c));
    }

    /** The reply to the reservation, or its loss. */
    method AwaitReserve(c: nat) returns (r: Result<Fsm.Response, SignError>)
      requires world.Valid() && c < |world.s.calls| && world.s.calls[c].pc.Reserving?
      requires Admit(world.s.calls[c].request).Some?
      modifies world
      ensures world.Valid() && old(world.steps) <= world.steps
      ensures c < |world.s.calls| && world.s.calls[c].request == old(world.s.calls[c].request)
      ensures r.Ok? ==> !r.value.Refused? && world.s.calls[c].pc == AfterReserve(r.value)
      ensures r.Err? ==> world.s.calls[c].pc.Failed? && !r.error.BadRequest? && !r.error.NilMessage?
      ensures world.troubles >= old(world.troubles)
      ensures r.Err? && world.troubles == old(world.troubles) ==>
        RefusedByLog(world.s.log, world.s.calls[c].request, r.error)
    {
      var i: nat := *;
      var call := world.s.calls[c];
      if !Answered(world.s, call.replica, call.pc.pid, i) {
        world.troubles := world.troubles + 1;
        GiveUp(c);
        return Err(ApplyFailed);
      }
      var res := world.s.replicas[call.replica].replies[i];
      AnswerOfLog(world.sign, world.n, world.steps, c, i);
      ReserveReplyStep(world.sign, world.s, c, i);
      world.Do(ReserveReply(c, i));
      return if res.Refused? then Err(RefusedByGate(res.error)) else Ok(res);
    }

    /** The store's Commit. */
    method Commit(c: nat) returns (error: Option<SignError>)
      requires world.Valid() && c < |world.s.calls| && world.s.calls[c].pc.Signed?
      requires Admit(world.s.calls[c].request).Some?
      modifies world
      ensures world.Valid() && old(world.steps) <= world.steps
      ensures c < |world.s.calls| && world.s.calls[c].request == old(world.s.calls[c].request)
      ensures error.None? ==> world.s.calls[c].pc == Gated(old(world.s.calls[c].pc.sig), old(world.s.calls[c].pc.ts))
      ensures error.Some? ==> world.s.calls[c].pc.Failed? && !error.value.BadRequest? && !error.value.NilMessage?
      ensures world.troubles >= old(world.troubles)
      ensures error.Some? && world.troubles == old(world.troubles) ==>
        RefusedByLog(world.s.log, world.s.calls[c].request, error.value)
    {
      var leader := world.Luck();
      if !leader {
        GiveUp(c);
        return Some(NotLeader);
      }
      SubmitStep(world.sign, world.s, c);
      world.Do(SubmitCommit(c));
      world.Others(c);
      error := AwaitCommit(c);
    }

    /** The reply to the commit, or its loss. */
    method AwaitCommit(c: nat) returns (error: Option<SignError>)
      requires world.Valid() && c < |world.s.calls| && world.s.calls[c].pc.Committing?
      requires Admit(world.s.calls[c].request).Some?
      modifies world
      ensures world.Valid() && old(world.steps) <= world.steps
      ensures c < |world.s.calls| && world.s.calls[c].request == old(world.s.calls[c].request)
      ensures error.None? ==> world.s.calls[c].pc == Gated(old(world.s.calls[c].pc.sig), old(world.s.calls[c].pc.ts))
      ensures error.Some? ==> world.s.calls[c].pc.Failed? && !error.value.BadRequest? && !error.value.NilMessage?
      ensures world.troubles >= old(world.troubles)
      ensures error.Some? && world.troubles == old(world.troubles) ==>
        RefusedByLog(world.s.log, world.s.calls[c].request, error.value)
    {
      var i: nat := *;
      var call := world.s.calls[c];
      if !Answered(world.s, call.replica, call.pc.pid, i) {
        world.troubles := world.troubles + 1;
        GiveUp(c);
        return Some(ApplyFailed);
      }
      var res := world.s.replicas[call.replica].replies[i];
      AnswerOfLog(world.sign, world.n, world.steps, c, i);
      CommitReplyStep(world.sign, world.s, c, i);
      world.Do(CommitReply(c, i));
      return if res.Refused? then Some(RefusedByGate(res.error)) else None;
    }

    /** The backend signs the reserved bytes, or fails. */
    method InvokeBackend(c: nat) returns (sig: Option<Signature>)
      requires world.Valid() && c < |world.s.calls| && world.s.calls[c].pc.Reserved?
      requires Admit(world.s.calls[c].request).Some?
      modifies world
      ensures world.Valid() && old(world.steps) <= world.steps
      ensures c < |world.s.calls| && world.s.calls[c].request == old(world.s.calls[c].request)
      ensures sig.Some? ==>
        && sig.value == world.sign(Canonical(old(world.s.calls[c].pc.signBytes)))
        && world.s.calls[c].pc == Signed(old(world.s.calls[c].pc.signBytes), sig.value, old(world.s.calls[c].pc.ts))
      ensures sig.None? ==> world.s.calls[c].pc.Failed? && world.troubles > old(world.troubles)
      ensures sig.Some? ==> world.troubles == old(world.troubles)
    {
      world.Others(c);
      var backendOk := world.Luck();
      if !backendOk {
        world.Do(Fail(c));
        return None;
      }
      sig := Some(world.sign(Canonical(world.s.calls[c].pc.signBytes)));
      world.Do(BackendSign(c));
    }

    /** Reserve, sign exactly the reserved bytes, commit. */
    method GatedSign(c: nat) returns (r: Result<(Signature, Time), SignError>)
      requires world.Valid() && c < |world.s.calls| && world.s.calls[c].pc.Admitted?
      requires Admit(world.s.calls[c].request).Some?
      modifies world
      ensures world.Valid() && old(world.steps) <= world.steps
      ensures c < |world.s.calls| && world.s.calls[c].request == old(world.s.calls[c].request)
      ensures r.Ok? ==> world.s.calls[c].pc == Gated(r.value.0, r.value.1)
      ensures r.Err? ==> world.s.calls[c].pc.Failed? && !r.error.BadRequest? && !r.error.NilMessage?
      ensures world.troubles >= old(world.troubles)
      ensures r.Err? && world.troubles == old(world.troubles) ==>
        RefusedByLog(world.s.log, world.s.calls[c].request, r.error)
    {
      world.Others(c);
      var reserved := Reserve(c);
      if reserved.Err? {
        return Err(reserved.error);
      }
      var res := reserved.value;
      if res.Reuse? && |res.signature| > 0 {
        return Ok((res.signature, res.timestamp));
      }
      var sig := InvokeBackend(c);
      if sig.None? {
        return Err(BackendFailed);
      }
      world.Others(c);
      var failed := Commit(c);
      if failed.Some? {
        return Err(failed.value);
      }
      return Ok((sig.value, AnswerTime(res)));
    }

    /** Registers an admitted request as a call of this process. */
    method BeginCall(req: Request) returns (c: nat)
      requires world.Valid() && replica < |world.s.replicas| && Admit(req).Some?
      modifies world
      ensures world.Valid() && old(world.steps) <= world.steps
      ensures c < |world.s.calls| && world.s.calls[c] == Call(replica, req, Admitted)
      ensures world.troubles == old(world.troubles)
    {
      c := |world.s.calls|;
      world.Do(Begin(replica, req));
    }

    /** The extension signature that follows the canonical one of a non-nil precommit. */
    method SignVoteExtension(c: nat) returns (ext: Option<Signature>)
      requires world.Valid() && c < |world.s.calls| && world.s.calls[c].pc.Gated?
      requires Admit(world.s.calls[c].request).Some? && WantsExtension(world.s.calls[c].request)
      modifies world
      ensures world.Valid() && old(world.steps) <= world.steps
      ensures c < |world.s.calls| && world.s.calls[c].request == old(world.s.calls[c].request)
      ensures ext.Some? ==>
        world.s.calls[c].pc == Extended(old(world.s.calls[c].pc.sig), old(world.s.calls[c].pc.ts), ext.value)
      ensures world.troubles == old(world.troubles) + if ext.Some? then 0 else 1
    {
      world.Others(c);
      var backendOk := world.Luck();
      if !backendOk {
        world.Do(Fail(c));
        return None;
      }
      var req := world.s.calls[c].request;
      var sig := world.sign(Extension(VoteExtensionSignBytes(req.chain, req.vote)));
      world.Do(SignExtension(c));
      return Some(sig);
    }

    /** Hands the stamped message back; it verifies. */
    method Finish(c: nat, sig: Signature, ts: Time, ext: Signature)
      requires world.Valid() && c < |world.s.calls|
      requires Admit(world.s.calls[c].request).Some?
      requires if WantsExtension(world.s.calls[c].request) then world.s.calls[c].pc == Extended(sig, ts, ext)
               else world.s.calls[c].pc == Gated(sig, ts) && ext == []
      modifies world
      ensures world.Valid() && old(world.steps) <= world.steps
      ensures c < |world.s.calls| && world.s.calls[c].pc.Released?
      ensures Message(world.s.calls[c]) == Stamp(old(world.s.calls[c].request), ts, sig, ext)
      ensures Verifies(world.sign, Message(world.s.calls[c])) && world.troubles == old(world.troubles)
    {
      world.Do(Release(c));
      ReleasedMessagesVerify(world.sign, world.n, world.steps, c);
    }

    /**
      Signs a vote.  A vote handed back verifies under the key at its stamped timestamp, differs from
      the caller's in the three signature fields only, and is the released result of a call of the run.
     */
    method SignVote(chain: string, vote: Option<Vote>) returns (r: Result<Vote, SignError>, ghost c: nat)
      requires world.Valid() && replica < |world.s.replicas|
      modifies world
      ensures world.Valid() && old(world.steps) <= world.steps
      ensures r.Ok? ==> vote.Some?
      ensures r.Ok? ==>
        VoteRequest(chain, r.value) == Stamp(VoteRequest(chain, vote.value), r.value.timestamp, r.value.signature,
                                             r.value.extensionSignature)
      ensures r.Ok? ==> Verifies(world.sign, VoteRequest(chain, r.value))
      ensures r.Ok? ==> ReleasedBy(world.s, c, VoteRequest(chain, r.value))
      ensures r == Err(NilMessage) <==> vote.None?
      ensures r.Err? && r.error.BadRequest? <==> vote.Some? && Admit(VoteRequest(chain, vote.value)).None?
      ensures r.Err? && vote.Some? && !r.error.BadRequest? && world.troubles == old(world.troubles) ==>
        RefusedByLog(world.s.log, VoteRequest(chain, vote.value), r.error)
    {
      c := 0;
      if vote.None? {
        return Err(NilMessage), c;
      }
      var v := vote.value;
      if VoteToStep(v).None? {
        return Err(BadRequest(UnknownVoteType)), c;
      }
      var nonNilPrecommit := v.kind == PRECOMMIT_TYPE && !v.block.NilBlock?;
      if |v.extension| > 0 && !nonNilPrecommit {
        return Err(BadRequest(UnexpectedExtension)), c;
      }
      if VoteSignBytes(chain, v).None? {
        return Err(BadRequest(InvalidRequest)), c;
      }
      var call := BeginCall(VoteRequest(chain, v));
      c := call;
      var gated := GatedSign(call);
      if gated.Err? {
        return Err(gated.error), c;
      }
      var (canonicalSignature, canonicalTimestamp) := gated.value;
      var extensionSignature: Signature := [];
      if nonNilPrecommit {
        var ext := SignVoteExtension(call);
        if ext.None? {
          return Err(ExtensionFailed), c;
        }
        extensionSignature := ext.value;
      }
      Finish(call, canonicalSignature, canonicalTimestamp, extensionSignature);
      return Ok(v.(timestamp := canonicalTimestamp, signature := canonicalSignature,
                   extensionSignature := extensionSignature)), c;
    }

    /** Signs a proposal, with the same promises. */
    method SignProposal(chain: string, proposal: Option<Proposal>)
      returns (r: Result<Proposal, SignError>, ghost c: nat)
      requires world.Valid() && replica < |world.s.replicas|
      modifies world
      ensures world.Valid() && old(world.steps) <= world.steps
      ensures r.Ok? ==> proposal.Some?
      ensures r.Ok? ==>
        r.value == proposal.value.(timestamp := r.value.timestamp, signature := r.value.signature)
      ensures r.Ok? ==> Verifies(world.sign, ProposalRequest(chain, r.value))
      ensures r.Ok? ==> ReleasedBy(world.s, c, ProposalRequest(chain, r.value))
      ensures r == Err(NilMessage) <==> proposal.None?
      ensures r.Err? && r.error.BadRequest? <==>
        proposal.Some? && Admit(ProposalRequest(chain, proposal.value)).None?
      ensures r.Err? && proposal.Some? && !r.error.BadRequest? && world.troubles == old(world.troubles) ==>
        RefusedByLog(world.s.log, ProposalRequest(chain, proposal.value), r.error)
    {
      c := 0;
      if proposal.None? {
        return Err(NilMessage), c;
      }
      var p := proposal.value;
      if ProposalSignBytes(chain, p).None? {
        return Err(BadRequest(InvalidRequest)), c;
      }
      var call := BeginCall(ProposalRequest(chain, p));
      c := call;
      var gated := GatedSign(call);
      if gated.Err? {
        return Err(gated.error), c;
      }
      Finish(call, gated.value.0, gated.value.1, []);
      return Ok(p.(timestamp := gated.value.1, signature := gated.value.0)), c;
    }

    /** One attempt to initialise the identity: an answer, or none because the reply was lost. */
    method ProposeCandidate(candidate: string) returns (r: Option<string>)
      requires world.Valid() && replica < |world.s.replicas| && ClusterId.Valid(candidate)
      modifies world
      ensures world.Valid() && old(world.steps) <= world.steps && replica < |world.s.replicas|
      ensures r.Some? ==> r.value != "" && r.value == Fsm.FirstIdentity(world.s.log)
      ensures world.troubles == old(world.troubles) + if r.Some? then 0 else 1
    {
      ReplicaCount(world.sign, world.n, world.steps);
      var pid := |world.s.proposals|;
      world.Do(ProposeIdentity(candidate));
      ghost var before := world.steps;
      world.Anything();
      ReplicaCount(world.sign, world.n, world.steps);
      var i: nat := *;
      if !Answered(world.s, replica, pid, i) {
        world.troubles := world.troubles + 1;
        return None;
      }
      InitIsProposed(world.sign, world.n, before, world.steps, pid, candidate);
      CandidateAnswer(world.sign, world.n, world.steps, replica, pid, i, candidate);
      var known := TakeAnswer(i);
      return Some(known);
    }

    /** The identity an answered init command gives. */
    method TakeAnswer(i: nat) returns (known: string)
      requires world.Valid() && replica < |world.s.replicas|
      requires i in world.s.replicas[replica].replies && world.s.replicas[replica].replies[i].Identity?
      modifies world
      ensures world.Valid() && old(world.steps) <= world.steps && replica < |world.s.replicas|
      ensures known != "" && known == Fsm.FirstIdentity(world.s.log) && world.troubles == old(world.troubles)
    {
      known := world.s.replicas[replica].replies[i].clusterId;
      world.Do(IdentityReply(replica, i));
      IdentityAgreement(world.sign, world.n, world.steps, |world.s.identities| - 1);
    }

    /** The local read of the identity. */
    method LocalIdentity() returns (id: string)
      requires world.Valid() && replica < |world.s.replicas|
      modifies world
      ensures world.Valid() && old(world.steps) <= world.steps && replica < |world.s.replicas|
      ensures id != "" ==> id == Fsm.FirstIdentity(world.s.log)
      ensures id == old(world.s.replicas[replica].fsm.clusterId)
      ensures world.troubles == old(world.troubles) && (id == "" ==> world.s == old(world.s))
    {
      id := world.s.replicas[replica].fsm.clusterId;
      if id != "" {
        world.Do(ReadIdentity(replica));
        IdentityAgreement(world.sign, world.n, world.steps, |world.s.identities| - 1);
      }
    }

    /**
      Returns the replicated identity, initialising it through the log when there is none.  The
      deadline is the number of ticks the caller's context allows; an identity known here is returned
      even when there are none.
     */
    method EnsureClusterID(ticks: nat) returns (r: Result<string, IdentityError>)
      requires world.Valid() && replica < |world.s.replicas|
      modifies world
      ensures world.Valid() && old(world.steps) <= world.steps
      ensures r.Ok? ==> r.value != "" && r.value == Fsm.FirstIdentity(world.s.log)
      ensures var known := old(world.s.replicas[replica].fsm.clusterId); known != "" ==> r == Ok(known)
      ensures r.Err? ==> world.troubles > old(world.troubles) || ticks == 0
    {
      ReplicaCount(world.sign, world.n, world.steps);
      var id := LocalIdentity();
      if id != "" {
        return Ok(id);
      }
      var candidate := "";
      var left := ticks;
      while left > 0
        invariant world.Valid() && old(world.steps) <= world.steps && replica < |world.s.replicas| && replica < world.n
        invariant left == ticks || world.troubles > old(world.troubles)
        invariant world.troubles >= old(world.troubles) && left <= ticks
        invariant candidate != "" ==> ClusterId.Valid(candidate)
      {
        var done: Option<Result<string, IdentityError>>;
        done, candidate := Attempt(candidate);
        if done.Some? {
          return done.value;
        }
        world.Anything();
        ReplicaCount(world.sign, world.n, world.steps);
        id := LocalIdentity();
        if id != "" {
          return Ok(id);
        }
        left := left - 1;
      }
      return Err(DeadlineExceeded);
    }

    /** One turn of the wait: a leader proposes its candidate, made when it is first needed. */
    method Attempt(candidate: string) returns (done: Option<Result<string, IdentityError>>, next: string)
      requires world.Valid() && replica < |world.s.replicas| && (candidate != "" ==> ClusterId.Valid(candidate))
      modifies world
      ensures world.Valid() && old(world.steps) <= world.steps && replica < |world.s.replicas|
      ensures next != "" ==> ClusterId.Valid(next)
      ensures done.Some? && done.value.Ok? ==>
        done.value.value != "" && done.value.value == Fsm.FirstIdentity(world.s.log)
      ensures !(done.Some? && done.value.Ok?) ==> world.troubles > old(world.troubles)
      ensures world.troubles >= old(world.troubles)
    {
      next := candidate;
      var isOpen := world.Luck();
      if !isOpen {
        return Some(Err(Closed)), next;
      }
      var leader := world.Luck();
      if !leader {
        return None, next;
      }
      if next == "" {
        var random := world.Luck();
        if !random {
          return Some(Err(NoEntropy)), next;
        }
        next := NewCandidate();
      }
      var answer := ProposeCandidate(next);
      if answer.Some? {
        return Some(Ok(answer.value)), next;
      }
      var failure := AfterFailedProposal();
      return if failure.Some? then Some(Err(failure.value)) else None, next;
    }

    /** Why a failed proposal ends the wait: the context, the store, or an error not worth a retry. */
    method AfterFailedProposal() returns (failure: Option<IdentityError>)
      ensures failure != Some(NoEntropy)
    {
      var expired: bool := *;
      if expired {
        return Some(DeadlineExceeded);
      }
      var closed: bool := *;
      if closed {
        return Some(Closed);
      }
      var retryable: bool := *;
      return if retryable then None else Some(InitializeFailed);
    }
  }

  /** The message's signatures are the key's over what the message encodes to. */
  predicate Verifies(sign: Payload -> Signature, m: Request) {
    && Encode(m).Some?
    && (m.ProposalRequest? ==> m.proposal.signature == sign(Canonical(Encode(m).value)))
    && (m.VoteRequest? ==>
          && m.vote.signature == sign(Canonical(Encode(m).value))
          && m.vote.extensionSignature ==
               (if NonNilPrecommit(m.vote) then sign(Extension(VoteExtensionSignBytes(m.chain, m.vote))) else []))
  }

  predicate ReleasedBy(s: Cluster, c: nat, m: Request) {
    c < |s.calls| && s.calls[c].pc.Released? && Message(s.calls[c]) == m
  }

  /** A new candidate identity. */
  method NewCandidate() returns (id: string)
    ensures ClusterId.Valid(id) && id != ""
  {
    var raw := new ClusterId.Byte[16];
    var r := ClusterId.New(Some(raw[..]));
    return r.value;
  }

  /** What was submitted stays submitted. */
  lemma {:induction false} InitIsProposed(
    sign: Payload -> Signature, n: nat, before: seq<Step>, after: seq<Step>, pid: nat, id: string)
    requires before <= after && pid < |Run(sign, n, before).proposals|
    requires Run(sign, n, before).proposals[pid] == Fsm.InitCluster(id)
    ensures pid < |Run(sign, n, after).proposals| && Run(sign, n, after).proposals[pid] == Fsm.InitCluster(id)
    decreases |after|
  {
    if before != after {
      InitIsProposed(sign, n, before, after[..|after| - 1], pid, id);
      ProposalsStay(sign, Run(sign, n, after[..|after| - 1]), after[|after| - 1]);
    }
  }

  lemma ProposalsStay(sign: Payload -> Signature, s: Cluster, step: Step)
    ensures s.proposals <= Exec(sign, s, step).proposals
  {
  }

  /** A valid candidate is answered with an identity. */
  lemma CandidateAnswer(
    sign: Payload -> Signature, n: nat, steps: seq<Step>, r: nat, pid: nat, i: nat, id: string)
    requires var s := Run(sign, n, steps);
      Answered(s, r, pid, i) && pid < |s.proposals| && s.proposals[pid] == Fsm.InitCluster(id)
    requires ClusterId.Valid(id)
    ensures Run(sign, n, steps).replicas[r].replies[i].Identity?
  {
    var s := Run(sign, n, steps);
    RunKeepsInv(sign, n, steps);
    AnsweredMeans(sign, s, r, pid, i);
    Fsm.InitIsAnswered(s.log[..i], id);
  }

  lemma ReplicaCount(sign: Payload -> Signature, n: nat, steps: seq<Step>)
    ensures |Run(sign, n, steps).replicas| == n
  {
    GateService.RunHasReplicas(sign, n, steps);
  }
}
