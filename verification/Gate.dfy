/**
  The reserve, sign, commit gate as a concurrent protocol.

  Consensus is one agreed, append-only log.  A signing call submits a command and
  then waits; the command may be appended at any later moment, even after its call
  has given up, or never (appending it twice is allowed too, which only adds runs).
  Replicas apply the log at their own pace, crash, take snapshots and restore them.
  A run is a sequence of step choices; a step that is not enabled does nothing.
 */
module Gate {
  import opened Wrappers
  import opened Messages
  import opened Fsm
  import Snapshot

  /** Where a signing call stands. */
  datatype Pc =
    | Admitted
    | Reserving(pid: nat)
    | Reserved(signBytes: SignBytes, ts: Time)
    | Signed(signBytes: SignBytes, sig: Signature, ts: Time)
    | Committing(pid: nat, signBytes: SignBytes, sig: Signature, ts: Time)
    | Gated(sig: Signature, ts: Time)
    | Extended(sig: Signature, ts: Time, ext: Signature)
    | Released(sig: Signature, ts: Time, ext: Signature)
    | Failed

  datatype Call = Call(replica: nat, request: Request, pc: Pc)

  /** A replica's state machine, how much of the log it applied, and the answers it can still give. */
  datatype Replica = Replica(fsm: FsmState, applied: nat, replies: map<nat, Response>)

  datatype Stored = Stored(file: Snapshot.File, index: nat)

  /** One canonical signature made by the key backend. */
  datatype Signing = Signing(call: nat, chain: string, mark: Hrs, signBytes: SignBytes, sig: Signature)

  /** One vote-extension signature: the canonical result it follows and the length the log then had. */
  datatype ExtensionSigning = ExtensionSigning(
    call: nat, extensionBytes: ExtensionBytes, sig: Signature, ts: Time, logLength: nat)

  datatype Cluster = Cluster(
    log: seq<Command>,
    origin: seq<nat>,                  // which proposal each log entry came from
    proposals: seq<Command>,           // every command ever submitted
    replicas: seq<Replica>,
    snapshots: seq<Stored>,
    calls: seq<Call>,
    signed: seq<Signing>,              // history of canonical backend signatures
    extended: seq<ExtensionSigning>,   // history of extension signatures
    identities: seq<string>)           // history of cluster IDs returned

  datatype Step =
    | Begin(replica: nat, request: Request)
    | SubmitReserve(call: nat)
    | ReserveReply(call: nat, index: nat)
    | BackendSign(call: nat)
    | SubmitCommit(call: nat)
    | CommitReply(call: nat, index: nat)
    | SignExtension(call: nat)
    | Release(call: nat)
    | Fail(call: nat)
    | Append(pid: nat)
    | ApplyNext(replica: nat)
    | TakeSnapshot(replica: nat)
    | InstallSnapshot(replica: nat, stored: nat)
    | Crash(replica: nat)
    | ProposeIdentity(id: string)
    | IdentityReply(replica: nat, index: nat)
    | ReadIdentity(replica: nat)

  const BLANK := Replica(EMPTY, 0, map[])

  function Init(n: nat): Cluster {
    Cluster([], [], [], seq(n, _ => BLANK), [], [], [], [], [])
  }

  predicate Over(pc: Pc) { pc.Released? || pc.Failed? }

  /** The bytes the signer hands to the backend for an answer that is not a refusal. */
  function BytesToSign(r: Response): SignBytes {
    if r.Proceed? then r.signBytes else Junk([])
  }

  function AnswerTime(r: Response): Time {
    if r.Proceed? || r.Reuse? then r.timestamp else 0
  }

  function AfterReserve(r: Response): Pc {
    if r.Refused? then Failed
    else if r.Reuse? && |r.signature| > 0 then Gated(r.signature, r.timestamp)
    else Reserved(BytesToSign(r), AnswerTime(r))
  }

  predicate WantsExtension(req: Request) {
    req.VoteRequest? && NonNilPrecommit(req.vote)
  }

  /** The answer replica-side delivery needs: the entry is this proposal's and the replica applied it. */
  predicate Answered(s: Cluster, replica: nat, pid: nat, i: nat) {
    && i < |s.log| && i < |s.origin| && s.origin[i] == pid
    && replica < |s.replicas| && i in s.replicas[replica].replies
  }

  function SetPc(s: Cluster, c: nat, pc: Pc): Cluster
    requires c < |s.calls|
  {
    s.(calls := s.calls[c := s.calls[c].(pc := pc)])
  }

  function Propose(s: Cluster, cmd: Command): Cluster {
    s.(proposals := s.proposals + [cmd])
  }

  /** A crash loses the replica's memory and every call it was serving. */
  function Crashed(s: Cluster, r: nat): Cluster
    requires r < |s.replicas|
  {
    s.(replicas := s.replicas[r := BLANK],
       calls := seq(|s.calls|, i requires 0 <= i < |s.calls| =>
         if s.calls[i].replica == r && !Over(s.calls[i].pc) then s.calls[i].(pc := Failed) else s.calls[i]))
  }

  function ApplyAt(s: Cluster, r: nat): Cluster
    requires r < |s.replicas| && s.replicas[r].applied < |s.log|
  {
    var rep := s.replicas[r];
    var (fsm, response) := Apply(rep.fsm, s.log[rep.applied]);
    s.(replicas := s.replicas[r := Replica(fsm, rep.applied + 1, rep.replies[rep.applied := response])])
  }

  function Install(s: Cluster, r: nat, k: nat): Cluster
    requires r < |s.replicas| && k < |s.snapshots|
  {
    match Snapshot.Restored(s.replicas[r].fsm, s.snapshots[k].file)
    case Ok(fsm) => s.(replicas := s.replicas[r := Replica(fsm, s.snapshots[k].index, s.replicas[r].replies)])
    case Err(_) => s
  }

  /** The steps of the signing call itself, in the order the code takes them. */
  function CallStep(sign: Payload -> Signature, s: Cluster, step: Step): Cluster
    requires step.SubmitReserve? || step.ReserveReply? || step.BackendSign? || step.SubmitCommit?
          || step.CommitReply? || step.SignExtension? || step.Release? || step.Fail?
    requires step.call < |s.calls| && Admit(s.calls[step.call].request).Some?
  {
    var c := step.call;
    var pc := s.calls[c].pc;
    var ask := Admit(s.calls[c].request).value;
    match step
    case SubmitReserve(_) =>
      if !pc.Admitted? then s
      else SetPc(Propose(s, Reserve(ask.chain, ask.mark, ask.signBytes, ask.ts)), c, Reserving(|s.proposals|))
    case ReserveReply(_, i) =>
      if !(pc.Reserving? && Answered(s, s.calls[c].replica, pc.pid, i)) then s
      else SetPc(s, c, AfterReserve(s.replicas[s.calls[c].replica].replies[i]))
    case BackendSign(_) =>
      if !pc.Reserved? then s
      else
        var sig := sign(Canonical(pc.signBytes));
        SetPc(s, c, Signed(pc.signBytes, sig, pc.ts))
          .(signed := s.signed + [Signing(c, ask.chain, ask.mark, pc.signBytes, sig)])
    case SubmitCommit(_) =>
      if !pc.Signed? then s
      else SetPc(Propose(s, Commit(ask.chain, ask.mark, pc.signBytes, pc.sig)), c,
                 Committing(|s.proposals|, pc.signBytes, pc.sig, pc.ts))
    case CommitReply(_, i) =>
      if !(pc.Committing? && Answered(s, s.calls[c].replica, pc.pid, i)) then s
      else if s.replicas[s.calls[c].replica].replies[i].Refused? then SetPc(s, c, Failed)
      else SetPc(s, c, Gated(pc.sig, pc.ts))
    case SignExtension(_) =>
      if !(pc.Gated? && WantsExtension(s.calls[c].request)) then s
      else
        var bytes := VoteExtensionSignBytes(s.calls[c].request.chain, s.calls[c].request.vote);
        SetPc(s, c, Extended(pc.sig, pc.ts, sign(Extension(bytes))))
          .(extended := s.extended + [ExtensionSigning(c, bytes, pc.sig, pc.ts, |s.log|)])
    case Release(_) =>
      if pc.Extended? then SetPc(s, c, Released(pc.sig, pc.ts, pc.ext))
      else if pc.Gated? && !WantsExtension(s.calls[c].request) then SetPc(s, c, Released(pc.sig, pc.ts, []))
      else s
    case Fail(_) =>
      if Over(pc) then s else SetPc(s, c, Failed)
  }

  predicate IsCallStep(step: Step) {
    step.SubmitReserve? || step.ReserveReply? || step.BackendSign? || step.SubmitCommit?
    || step.CommitReply? || step.SignExtension? || step.Release? || step.Fail?
  }

  function Exec(sign: Payload -> Signature, s: Cluster, step: Step): Cluster {
    if IsCallStep(step) then
      if step.call < |s.calls| && Admit(s.calls[step.call].request).Some? then CallStep(sign, s, step) else s
    else match step
      case Begin(r, req) =>
        if r >= |s.replicas| then s
        else s.(calls := s.calls + [Call(r, req, if Admit(req).Some? then Admitted else Failed)])
      case Append(pid) =>
        if pid >= |s.proposals| then s else s.(log := s.log + [s.proposals[pid]], origin := s.origin + [pid])
      case ApplyNext(r) =>
        if r < |s.replicas| && s.replicas[r].applied < |s.log| then ApplyAt(s, r) else s
      case TakeSnapshot(r) =>
        if r >= |s.replicas| then s
        else s.(snapshots := s.snapshots + [Stored(Snapshot.Take(s.replicas[r].fsm), s.replicas[r].applied)])
      case InstallSnapshot(r, k) =>
        if r < |s.replicas| && k < |s.snapshots| then Install(s, r, k) else s
      case Crash(r) =>
        if r < |s.replicas| then Crashed(s, r) else s
      case ProposeIdentity(id) => Propose(s, InitCluster(id))
      case IdentityReply(r, i) =>
        if r < |s.replicas| && i in s.replicas[r].replies && s.replicas[r].replies[i].Identity?
        then s.(identities := s.identities + [s.replicas[r].replies[i].clusterId]) else s
      case ReadIdentity(r) =>
        if r < |s.replicas| && s.replicas[r].fsm.clusterId != ""
        then s.(identities := s.identities + [s.replicas[r].fsm.clusterId]) else s
      case _ => s
  }

  /** The state after a whole run of step choices over n replicas. */
  function Run(sign: Payload -> Signature, n: nat, steps: seq<Step>): Cluster {
    if steps == [] then Init(n)
    else Exec(sign, Run(sign, n, steps[..|steps| - 1]), steps[|steps| - 1])
  }

  /** The message a released call hands back to the node. */
  function Message(call: Call): Request
    requires call.pc.Released?
  {
    Stamp(call.request, call.pc.ts, call.pc.sig, call.pc.ext)
  }

  /** How many extension signatures one call made. */
  function ExtensionCount(ext: seq<ExtensionSigning>, c: nat): nat {
    if ext == [] then 0
    else ExtensionCount(ext[..|ext| - 1], c) + if ext[|ext| - 1].call == c then 1 else 0
  }
}
