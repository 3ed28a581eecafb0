/** The inductive invariant of the gate and its preservation by every step. */
module GateInvariant {
  import opened Wrappers
  import opened Messages
  import opened Fsm
  import opened Gate
  import Snapshot

  // ---------------------------------------------------------------- what the log holds

  /** After i entries the chain's mark is m and its bytes are b. */
  predicate HeldAt(log: seq<Command>, i: nat, chain: string, m: Hrs, b: SignBytes)
    requires i <= |log|
  {
    var st := Get(Replay(log[..i]), chain);
    st.Some? && st.value.mark == m && st.value.signBytes == b
  }

  /** At some point of the log the mark m of the chain held the bytes b. */
  ghost predicate Held(log: seq<Command>, chain: string, m: Hrs, b: SignBytes) {
    exists i: nat :: i <= |log| && HeldAt(log, i, chain, m, b)
  }

  /** At some point of the log these bytes also had this signature. */
  ghost predicate SignatureHeld(log: seq<Command>, chain: string, m: Hrs, b: SignBytes, sig: Signature) {
    exists i: nat :: i <= |log| && HeldAt(log, i, chain, m, b) && Replay(log[..i]).marks[chain].signature == sig
  }

  /** One mark never holds two byte strings. */
  lemma HeldIsUnique(log: seq<Command>, chain: string, m: Hrs, b1: SignBytes, b2: SignBytes)
    requires Held(log, chain, m, b1) && Held(log, chain, m, b2)
    ensures b1 == b2
  {
    var i: nat :| i <= |log| && HeldAt(log, i, chain, m, b1);
    var j: nat :| j <= |log| && HeldAt(log, j, chain, m, b2);
    MarkNeverRegresses(log, if i < j then i else j, if i < j then j else i, chain);
  }

  lemma HeldAtExtends(log: seq<Command>, c: Command, i: nat, chain: string, m: Hrs, b: SignBytes)
    requires i <= |log|
    ensures (log + [c])[..i] == log[..i]
    ensures HeldAt(log + [c], i, chain, m, b) == HeldAt(log, i, chain, m, b)
  {
    assert (log + [c])[..i] == log[..i];
  }

  lemma HeldExtends(log: seq<Command>, c: Command, chain: string, m: Hrs, b: SignBytes)
    requires Held(log, chain, m, b)
    ensures Held(log + [c], chain, m, b)
  {
    var i: nat :| i <= |log| && HeldAt(log, i, chain, m, b);
    HeldAtExtends(log, c, i, chain, m, b);
  }

  lemma SignatureHeldExtends(log: seq<Command>, c: Command, chain: string, m: Hrs, b: SignBytes, sig: Signature)
    requires SignatureHeld(log, chain, m, b, sig)
    ensures SignatureHeld(log + [c], chain, m, b, sig)
  {
    var i: nat :| i <= |log| && HeldAt(log, i, chain, m, b) && Replay(log[..i]).marks[chain].signature == sig;
    HeldAtExtends(log, c, i, chain, m, b);
  }

  // ---------------------------------------------------------------- honest commands

  /** Reservations carry the timestamp of their bytes; commits carry the key's signature of theirs. */
  predicate Honest(sign: Payload -> Signature, c: Command) {
    && (c.Reserve? ==> WellTimed(c.signBytes, c.mark.step, c.timestamp))
    && (c.Commit? ==> c.signature == sign(Canonical(c.signBytes)))
  }

  predicate StateOk(sign: Payload -> Signature, s: FsmState) {
    forall chain :: chain in s.marks ==> EntryOk(sign, s.marks[chain])
  }

  predicate EntryOk(sign: Payload -> Signature, st: SignState) {
    && WellTimed(st.signBytes, st.mark.step, st.timestamp)
    && (st.signature == [] || st.signature == sign(Canonical(st.signBytes)))
  }

  ghost predicate AllHonest(sign: Payload -> Signature, cmds: seq<Command>) {
    forall i :: 0 <= i < |cmds| ==> Honest(sign, cmds[i])
  }

  lemma {:induction false} ReplayOk(sign: Payload -> Signature, log: seq<Command>)
    requires AllHonest(sign, log)
    ensures StateOk(sign, Replay(log))
  {
    if log != [] {
      ReplayOk(sign, log[..|log| - 1]);
      assert Honest(sign, log[|log| - 1]);
    }
  }

  /** What an answered reservation means, whatever the state was. */
  lemma ReserveAnswer(sign: Payload -> Signature, s: FsmState, c: Command)
    requires StateOk(sign, s) && c.Reserve? && Honest(sign, c)
    ensures var (t, r) := Apply(s, c);
      && (r.Proceed? || r.Reuse? || r.Refused?)
      && (!r.Refused? ==>
            && Get(t, c.chain).Some?
            && var st := t.marks[c.chain];
               && st.mark == c.mark
               && st.signBytes == AtTime(c.signBytes, r.timestamp)
               && WellTimed(st.signBytes, c.mark.step, r.timestamp)
               && (r.Proceed? ==> r.signBytes == st.signBytes)
               && (r.Reuse? ==> r.signature == st.signature == sign(Canonical(st.signBytes)) && |r.signature| > 0))
  {
  }

  /** What an answered commit means. */
  lemma CommitAnswer(sign: Payload -> Signature, s: FsmState, c: Command)
    requires StateOk(sign, s) && c.Commit? && Honest(sign, c)
    ensures var (t, r) := Apply(s, c);
      && (r.Committed? || r.Refused?)
      && (r.Committed? ==>
            && Get(t, c.chain).Some?
            && var st := t.marks[c.chain];
               st.mark == c.mark && st.signBytes == c.signBytes && st.signature == c.signature)
  {
  }

  // ---------------------------------------------------------------- the invariant

  predicate LogOk(log: seq<Command>, origin: seq<nat>, proposals: seq<Command>) {
    && |origin| == |log|
    && forall i :: 0 <= i < |log| ==> origin[i] < |proposals| && log[i] == proposals[origin[i]]
  }

  predicate ReplicaOk(log: seq<Command>, r: Replica) {
    && r.applied <= |log|
    && r.fsm == Replay(log[..r.applied])
    && forall i :: i in r.replies ==> i < |log| && r.replies[i] == ResponseAt(log, i)
  }

  predicate StoredOk(log: seq<Command>, f: Stored) {
    f.index <= |log| && f.file == Snapshot.Take(Replay(log[..f.index]))
  }

  /** The bytes a call works on are the caller's own at the stamped time, and the log holds them. */
  ghost predicate WorksOn(log: seq<Command>, ask: Ask, b: SignBytes, ts: Time) {
    b == AtTime(ask.signBytes, ts) && Held(log, ask.chain, ask.mark, b)
  }

  /** The canonical signature is the key's, over the caller's message at ts, and is committed. */
  ghost predicate Delivers(sign: Payload -> Signature, log: seq<Command>, ask: Ask, sig: Signature, ts: Time) {
    var b := AtTime(ask.signBytes, ts);
    sig == sign(Canonical(b)) && SignatureHeld(log, ask.chain, ask.mark, b, sig)
  }

  ghost predicate CallOk(sign: Payload -> Signature, log: seq<Command>, proposals: seq<Command>, call: Call) {
    var ask := Admit(call.request);
    match call.pc
    case Failed => true
    case Admitted => ask.Some?
    case Reserving(pid) =>
      && ask.Some? && pid < |proposals|
      && proposals[pid] == Reserve(ask.value.chain, ask.value.mark, ask.value.signBytes, ask.value.ts)
    case Reserved(b, ts) => ask.Some? && WorksOn(log, ask.value, b, ts)
    case Signed(b, sig, ts) =>
      ask.Some? && WorksOn(log, ask.value, b, ts) && sig == sign(Canonical(b))
    case Committing(pid, b, sig, ts) =>
      && ask.Some? && WorksOn(log, ask.value, b, ts) && sig == sign(Canonical(b))
      && pid < |proposals| && proposals[pid] == Commit(ask.value.chain, ask.value.mark, b, sig)
    case Gated(sig, ts) => ask.Some? && Delivers(sign, log, ask.value, sig, ts)
    case Extended(sig, ts, ext) =>
      && ask.Some? && Delivers(sign, log, ask.value, sig, ts) && WantsExtension(call.request)
      && ext == sign(Extension(VoteExtensionSignBytes(call.request.chain, call.request.vote)))
    case Released(sig, ts, ext) =>
      && ask.Some? && Delivers(sign, log, ask.value, sig, ts)
      && ext == if WantsExtension(call.request)
                then sign(Extension(VoteExtensionSignBytes(call.request.chain, call.request.vote))) else []
  }

  ghost predicate SigningOk(sign: Payload -> Signature, log: seq<Command>, g: Signing) {
    g.sig == sign(Canonical(g.signBytes)) && Held(log, g.chain, g.mark, g.signBytes)
  }

  /** An extension was signed for a non-nil precommit whose canonical signature the log already held. */
  ghost predicate ExtensionOk(sign: Payload -> Signature, log: seq<Command>, calls: seq<Call>, x: ExtensionSigning) {
    && x.call < |calls| && x.logLength <= |log|
    && WantsExtension(calls[x.call].request) && Admit(calls[x.call].request).Some?
    && x.extensionBytes == VoteExtensionSignBytes(calls[x.call].request.chain, calls[x.call].request.vote)
    && Delivers(sign, log[..x.logLength], Admit(calls[x.call].request).value, x.sig, x.ts)
  }

  ghost predicate CountOk(ext: seq<ExtensionSigning>, c: nat, call: Call) {
    match call.pc
    case Extended(_, _, _) => ExtensionCount(ext, c) == 1
    case Released(_, _, _) => ExtensionCount(ext, c) == if WantsExtension(call.request) then 1 else 0
    case Failed => ExtensionCount(ext, c) <= 1
    case _ => ExtensionCount(ext, c) == 0
  }

  predicate ReplicasOk(log: seq<Command>, replicas: seq<Replica>) {
    forall r :: 0 <= r < |replicas| ==> ReplicaOk(log, replicas[r])
  }

  predicate SnapshotsOk(log: seq<Command>, snapshots: seq<Stored>) {
    forall k :: 0 <= k < |snapshots| ==> StoredOk(log, snapshots[k])
  }

  ghost predicate CallsOk(sign: Payload -> Signature, log: seq<Command>, proposals: seq<Command>, calls: seq<Call>) {
    forall c :: 0 <= c < |calls| ==> CallOk(sign, log, proposals, calls[c])
  }

  ghost predicate SigningsOk(sign: Payload -> Signature, log: seq<Command>, signed: seq<Signing>) {
    forall g :: 0 <= g < |signed| ==> SigningOk(sign, log, signed[g])
  }

  ghost predicate ExtensionsOk(
    sign: Payload -> Signature, log: seq<Command>, calls: seq<Call>, ext: seq<ExtensionSigning>)
  {
    forall x :: 0 <= x < |ext| ==> ExtensionOk(sign, log, calls, ext[x])
  }

  ghost predicate CountsOk(ext: seq<ExtensionSigning>, calls: seq<Call>) {
    forall c :: 0 <= c < |calls| ==> CountOk(ext, c, calls[c])
  }

  predicate IdentitiesOk(log: seq<Command>, ids: seq<string>) {
    forall k :: 0 <= k < |ids| ==> ids[k] != "" && ids[k] == FirstIdentity(log)
  }

  ghost predicate Inv(sign: Payload -> Signature, s: Cluster) {
    && LogOk(s.log, s.origin, s.proposals)
    && AllHonest(sign, s.proposals)
    && ReplicasOk(s.log, s.replicas)
    && SnapshotsOk(s.log, s.snapshots)
    && CallsOk(sign, s.log, s.proposals, s.calls)
    && SigningsOk(sign, s.log, s.signed)
    && ExtensionsOk(sign, s.log, s.calls, s.extended)
    && CountsOk(s.extended, s.calls)
    && IdentitiesOk(s.log, s.identities)
  }

  // ---------------------------------------------------------------- growing logs and proposals

  lemma ReplicaExtends(log: seq<Command>, c: Command, r: Replica)
    requires ReplicaOk(log, r)
    ensures ReplicaOk(log + [c], r)
  {
    assert (log + [c])[..r.applied] == log[..r.applied];
    forall i | i in r.replies ensures r.replies[i] == ResponseAt(log + [c], i) {
      assert (log + [c])[..i] == log[..i];
    }
  }

  lemma CallExtends(sign: Payload -> Signature, log: seq<Command>, c: Command, proposals: seq<Command>, call: Call)
    requires CallOk(sign, log, proposals, call)
    ensures CallOk(sign, log + [c], proposals, call)
  {
    if Admit(call.request).Some? {
      var ask := Admit(call.request).value;
      match call.pc
      case Reserved(b, ts) => HeldExtends(log, c, ask.chain, ask.mark, b);
      case Signed(b, sig, ts) => HeldExtends(log, c, ask.chain, ask.mark, b);
      case Committing(pid, b, sig, ts) => HeldExtends(log, c, ask.chain, ask.mark, b);
      case Gated(sig, ts) => SignatureHeldExtends(log, c, ask.chain, ask.mark, AtTime(ask.signBytes, ts), sig);
      case Extended(sig, ts, _) => SignatureHeldExtends(log, c, ask.chain, ask.mark, AtTime(ask.signBytes, ts), sig);
      case Released(sig, ts, _) => SignatureHeldExtends(log, c, ask.chain, ask.mark, AtTime(ask.signBytes, ts), sig);
      case _ =>
    }
  }

  lemma ProposalsExtend(sign: Payload -> Signature, log: seq<Command>, proposals: seq<Command>, p: Command, call: Call)
    requires CallOk(sign, log, proposals, call)
    ensures CallOk(sign, log, proposals + [p], call)
  {
  }

  lemma AppendKeepsInv(sign: Payload -> Signature, s: Cluster, pid: nat)
    requires Inv(sign, s) && pid < |s.proposals|
    ensures Inv(sign, Exec(sign, s, Append(pid)))
  {
    var t := Exec(sign, s, Append(pid));
    var c := s.proposals[pid];
    forall r | 0 <= r < |t.replicas| ensures ReplicaOk(t.log, t.replicas[r]) {
      ReplicaExtends(s.log, c, s.replicas[r]);
    }
    forall k | 0 <= k < |t.snapshots| ensures StoredOk(t.log, t.snapshots[k]) {
      assert t.log[..s.snapshots[k].index] == s.log[..s.snapshots[k].index];
    }
    forall i | 0 <= i < |t.calls| ensures CallOk(sign, t.log, t.proposals, t.calls[i]) {
      CallExtends(sign, s.log, c, s.proposals, s.calls[i]);
    }
    forall g | 0 <= g < |t.signed| ensures SigningOk(sign, t.log, t.signed[g]) {
      HeldExtends(s.log, c, s.signed[g].chain, s.signed[g].mark, s.signed[g].signBytes);
    }
    forall x | 0 <= x < |t.extended| ensures ExtensionOk(sign, t.log, t.calls, t.extended[x]) {
      assert t.log[..s.extended[x].logLength] == s.log[..s.extended[x].logLength];
    }
    IdentityIsStable(t.log, |s.log|);
    assert t.log[..|s.log|] == s.log;
  }

  // ---------------------------------------------------------------- replicas

  lemma HonestLog(sign: Payload -> Signature, s: Cluster, i: nat)
    requires LogOk(s.log, s.origin, s.proposals) && AllHonest(sign, s.proposals) && i <= |s.log|
    ensures StateOk(sign, Replay(s.log[..i]))
    ensures i < |s.log| ==> Honest(sign, s.log[i])
  {
    forall k | 0 <= k < |s.log| ensures Honest(sign, s.log[k]) {
      assert s.log[k] == s.proposals[s.origin[k]];
    }
    ReplayOk(sign, s.log[..i]);
  }

  /** Replacing one replica by one that agrees with the log keeps the invariant. */
  lemma ReplicaKeepsInv(sign: Payload -> Signature, s: Cluster, r: nat, rep: Replica)
    requires Inv(sign, s) && r < |s.replicas| && ReplicaOk(s.log, rep)
    ensures Inv(sign, s.(replicas := s.replicas[r := rep]))
  {
  }

  lemma ApplyNextKeepsInv(sign: Payload -> Signature, s: Cluster, r: nat)
    requires Inv(sign, s) && r < |s.replicas| && s.replicas[r].applied < |s.log|
    ensures Inv(sign, ApplyAt(s, r))
  {
    var rep := s.replicas[r];
    assert ReplicaOk(s.log, rep);
    ReplayStep(s.log, rep.applied);
    var (fsm, response) := Apply(rep.fsm, s.log[rep.applied]);
    assert response == ResponseAt(s.log, rep.applied);
    ReplicaKeepsInv(sign, s, r, Replica(fsm, rep.applied + 1, rep.replies[rep.applied := response]));
  }

  lemma InstallKeepsInv(sign: Payload -> Signature, s: Cluster, r: nat, k: nat)
    requires Inv(sign, s) && r < |s.replicas| && k < |s.snapshots|
    ensures Inv(sign, Install(s, r, k))
  {
    var stored := s.snapshots[k];
    assert ReplicaOk(s.log, s.replicas[r]) && StoredOk(s.log, stored);
    ReplayIdentity(s.log[..stored.index]);
    Snapshot.RestoreAccepts(s.replicas[r].fsm, Replay(s.log[..stored.index]));
    ReplicaKeepsInv(sign, s, r, Replica(Replay(s.log[..stored.index]), stored.index, s.replicas[r].replies));
  }

  lemma TakeKeepsInv(sign: Payload -> Signature, s: Cluster, r: nat)
    requires Inv(sign, s) && r < |s.replicas|
    ensures Inv(sign, Exec(sign, s, TakeSnapshot(r)))
  {
    assert ReplicaOk(s.log, s.replicas[r]);
  }

  lemma CrashKeepsInv(sign: Payload -> Signature, s: Cluster, r: nat)
    requires Inv(sign, s) && r < |s.replicas|
    ensures Inv(sign, Crashed(s, r))
  {
    var t := Crashed(s, r);
    assert s.log[..0] == [];
    forall c | 0 <= c < |t.calls|
      ensures CallOk(sign, t.log, t.proposals, t.calls[c]) && CountOk(t.extended, c, t.calls[c])
      ensures t.calls[c].request == s.calls[c].request
    {
      assert CallOk(sign, s.log, s.proposals, s.calls[c]) && CountOk(s.extended, c, s.calls[c]);
    }
    forall x | 0 <= x < |t.extended| ensures ExtensionOk(sign, t.log, t.calls, t.extended[x]) {
      assert ExtensionOk(sign, s.log, s.calls, s.extended[x]);
    }
  }

  /** Both ways of learning the identity give the log's. */
  lemma IdentityKnown(log: seq<Command>, i: nat)
    requires i <= |log|
    ensures Replay(log[..i]).clusterId != "" ==> Replay(log[..i]).clusterId == FirstIdentity(log)
    ensures i < |log| && ResponseAt(log, i).Identity? ==>
      ResponseAt(log, i).clusterId != "" && ResponseAt(log, i).clusterId == FirstIdentity(log)
  {
    ReplayIdentity(log[..i]);
    IdentityIsStable(log, i);
    if i < |log| && ResponseAt(log, i).Identity? {
      IdentityAnswer(Replay(log[..i]), log[i]);
      ReplayStep(log, i);
      ReplayIdentity(log[..i + 1]);
      IdentityIsStable(log, i + 1);
    }
  }

  lemma IdentityStepKeepsInv(sign: Payload -> Signature, s: Cluster, step: Step)
    requires Inv(sign, s)
    requires step.IdentityReply? || step.ReadIdentity?
    ensures Inv(sign, Exec(sign, s, step))
  {
    if step.replica < |s.replicas| {
      var rep := s.replicas[step.replica];
      assert ReplicaOk(s.log, rep);
      IdentityKnown(s.log, rep.applied);
      if step.IdentityReply? && step.index in rep.replies {
        IdentityKnown(s.log, step.index);
      }
    }
  }

  lemma ProposeKeepsCalls(sign: Payload -> Signature, s: Cluster, cmd: Command)
    requires Inv(sign, s) && Honest(sign, cmd)
    ensures Inv(sign, Propose(s, cmd))
  {
    var t := Propose(s, cmd);
    forall c | 0 <= c < |t.calls| ensures CallOk(sign, t.log, t.proposals, t.calls[c]) {
      ProposalsExtend(sign, s.log, s.proposals, cmd, s.calls[c]);
    }
  }

  // ---------------------------------------------------------------- the signing call

  /** Moving one call to a justified place keeps the invariant, if the histories are unchanged. */
  lemma SetPcKeepsInv(sign: Payload -> Signature, s: Cluster, c: nat, pc: Pc)
    requires Inv(sign, s) && c < |s.calls|
    requires CallOk(sign, s.log, s.proposals, s.calls[c].(pc := pc))
    requires CountOk(s.extended, c, s.calls[c].(pc := pc))
    ensures Inv(sign, SetPc(s, c, pc))
  {
    var t := SetPc(s, c, pc);
    assert forall i :: 0 <= i < |t.calls| ==> t.calls[i].request == s.calls[i].request;
    forall x | 0 <= x < |t.extended| ensures ExtensionOk(sign, t.log, t.calls, t.extended[x]) {
      assert ExtensionOk(sign, s.log, s.calls, s.extended[x]);
    }
  }

  lemma AskIsHonest(sign: Payload -> Signature, req: Request)
    requires Admit(req).Some?
    ensures var a := Admit(req).value; Honest(sign, Reserve(a.chain, a.mark, a.signBytes, a.ts))
  {
  }

  lemma SubmitKeepsInv(sign: Payload -> Signature, s: Cluster, step: Step)
    requires Inv(sign, s) && (step.SubmitReserve? || step.SubmitCommit?)
    ensures Inv(sign, Exec(sign, s, step))
  {
    var c := step.call;
    if c < |s.calls| && Admit(s.calls[c].request).Some? {
      var call := s.calls[c];
      var ask := Admit(call.request).value;
      assert CallOk(sign, s.log, s.proposals, call) && CountOk(s.extended, c, call);
      if step.SubmitReserve? && call.pc.Admitted? {
        AskIsHonest(sign, call.request);
        var cmd := Reserve(ask.chain, ask.mark, ask.signBytes, ask.ts);
        ProposeKeepsCalls(sign, s, cmd);
        SetPcKeepsInv(sign, Propose(s, cmd), c, Reserving(|s.proposals|));
      } else if step.SubmitCommit? && call.pc.Signed? {
        var cmd := Commit(ask.chain, ask.mark, call.pc.signBytes, call.pc.sig);
        ProposeKeepsCalls(sign, s, cmd);
        SetPcKeepsInv(sign, Propose(s, cmd), c, Committing(|s.proposals|, call.pc.signBytes, call.pc.sig, call.pc.ts));
      }
    }
  }

  /** An answered entry was answered as the log answers it, from an honest state. */
  lemma AnsweredMeans(sign: Payload -> Signature, s: Cluster, r: nat, pid: nat, i: nat)
    requires Inv(sign, s) && Answered(s, r, pid, i)
    ensures pid < |s.proposals| && s.log[i] == s.proposals[pid] && Honest(sign, s.log[i])
    ensures StateOk(sign, Replay(s.log[..i]))
    ensures s.replicas[r].replies[i] == Apply(Replay(s.log[..i]), s.log[i]).1
    ensures Replay(s.log[..i + 1]) == Apply(Replay(s.log[..i]), s.log[i]).0
  {
    assert ReplicaOk(s.log, s.replicas[r]);
    HonestLog(sign, s, i);
    ReplayStep(s.log, i);
  }

  lemma ReserveReplyKeepsInv(sign: Payload -> Signature, s: Cluster, c: nat, i: nat)
    requires Inv(sign, s) && c < |s.calls| && s.calls[c].pc.Reserving?
    requires Answered(s, s.calls[c].replica, s.calls[c].pc.pid, i)
    ensures Inv(sign, SetPc(s, c, AfterReserve(s.replicas[s.calls[c].replica].replies[i])))
  {
    var call := s.calls[c];
    var r := s.replicas[call.replica].replies[i];
    assert CallOk(sign, s.log, s.proposals, call) && CountOk(s.extended, c, call);
    AnsweredMeans(sign, s, call.replica, call.pc.pid, i);
    var ask := Admit(call.request).value;
    ReserveAnswer(sign, Replay(s.log[..i]), s.log[i]);
    if !r.Refused? {
      assert HeldAt(s.log, i + 1, ask.chain, ask.mark, AtTime(ask.signBytes, r.timestamp));
      assert CallOk(sign, s.log, s.proposals, call.(pc := AfterReserve(r)));
    }
    SetPcKeepsInv(sign, s, c, AfterReserve(r));
  }

  lemma CommitReplyKeepsInv(sign: Payload -> Signature, s: Cluster, c: nat, i: nat)
    requires Inv(sign, s) && c < |s.calls| && s.calls[c].pc.Committing?
    requires Answered(s, s.calls[c].replica, s.calls[c].pc.pid, i)
    requires !s.replicas[s.calls[c].replica].replies[i].Refused?
    ensures Inv(sign, SetPc(s, c, Gated(s.calls[c].pc.sig, s.calls[c].pc.ts)))
  {
    var call := s.calls[c];
    assert CallOk(sign, s.log, s.proposals, call) && CountOk(s.extended, c, call);
    AnsweredMeans(sign, s, call.replica, call.pc.pid, i);
    var ask := Admit(call.request).value;
    CommitAnswer(sign, Replay(s.log[..i]), s.log[i]);
    assert HeldAt(s.log, i + 1, ask.chain, ask.mark, call.pc.signBytes);
    SetPcKeepsInv(sign, s, c, Gated(call.pc.sig, call.pc.ts));
  }

  lemma BackendSignKeepsInv(sign: Payload -> Signature, s: Cluster, c: nat)
    requires Inv(sign, s)
    ensures Inv(sign, Exec(sign, s, BackendSign(c)))
  {
    if c < |s.calls| && Admit(s.calls[c].request).Some? && s.calls[c].pc.Reserved? {
      var call := s.calls[c];
      assert CallOk(sign, s.log, s.proposals, call) && CountOk(s.extended, c, call);
      var sig := sign(Canonical(call.pc.signBytes));
      SetPcKeepsInv(sign, s, c, Signed(call.pc.signBytes, sig, call.pc.ts));
      var ask := Admit(call.request).value;
      SigningKeepsInv(sign, SetPc(s, c, Signed(call.pc.signBytes, sig, call.pc.ts)),
        Signing(c, ask.chain, ask.mark, call.pc.signBytes, sig));
    }
  }

  /** One more backend signature over bytes the log holds. */
  lemma SigningKeepsInv(sign: Payload -> Signature, s: Cluster, g: Signing)
    requires Inv(sign, s) && SigningOk(sign, s.log, g)
    ensures Inv(sign, s.(signed := s.signed + [g]))
  {
  }

  lemma CountGrows(ext: seq<ExtensionSigning>, x: ExtensionSigning, c: nat)
    ensures ExtensionCount(ext + [x], c) == ExtensionCount(ext, c) + if x.call == c then 1 else 0
  {
    assert (ext + [x])[..|ext|] == ext;
  }

  /** The extension history grows by one honest entry and its call moves on. */
  lemma ExtensionsGrow(sign: Payload -> Signature, s: Cluster, t: Cluster, c: nat, x: ExtensionSigning)
    requires Inv(sign, s) && c < |s.calls| && s.calls[c].pc.Gated?
    requires c < |t.calls| && t.calls == s.calls[c := t.calls[c]]
    requires t.calls[c].request == s.calls[c].request && t.calls[c].pc.Extended?
    requires t.extended == s.extended + [x] && x.call == c && t.log == s.log
    requires ExtensionOk(sign, s.log, s.calls, x)
    ensures CountsOk(t.extended, t.calls)
    ensures ExtensionsOk(sign, t.log, t.calls, t.extended)
  {
    forall i | 0 <= i < |t.calls| ensures CountOk(t.extended, i, t.calls[i]) {
      CountGrows(s.extended, x, i);
      assert CountOk(s.extended, i, s.calls[i]);
    }
    forall i | 0 <= i < |t.extended| ensures ExtensionOk(sign, t.log, t.calls, t.extended[i]) {
      if i < |s.extended| {
        assert ExtensionOk(sign, s.log, s.calls, s.extended[i]);
        assert t.calls[s.extended[i].call].request == s.calls[s.extended[i].call].request;
      }
    }
  }

  lemma ExtendedKeepsInv(sign: Payload -> Signature, s: Cluster, c: nat, moved: Call, x: ExtensionSigning)
    requires Inv(sign, s) && c < |s.calls| && s.calls[c].pc.Gated?
    requires moved.request == s.calls[c].request && moved.pc.Extended? && CallOk(sign, s.log, s.proposals, moved)
    requires x.call == c && ExtensionOk(sign, s.log, s.calls, x)
    ensures Inv(sign, s.(calls := s.calls[c := moved], extended := s.extended + [x]))
  {
    var t := s.(calls := s.calls[c := moved], extended := s.extended + [x]);
    ExtensionsGrow(sign, s, t, c, x);
  }

  lemma SignExtensionKeepsInv(sign: Payload -> Signature, s: Cluster, c: nat)
    requires Inv(sign, s)
    ensures Inv(sign, Exec(sign, s, SignExtension(c)))
  {
    if c < |s.calls| && Admit(s.calls[c].request).Some? && s.calls[c].pc.Gated? && WantsExtension(s.calls[c].request) {
      var call := s.calls[c];
      var bytes := VoteExtensionSignBytes(call.request.chain, call.request.vote);
      assert CallOk(sign, s.log, s.proposals, call);
      assert s.log[..|s.log|] == s.log;
      SignExtensionStep(sign, s, c);
      ExtendedKeepsInv(sign, s, c,
        call.(pc := Extended(call.pc.sig, call.pc.ts, sign(Extension(bytes)))),
        ExtensionSigning(c, bytes, call.pc.sig, call.pc.ts, |s.log|));
    }
  }

  lemma SignExtensionStep(sign: Payload -> Signature, s: Cluster, c: nat)
    requires c < |s.calls| && Admit(s.calls[c].request).Some?
    requires s.calls[c].pc.Gated? && WantsExtension(s.calls[c].request)
    ensures var call := s.calls[c];
      var bytes := VoteExtensionSignBytes(call.request.chain, call.request.vote);
      Exec(sign, s, SignExtension(c)) == s.(
        calls := s.calls[c := call.(pc := Extended(call.pc.sig, call.pc.ts, sign(Extension(bytes))))],
        extended := s.extended + [ExtensionSigning(c, bytes, call.pc.sig, call.pc.ts, |s.log|)])
  {
  }

  lemma ReplyKeepsInv(sign: Payload -> Signature, s: Cluster, step: Step)
    requires Inv(sign, s) && (step.ReserveReply? || step.CommitReply?)
    ensures Inv(sign, Exec(sign, s, step))
  {
    var c, i := step.call, step.index;
    if c < |s.calls| && Admit(s.calls[c].request).Some? {
      var call := s.calls[c];
      if step.ReserveReply? {
        if call.pc.Reserving? && Answered(s, call.replica, call.pc.pid, i) { ReserveReplyKeepsInv(sign, s, c, i); }
      } else if call.pc.Committing? && Answered(s, call.replica, call.pc.pid, i) {
        if s.replicas[call.replica].replies[i].Refused? { FailKeepsInv(sign, s, c); }
        else { CommitReplyKeepsInv(sign, s, c, i); }
      }
    }
  }

  lemma FailKeepsInv(sign: Payload -> Signature, s: Cluster, c: nat)
    requires Inv(sign, s) && c < |s.calls| && !s.calls[c].pc.Released?
    ensures Inv(sign, SetPc(s, c, Failed))
  {
    assert CountOk(s.extended, c, s.calls[c]);
    SetPcKeepsInv(sign, s, c, Failed);
  }

  lemma ReleaseKeepsInv(sign: Payload -> Signature, s: Cluster, c: nat)
    requires Inv(sign, s) && c < |s.calls|
    ensures s.calls[c].pc.Extended? ==>
      Inv(sign, SetPc(s, c, Released(s.calls[c].pc.sig, s.calls[c].pc.ts, s.calls[c].pc.ext)))
    ensures s.calls[c].pc.Gated? && !WantsExtension(s.calls[c].request) ==>
      Inv(sign, SetPc(s, c, Released(s.calls[c].pc.sig, s.calls[c].pc.ts, [])))
  {
    var call := s.calls[c];
    assert CallOk(sign, s.log, s.proposals, call) && CountOk(s.extended, c, call);
    if call.pc.Extended? {
      SetPcKeepsInv(sign, s, c, Released(call.pc.sig, call.pc.ts, call.pc.ext));
    } else if call.pc.Gated? && !WantsExtension(call.request) {
      SetPcKeepsInv(sign, s, c, Released(call.pc.sig, call.pc.ts, []));
    }
  }

  lemma NoEarlyExtension(sign: Payload -> Signature, s: Cluster)
    requires Inv(sign, s)
    ensures ExtensionCount(s.extended, |s.calls|) == 0
  {
    CountZero(s.extended, |s.calls|);
  }

  lemma {:induction false} CountZero(ext: seq<ExtensionSigning>, c: nat)
    requires forall x :: 0 <= x < |ext| ==> ext[x].call != c
    ensures ExtensionCount(ext, c) == 0
  {
    if ext != [] {
      CountZero(ext[..|ext| - 1], c);
    }
  }

  lemma BeginKeepsInv(sign: Payload -> Signature, s: Cluster, r: nat, req: Request)
    requires Inv(sign, s) && r < |s.replicas|
    ensures Inv(sign, Exec(sign, s, Begin(r, req)))
  {
    BegunKeepsInv(sign, s, Call(r, req, if Admit(req).Some? then Admitted else Failed));
  }

  /** One more call, admitted or refused at once. */
  lemma BegunKeepsInv(sign: Payload -> Signature, s: Cluster, call: Call)
    requires Inv(sign, s) && (call.pc.Failed? || (call.pc.Admitted? && Admit(call.request).Some?))
    ensures Inv(sign, s.(calls := s.calls + [call]))
  {
    NoEarlyExtension(sign, s);
    var t := s.(calls := s.calls + [call]);
    forall c | 0 <= c < |t.calls|
      ensures CallOk(sign, t.log, t.proposals, t.calls[c]) && CountOk(t.extended, c, t.calls[c])
    {
      if c < |s.calls| {
        assert t.calls[c] == s.calls[c];
        assert CallOk(sign, s.log, s.proposals, s.calls[c]) && CountOk(s.extended, c, s.calls[c]);
      }
    }
    forall x | 0 <= x < |t.extended| ensures ExtensionOk(sign, t.log, t.calls, t.extended[x]) {
      assert ExtensionOk(sign, s.log, s.calls, s.extended[x]);
    }
  }

  lemma CallStepKeepsInv(sign: Payload -> Signature, s: Cluster, step: Step)
    requires Inv(sign, s) && IsCallStep(step)
    ensures Inv(sign, Exec(sign, s, step))
  {
    if step.SubmitReserve? || step.SubmitCommit? { SubmitKeepsInv(sign, s, step); }
    else if step.ReserveReply? || step.CommitReply? { ReplyKeepsInv(sign, s, step); }
    else if step.BackendSign? { BackendSignKeepsInv(sign, s, step.call); }
    else if step.SignExtension? { SignExtensionKeepsInv(sign, s, step.call); }
    else { EndKeepsInv(sign, s, step); }
  }

  lemma EndKeepsInv(sign: Payload -> Signature, s: Cluster, step: Step)
    requires Inv(sign, s) && (step.Release? || step.Fail?)
    ensures Inv(sign, Exec(sign, s, step))
  {
    if step.call < |s.calls| && Admit(s.calls[step.call].request).Some? {
      if step.Release? { ReleaseKeepsInv(sign, s, step.call); }
      else if !Over(s.calls[step.call].pc) { FailKeepsInv(sign, s, step.call); }
    }
  }

  lemma ReplicaStepKeepsInv(sign: Payload -> Signature, s: Cluster, step: Step)
    requires Inv(sign, s) && (step.ApplyNext? || step.TakeSnapshot? || step.InstallSnapshot? || step.Crash?)
    ensures Inv(sign, Exec(sign, s, step))
  {
    match step
    case ApplyNext(r) =>
      if r < |s.replicas| && s.replicas[r].applied < |s.log| { ApplyNextKeepsInv(sign, s, r); }
    case TakeSnapshot(r) => if r < |s.replicas| { TakeKeepsInv(sign, s, r); }
    case InstallSnapshot(r, k) => if r < |s.replicas| && k < |s.snapshots| { InstallKeepsInv(sign, s, r, k); }
    case Crash(r) => if r < |s.replicas| { CrashKeepsInv(sign, s, r); }
  }

  lemma StepKeepsInv(sign: Payload -> Signature, s: Cluster, step: Step)
    requires Inv(sign, s)
    ensures Inv(sign, Exec(sign, s, step))
  {
    if IsCallStep(step) { CallStepKeepsInv(sign, s, step); }
    else if step.ApplyNext? || step.TakeSnapshot? || step.InstallSnapshot? || step.Crash? {
      ReplicaStepKeepsInv(sign, s, step);
    }
    else if step.IdentityReply? || step.ReadIdentity? { IdentityStepKeepsInv(sign, s, step); }
    else if step.Begin? { if step.replica < |s.replicas| { BeginKeepsInv(sign, s, step.replica, step.request); } }
    else if step.Append? { if step.pid < |s.proposals| { AppendKeepsInv(sign, s, step.pid); } }
    else { ProposeKeepsCalls(sign, s, InitCluster(step.id)); }
  }

  /** Every run of the gate keeps the invariant. */
  lemma {:induction false} RunKeepsInv(sign: Payload -> Signature, n: nat, steps: seq<Step>)
    ensures Inv(sign, Run(sign, n, steps))
  {
    if steps != [] {
      RunKeepsInv(sign, n, steps[..|steps| - 1]);
      StepKeepsInv(sign, Run(sign, n, steps[..|steps| - 1]), steps[|steps| - 1]);
    }
  }
}
