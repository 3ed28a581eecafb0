/**
  What the gate can still bring to an end: the calls that are already under way, the
  three messages of a consensus round, and the identity of a new cluster.
 */
module GateProgress {
  import opened Wrappers
  import opened Messages
  import opened Fsm
  import opened Gate
  import opened GateInvariant
  import opened GateService
  import GateTheorems
  import ClusterId
  import Snapshot

  // ---------------------------------------------------------------- calls under way

  /** If the mark is still the call's, it still holds the call's bytes, and their commit is accepted. */
  lemma MarkStillHolds(sign: Payload -> Signature, s: Cluster, ask: Ask, b: SignBytes, ts: Time)
    requires Inv(sign, s) && WorksOn(s.log, ask, b, ts) && MarkIs(s.log, ask.chain, ask.mark)
    ensures Commits(sign, s.log, ask, b)
  {
    var i: nat :| i <= |s.log| && HeldAt(s.log, i, ask.chain, ask.mark, b);
    MarkNeverRegresses(s.log, i, |s.log|, ask.chain);
    assert s.log[..|s.log|] == s.log;
    HonestState(sign, s);
    assert EntryOk(sign, Replay(s.log).marks[ask.chain]);
  }

  /** If it is not, it has moved on. */
  lemma MarkMovedOn(s: Cluster, ask: Ask, b: SignBytes, ts: Time)
    requires WorksOn(s.log, ask, b, ts) && !MarkIs(s.log, ask.chain, ask.mark)
    ensures Get(Replay(s.log), ask.chain).Some? && Less(ask.mark, Get(Replay(s.log), ask.chain).value.mark)
  {
    var i: nat :| i <= |s.log| && HeldAt(s.log, i, ask.chain, ask.mark, b);
    MarkNeverRegresses(s.log, i, |s.log|, ask.chain);
    assert s.log[..|s.log|] == s.log;
  }

  /** A call with reserved or signed bytes completes while the mark is still its own. */
  lemma UnderWayCompletes(sign: Payload -> Signature, s: Cluster, c: nat) returns (more: seq<Step>, t: Cluster)
    requires Inv(sign, s) && c < |s.calls| && s.calls[c].replica < |s.replicas|
    requires s.calls[c].pc.Reserved? || s.calls[c].pc.Signed?
    requires Admit(s.calls[c].request).Some?
    requires MarkIs(s.log, Admit(s.calls[c].request).value.chain, Admit(s.calls[c].request).value.mark)
    ensures Calm(more) && t == Continue(sign, s, more)
    ensures var pc := s.calls[c].pc; Releases(t, c, s.calls[c].request, sign(Canonical(pc.signBytes)), pc.ts)
  {
    var call := s.calls[c];
    var first, s1 := CatchUp(sign, s, call.replica);
    assert CallOk(sign, s.log, s.proposals, call);
    MarkStillHolds(sign, s1, Admit(call.request).value, call.pc.signBytes, call.pc.ts);
    if call.pc.Reserved? {
      more, t := SignAndRelease(sign, s1, c, call.replica, call.request, call.pc.signBytes, call.pc.ts);
    } else {
      more, t := CommitAndRelease(sign, s1, c, call.replica, call.request, call.pc.signBytes, call.pc.ts);
    }
    more := Joined(sign, s, first, s1, more);
  }

  /** A call past which the chain's mark has moved, with no commit of its own in the log. */
  predicate Overtaken(s: Cluster, c: nat, req: Request, l: nat, p: nat) {
    && c < |s.calls| && s.calls[c].request == req && Admit(req).Some?
    && l <= |s.log| && |s.origin| == |s.log| && p <= |s.proposals|
    && (forall i :: 0 <= i < l ==> s.origin[i] < p)
    && Past(s.log[..l], Admit(req).value)
    && Unfinished(s.calls[c].pc, p)
  }

  predicate Past(log: seq<Command>, ask: Ask) {
    Get(Replay(log), ask.chain).Some? && Less(ask.mark, Get(Replay(log), ask.chain).value.mark)
  }

  predicate Unfinished(pc: Pc, p: nat) {
    pc.Reserved? || pc.Signed? || pc.Failed? || (pc.Committing? && pc.pid >= p)
  }

  lemma StalePast(log: seq<Command>, l: nat, i: nat, ask: Ask, c: Command)
    requires l <= i <= |log| && Past(log[..l], ask) && c.Commit? && c.chain == ask.chain && c.mark == ask.mark
    ensures Apply(Replay(log[..i]), c).1.Refused?
  {
    MarkNeverRegresses(log, l, i, ask.chain);
  }

  lemma ReplyToOvertaken(sign: Payload -> Signature, s: Cluster, c: nat, req: Request, l: nat, p: nat, i: nat)
    requires Inv(sign, s) && Overtaken(s, c, req, l, p) && s.calls[c].pc.Committing?
    requires Answered(s, s.calls[c].replica, s.calls[c].pc.pid, i)
    ensures s.replicas[s.calls[c].replica].replies[i].Refused?
  {
    assert CallOk(sign, s.log, s.proposals, s.calls[c]);
    AnsweredMeans(sign, s, s.calls[c].replica, s.calls[c].pc.pid, i);
    StalePast(s.log, l, i, Admit(req).value, s.log[i]);
  }

  /** The own steps of a call between its reservation and its commit. */
  lemma MiddleStep(sign: Payload -> Signature, s: Cluster, step: Step, c: nat)
    requires c < |s.calls| && IsCallStep(step) && step.call == c && Admit(s.calls[c].request).Some?
    requires var pc := s.calls[c].pc; pc.Reserved? || pc.Signed? || pc.Failed? || pc.Committing?
    ensures c < |Exec(sign, s, step).calls|
    ensures var now, before := Exec(sign, s, step).calls[c].pc, s.calls[c].pc;
      || now == before || now.Failed? || now.Signed? || (now.Committing? && now.pid == |s.proposals|)
      || (&& step.CommitReply? && before.Committing? && Answered(s, s.calls[c].replica, before.pid, step.index)
          && !s.replicas[s.calls[c].replica].replies[step.index].Refused?)
  {
  }

  lemma OwnStepKeepsOvertaken(
    sign: Payload -> Signature, s: Cluster, step: Step, t: Cluster, c: nat, req: Request, l: nat, p: nat)
    requires Inv(sign, s) && Overtaken(s, c, req, l, p) && IsCallStep(step) && step.call == c
    requires t == Exec(sign, s, step) && c < |t.calls|
    ensures Unfinished(t.calls[c].pc, p)
  {
    MiddleStep(sign, s, step, c);
    if step.CommitReply? && s.calls[c].pc.Committing?
       && Answered(s, s.calls[c].replica, s.calls[c].pc.pid, step.index) {
      ReplyToOvertaken(sign, s, c, req, l, p, step.index);
    }
  }

  lemma StillOvertaken(s: Cluster, t: Cluster, c: nat, req: Request, l: nat, p: nat)
    requires Overtaken(s, c, req, l, p)
    requires s.log <= t.log && s.origin <= t.origin && |t.origin| == |t.log| && |s.proposals| <= |t.proposals|
    requires c < |t.calls| && t.calls[c].request == req && Unfinished(t.calls[c].pc, p)
    ensures Overtaken(t, c, req, l, p)
  {
    assert t.log[..l] == s.log[..l];
  }

  lemma StepKeepsOvertaken(sign: Payload -> Signature, s: Cluster, step: Step, c: nat, req: Request, l: nat, p: nat)
    requires Inv(sign, s) && Overtaken(s, c, req, l, p)
    ensures Overtaken(Exec(sign, s, step), c, req, l, p)
  {
    CallIsItsOwn(sign, s, step, c);
    LogGrows(sign, s, step);
    var t := Exec(sign, s, step);
    if IsCallStep(step) && step.call == c { OwnStepKeepsOvertaken(sign, s, step, t, c, req, l, p); }
    StillOvertaken(s, t, c, req, l, p);
  }

  lemma {:induction false} OvertakenForever(
    sign: Payload -> Signature, s: Cluster, more: seq<Step>, c: nat, req: Request, l: nat, p: nat)
    requires Inv(sign, s) && Overtaken(s, c, req, l, p)
    ensures Overtaken(Continue(sign, s, more), c, req, l, p)
  {
    if more != [] {
      var front := more[..|more| - 1];
      OvertakenForever(sign, s, front, c, req, l, p);
      ContinueKeepsInv(sign, s, front);
      StepKeepsOvertaken(sign, Continue(sign, s, front), more[|more| - 1], c, req, l, p);
    }
  }

  /**
    In every reachable state, a call that holds reserved or signed bytes can be brought to release if and
    only if its chain's mark is still the call's.  So of two calls that sign the same reservation both can
    finish, whichever commits first.
   */
  lemma UnderWayIff(sign: Payload -> Signature, n: nat, steps: seq<Step>, c: nat)
    requires c < |Run(sign, n, steps).calls|
    requires Run(sign, n, steps).calls[c].pc.Reserved? || Run(sign, n, steps).calls[c].pc.Signed?
    ensures var s := Run(sign, n, steps);
      && Admit(s.calls[c].request).Some?
      && var ask := Admit(s.calls[c].request).value;
         (exists more :: ReleasedCall(Run(sign, n, steps + more), c)) <==> MarkIs(s.log, ask.chain, ask.mark)
  {
    var s := Run(sign, n, steps);
    RunKeepsInv(sign, n, steps);
    CallsArePlaced(sign, n, steps, c);
    assert CallOk(sign, s.log, s.proposals, s.calls[c]);
    var ask := Admit(s.calls[c].request).value;
    if MarkIs(s.log, ask.chain, ask.mark) {
      var more, t := UnderWayCompletes(sign, s, c);
      RunContinues(sign, n, steps, more);
      assert ReleasedCall(Run(sign, n, steps + more), c);
    } else {
      MarkMovedOn(s, ask, s.calls[c].pc.signBytes, s.calls[c].pc.ts);
      assert s.log[..|s.log|] == s.log;
      forall more ensures !ReleasedCall(Run(sign, n, steps + more), c) {
        RunContinues(sign, n, steps, more);
        OvertakenForever(sign, s, more, c, s.calls[c].request, |s.log|, |s.proposals|);
      }
    }
  }

  /** A call that waits for its commit completes if that is yet to be appended while the mark is its own. */
  lemma CommittingCompletes(sign: Payload -> Signature, s: Cluster, c: nat) returns (more: seq<Step>, t: Cluster)
    requires Inv(sign, s) && c < |s.calls| && s.calls[c].replica < |s.replicas| && s.calls[c].pc.Committing?
    requires Admit(s.calls[c].request).Some? && s.calls[c].pc.pid !in s.origin
    requires MarkIs(s.log, Admit(s.calls[c].request).value.chain, Admit(s.calls[c].request).value.mark)
    ensures Calm(more) && t == Continue(sign, s, more)
    ensures var pc := s.calls[c].pc; Releases(t, c, s.calls[c].request, pc.sig, pc.ts)
  {
    var call := s.calls[c];
    var pc := call.pc;
    var first, s1 := CatchUp(sign, s, call.replica);
    assert CallOk(sign, s.log, s.proposals, call);
    MarkStillHolds(sign, s1, Admit(call.request).value, pc.signBytes, pc.ts);
    var deliver, s2 := Deliver(sign, s1, c, call.replica, call.request, pc, pc.pid);
    var reply, s3 := CommitReplied(sign, s2, c, call.replica, call.request, pc, |s1.log|);
    more, t := ReleaseReached(sign, s3, c, call.replica, call.request, pc.sig, pc.ts);
    more := Joined(sign, s2, reply, s3, more);
    more := Joined(sign, s1, deliver, s2, more);
    more := Joined(sign, s, first, s1, more);
  }

  /** And it completes if its replica has the accepting answer, wherever the mark is now. */
  lemma AnsweredCompletes(sign: Payload -> Signature, s: Cluster, c: nat, i: nat)
    returns (more: seq<Step>, t: Cluster)
    requires Inv(sign, s) && c < |s.calls| && s.calls[c].replica < |s.replicas| && s.calls[c].pc.Committing?
    requires Admit(s.calls[c].request).Some? && Answered(s, s.calls[c].replica, s.calls[c].pc.pid, i)
    requires !s.replicas[s.calls[c].replica].replies[i].Refused?
    ensures Calm(more) && t == Continue(sign, s, more)
    ensures var pc := s.calls[c].pc; Releases(t, c, s.calls[c].request, pc.sig, pc.ts)
  {
    var call := s.calls[c];
    var first, s1 := CatchUp(sign, s, call.replica);
    var reply, s2 := CommitReplied(sign, s1, c, call.replica, call.request, call.pc, i);
    more, t := ReleaseReached(sign, s2, c, call.replica, call.request, call.pc.sig, call.pc.ts);
    more := Joined(sign, s1, reply, s2, more);
    more := Joined(sign, s, first, s1, more);
  }

  // ---------------------------------------------------------------- a consensus round

  /** A proposal, a prevote and a precommit of one chain, height and round. */
  predicate OneRound(p: Request, v: Request, c: Request) {
    && p.ProposalRequest? && v.VoteRequest? && c.VoteRequest?
    && p.chain == v.chain == c.chain
    && p.proposal.height == v.vote.height == c.vote.height
    && p.proposal.round == v.vote.round == c.vote.round
    && v.vote.kind == PREVOTE_TYPE && c.vote.kind == PRECOMMIT_TYPE
    && Admit(p).Some? && Admit(v).Some? && Admit(c).Some?
  }

  /** Within a round the marks rise from the proposal to the prevote to the precommit. */
  lemma MarksRise(p: Request, v: Request, c: Request)
    requires OneRound(p, v, c)
    ensures Less(Admit(p).value.mark, Admit(v).value.mark) && Less(Admit(v).value.mark, Admit(c).value.mark)
    ensures Admit(p).value.chain == Admit(v).value.chain == Admit(c).value.chain == p.chain
  {
    AdmitsExactly(p);
    AdmitsExactly(v);
    AdmitsExactly(c);
  }

  /** What was released stays so in every continuation. */
  lemma {:induction false} ReleaseStays(sign: Payload -> Signature, s: Cluster, more: seq<Step>, c: nat)
    requires c < |s.calls| && s.calls[c].pc.Released?
    ensures c < |Continue(sign, s, more).calls| && Continue(sign, s, more).calls[c] == s.calls[c]
  {
    if more != [] {
      ReleaseStays(sign, s, more[..|more| - 1], c);
      GateTheorems.ExecGrows(sign, Continue(sign, s, more[..|more| - 1]), more[|more| - 1]);
    }
  }

  lemma {:induction false} ReplicasContinue(sign: Payload -> Signature, s: Cluster, more: seq<Step>)
    ensures |Continue(sign, s, more).replicas| == |s.replicas|
  {
    if more != [] {
      ReplicasContinue(sign, s, more[..|more| - 1]);
      ReplicasStay(sign, Continue(sign, s, more[..|more| - 1]), more[|more| - 1]);
    }
  }

  lemma {:induction false} CalmKeepsCalls(sign: Payload -> Signature, s: Cluster, more: seq<Step>)
    requires Calm(more)
    ensures |Continue(sign, s, more).calls| == |s.calls|
  {
    if more != [] {
      CalmKeepsCalls(sign, s, more[..|more| - 1]);
      CallsGrow(sign, Continue(sign, s, more[..|more| - 1]), more[|more| - 1]);
    }
  }

  lemma Begins(sign: Payload -> Signature, s: Cluster, r: nat, req: Request) returns (t: Cluster)
    requires Inv(sign, s) && r < |s.replicas| && Admit(req).Some?
    ensures t == Continue(sign, s, [Begin(r, req)]) && Inv(sign, t)
    ensures t == s.(calls := s.calls + [Call(r, req, Admitted)])
  {
    ContinueOne(sign, s, [], Begin(r, req));
    assert [] + [Begin(r, req)] == [Begin(r, req)];
    StepKeepsInv(sign, s, Begin(r, req));
    t := Exec(sign, s, Begin(r, req));
  }

  /** A request above the mark is begun and released, and the mark is then its own. */
  lemma FreshIsServed(sign: Payload -> Signature, s: Cluster, r: nat, req: Request)
    returns (more: seq<Step>, t: Cluster)
    requires Inv(sign, s) && r < |s.replicas| && Admit(req).Some?
    requires var st := Get(Replay(s.log), Admit(req).value.chain);
      st.Some? ==> Less(st.value.mark, Admit(req).value.mark)
    ensures t == Continue(sign, s, more) && Inv(sign, t) && |t.replicas| == |s.replicas|
    ensures |t.calls| == |s.calls| + 1
    ensures var ask := Admit(req).value;
      Releases(t, |s.calls|, req, sign(Canonical(ask.signBytes)), ask.ts) && MarkIs(t.log, ask.chain, ask.mark)
  {
    var ask := Admit(req).value;
    var s1 := Begins(sign, s, r, req);
    FreshAnswer(Replay(s.log), ask);
    assert AtTime(ask.signBytes, ask.ts) == ask.signBytes by { AskIsHonest(sign, req); }
    more, t := Completes(sign, s1, |s.calls|);
    CalmKeepsCalls(sign, s1, more);
    ReplicasContinue(sign, s1, more);
    ContinueFurther(sign, s, [Begin(r, req)], more);
    more := [Begin(r, req)] + more;
  }

  /**
    In every reachable state, where a chain's mark is below a round, the proposal, the prevote and the
    precommit of that round, begun in this order on any replica, can all be released, each with the key's
    signature of its own bytes.
   */
  lemma RoundCompletes(
    sign: Payload -> Signature, n: nat, steps: seq<Step>, r: nat, p: Request, v: Request, c: Request)
    returns (more: seq<Step>)
    requires r < n && OneRound(p, v, c)
    requires var st := Get(Replay(Run(sign, n, steps).log), p.chain);
      st.Some? ==> Less(st.value.mark, Admit(p).value.mark)
    ensures var k := |Run(sign, n, steps).calls|;
      var t := Run(sign, n, steps + more);
      && Releases(t, k, p, sign(Canonical(Encode(p).value)), p.proposal.timestamp)
      && Releases(t, k + 1, v, sign(Canonical(Encode(v).value)), v.vote.timestamp)
      && Releases(t, k + 2, c, sign(Canonical(Encode(c).value)), c.vote.timestamp)
  {
    var s := Run(sign, n, steps);
    var k := |s.calls|;
    RunKeepsInv(sign, n, steps);
    RunHasReplicas(sign, n, steps);
    MarksRise(p, v, c);
    var m1, s1 := FreshIsServed(sign, s, r, p);
    var m2, s2 := FreshIsServed(sign, s1, r, v);
    var m3, s3 := FreshIsServed(sign, s2, r, c);
    ReleaseStays(sign, s1, m2, k);
    ReleaseStays(sign, s2, m3, k);
    ReleaseStays(sign, s2, m3, k + 1);
    ContinueFurther(sign, s, m1, m2);
    ContinueFurther(sign, s, m1 + m2, m3);
    more := m1 + m2 + m3;
    RunContinues(sign, n, steps, more);
    AdmitsExactly(p);
    AdmitsExactly(v);
    AdmitsExactly(c);
  }

  // ---------------------------------------------------------------- identity and snapshots

  /** In a cluster without an identity, any valid candidate can become it, and every replica can return it. */
  lemma IdentityCanBeHad(sign: Payload -> Signature, s: Cluster, r: nat, id: string)
    returns (more: seq<Step>, t: Cluster)
    requires Inv(sign, s) && r < |s.replicas| && ClusterId.Valid(id) && id != ""
    ensures Calm(more) && t == Continue(sign, s, more) && Inv(sign, t)
    ensures |t.identities| == |s.identities| + 1
    ensures t.identities[|s.identities|] == if FirstIdentity(s.log) == "" then id else FirstIdentity(s.log)
  {
    var submit, s1 := InitAppended(sign, s, id);
    var learn, s2 := CatchUp(sign, s1, r);
    IdentityAfter(s.log, id);
    var read;
    read, t := IdentityRead(sign, s2, r);
    more := Joined(sign, s, submit, s1, learn);
    more := Joined(sign, s, more, s2, read);
  }

  lemma InitAppended(sign: Payload -> Signature, s: Cluster, id: string) returns (more: seq<Step>, t: Cluster)
    requires Inv(sign, s)
    ensures Calm(more) && t == Continue(sign, s, more) && Inv(sign, t)
    ensures t.log == s.log + [InitCluster(id)] && t.identities == s.identities && |t.replicas| == |s.replicas|
  {
    var propose, s1 := OneStep(sign, s, ProposeIdentity(id));
    var append;
    append, t := OneStep(sign, s1, Append(|s.proposals|));
    more := Joined(sign, s, propose, s1, append);
  }

  lemma IdentityRead(sign: Payload -> Signature, s: Cluster, r: nat) returns (more: seq<Step>, t: Cluster)
    requires Inv(sign, s) && r < |s.replicas| && s.replicas[r].applied == |s.log| && Replay(s.log).clusterId != ""
    ensures Calm(more) && t == Continue(sign, s, more) && Inv(sign, t)
    ensures t.identities == s.identities + [Replay(s.log).clusterId]
  {
    assert ReplicaOk(s.log, s.replicas[r]);
    assert s.log[..|s.log|] == s.log;
    more, t := OneStep(sign, s, ReadIdentity(r));
  }

  lemma IdentityAfter(log: seq<Command>, id: string)
    requires ClusterId.Valid(id) && id != ""
    ensures Replay(log + [InitCluster(id)]).clusterId == if FirstIdentity(log) == "" then id else FirstIdentity(log)
  {
    ReplayIdentity(log + [InitCluster(id)]);
    assert (log + [InitCluster(id)])[..|log|] == log;
  }

  /** A lagging replica always gets a later snapshot installed, and is then where the snapshot was taken. */
  lemma LaterSnapshotInstalls(sign: Payload -> Signature, n: nat, steps: seq<Step>, r: nat, k: nat)
    requires var s := Run(sign, n, steps);
      r < |s.replicas| && k < |s.snapshots| && s.replicas[r].applied <= s.snapshots[k].index
    ensures var s := Run(sign, n, steps);
      var t := Exec(sign, s, InstallSnapshot(r, k));
      && r < |t.replicas| && t.replicas[r].applied == s.snapshots[k].index
      && s.snapshots[k].index <= |s.log| && t.replicas[r].fsm == Replay(s.log[..s.snapshots[k].index])
  {
    var s := Run(sign, n, steps);
    RunKeepsInv(sign, n, steps);
    assert ReplicaOk(s.log, s.replicas[r]) && StoredOk(s.log, s.snapshots[k]);
    Snapshot.LaterSnapshotAccepted(s.log, s.replicas[r].applied, s.snapshots[k].index);
  }
}
