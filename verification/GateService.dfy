/**
  The gate is not safe by refusing everything: in every reachable state, a call can
  still be brought to its release, on its own replica, if and only if the state
  machine would not refuse its reservation now.
 */
module GateService {
  import opened Wrappers
  import opened Messages
  import opened Fsm
  import opened Gate
  import opened GateInvariant
  import GateTheorems

  // ---------------------------------------------------------------- continuing from a state

  /** The state after more steps. */
  function Continue(sign: Payload -> Signature, s: Cluster, more: seq<Step>): Cluster {
    if more == [] then s else Exec(sign, Continue(sign, s, more[..|more| - 1]), more[|more| - 1])
  }

  lemma {:induction false} RunContinues(sign: Payload -> Signature, n: nat, steps: seq<Step>, more: seq<Step>)
    ensures Run(sign, n, steps + more) == Continue(sign, Run(sign, n, steps), more)
    decreases |more|
  {
    if more == [] {
      assert steps + more == steps;
    } else {
      RunContinues(sign, n, steps, more[..|more| - 1]);
      assert (steps + more)[..|steps + more| - 1] == steps + more[..|more| - 1];
    }
  }

  lemma {:induction false} ContinueFurther(sign: Payload -> Signature, s: Cluster, a: seq<Step>, b: seq<Step>)
    ensures Continue(sign, s, a + b) == Continue(sign, Continue(sign, s, a), b)
    decreases |b|
  {
    if b == [] {
      assert a + b == a;
    } else {
      ContinueFurther(sign, s, a, b[..|b| - 1]);
      assert (a + b)[..|a + b| - 1] == a + b[..|b| - 1];
    }
  }

  lemma ContinueOne(sign: Payload -> Signature, s: Cluster, a: seq<Step>, step: Step)
    ensures Continue(sign, s, a + [step]) == Exec(sign, Continue(sign, s, a), step)
  {
    assert (a + [step])[..|a|] == a;
  }

  lemma {:induction false} ContinueKeepsInv(sign: Payload -> Signature, s: Cluster, more: seq<Step>)
    requires Inv(sign, s)
    ensures Inv(sign, Continue(sign, s, more))
  {
    if more != [] {
      ContinueKeepsInv(sign, s, more[..|more| - 1]);
      StepKeepsInv(sign, Continue(sign, s, more[..|more| - 1]), more[|more| - 1]);
    }
  }

  /** Steps that neither begin a call nor crash a replica. */
  predicate Calm(more: seq<Step>) {
    forall i :: 0 <= i < |more| ==> !more[i].Begin? && !more[i].Crash?
  }

  // ---------------------------------------------------------------- the parts of a call

  /** The replica has all of the log and the call is where it should be. */
  predicate Ready(s: Cluster, c: nat, r: nat, req: Request, pc: Pc) {
    && c < |s.calls| && s.calls[c] == Call(r, req, pc)
    && r < |s.replicas| && s.replicas[r].applied == |s.log|
  }

  /** The reservation an admitted request makes. */
  function Reservation(ask: Ask): Command {
    Reserve(ask.chain, ask.mark, ask.signBytes, ask.ts)
  }

  /** One step as a continuation. */
  lemma OneStep(sign: Payload -> Signature, s: Cluster, step: Step) returns (more: seq<Step>, t: Cluster)
    requires Inv(sign, s) && !step.Begin? && !step.Crash?
    ensures Calm(more) && t == Continue(sign, s, more) && Inv(sign, t)
    ensures t == Exec(sign, s, step)
  {
    more := [step];
    t := Exec(sign, s, step);
    ContinueOne(sign, s, [], step);
    assert [] + [step] == [step];
    StepKeepsInv(sign, s, step);
  }

  /** Two continuations as one. */
  lemma Joined(sign: Payload -> Signature, s: Cluster, a: seq<Step>, t: Cluster, b: seq<Step>) returns (more: seq<Step>)
    requires Calm(a) && Calm(b) && t == Continue(sign, s, a)
    ensures Calm(more) && Continue(sign, s, more) == Continue(sign, t, b)
  {
    more := a + b;
    ContinueFurther(sign, s, a, b);
  }

  /** Applying an entry again gives it the answer it had. */
  lemma ReplyIsStable(s: Cluster, r: nat)
    requires r < |s.replicas| && ReplicaOk(s.log, s.replicas[r]) && s.replicas[r].applied < |s.log|
    ensures forall i :: i in s.replicas[r].replies ==>
      i in ApplyAt(s, r).replicas[r].replies && ApplyAt(s, r).replicas[r].replies[i] == s.replicas[r].replies[i]
  {
  }

  /** The replica applies everything there is; nothing else changes. */
  lemma {:induction false} CatchUp(sign: Payload -> Signature, s: Cluster, r: nat)
    returns (more: seq<Step>, t: Cluster)
    requires Inv(sign, s) && r < |s.replicas|
    ensures Calm(more) && t == Continue(sign, s, more) && Inv(sign, t)
    ensures t == s.(replicas := t.replicas) && |t.replicas| == |s.replicas| && t.replicas[r].applied == |t.log|
    ensures forall i :: i in s.replicas[r].replies ==>
      i in t.replicas[r].replies && t.replicas[r].replies[i] == s.replicas[r].replies[i]
    decreases |s.log| - s.replicas[r].applied
  {
    assert ReplicaOk(s.log, s.replicas[r]);
    more, t := [], s;
    if s.replicas[r].applied < |s.log| {
      var u := ApplyAt(s, r);
      ReplyIsStable(s, r);
      var one, _ := OneStep(sign, s, ApplyNext(r));
      more, t := CatchUp(sign, u, r);
      more := Joined(sign, s, one, u, more);
    }
  }

  /** The entry is the log's next, and the replica that has all of the log applies it. */
  lemma AppendAndApply(sign: Payload -> Signature, s: Cluster, r: nat, pid: nat)
    requires r < |s.replicas| && s.replicas[r].applied == |s.log| == |s.origin| && pid < |s.proposals|
    requires s.replicas[r].fsm == Replay(s.log)
    ensures var u := Exec(sign, s, Append(pid));
      var t := Exec(sign, u, ApplyNext(r));
      && t.calls == s.calls && t.signed == s.signed && |t.replicas| == |s.replicas|
      && t.log == s.log + [s.proposals[pid]] && t.replicas[r].applied == |t.log|
      && Answered(t, r, pid, |s.log|)
      && t.replicas[r].replies[|s.log|] == Apply(Replay(s.log), s.proposals[pid]).1
  {
    var t := Exec(sign, Exec(sign, s, Append(pid)), ApplyNext(r));
    assert t.origin[|s.log|] == pid;
  }

  /** A submitted command is appended and applied: it is answered from the state of the whole log. */
  lemma Deliver(sign: Payload -> Signature, s: Cluster, c: nat, r: nat, req: Request, pc: Pc, pid: nat)
    returns (more: seq<Step>, t: Cluster)
    requires Inv(sign, s) && Ready(s, c, r, req, pc) && pid < |s.proposals|
    ensures Calm(more) && t == Continue(sign, s, more) && Inv(sign, t)
    ensures Ready(t, c, r, req, pc) && Answered(t, r, pid, |s.log|)
    ensures t.log == s.log + [s.proposals[pid]] && t.signed == s.signed
    ensures t.replicas[r].replies[|s.log|] == Apply(Replay(s.log), s.proposals[pid]).1
  {
    assert ReplicaOk(s.log, s.replicas[r]);
    assert s.log[..|s.log|] == s.log;
    AppendAndApply(sign, s, r, pid);
    var append, u := OneStep(sign, s, Append(pid));
    var apply;
    apply, t := OneStep(sign, u, ApplyNext(r));
    more := Joined(sign, s, append, u, apply);
  }

  lemma ReserveSubmitted(sign: Payload -> Signature, s: Cluster, c: nat, r: nat, req: Request)
    returns (more: seq<Step>, t: Cluster)
    requires Inv(sign, s) && Admit(req).Some? && Ready(s, c, r, req, Admitted)
    ensures Calm(more) && t == Continue(sign, s, more) && Inv(sign, t)
    ensures Ready(t, c, r, req, Reserving(|s.proposals|)) && t.log == s.log && t.signed == s.signed
    ensures t.proposals == s.proposals + [Reservation(Admit(req).value)]
  {
    more, t := OneStep(sign, s, SubmitReserve(c));
  }

  lemma ReserveReplyStep(sign: Payload -> Signature, s: Cluster, c: nat, r: nat, req: Request, pid: nat, i: nat)
    requires Admit(req).Some? && Ready(s, c, r, req, Reserving(pid)) && Answered(s, r, pid, i)
    ensures var t := Exec(sign, s, ReserveReply(c, i));
      Ready(t, c, r, req, AfterReserve(s.replicas[r].replies[i])) && t.log == s.log && t.signed == s.signed
  {
  }

  lemma ReserveReplied(sign: Payload -> Signature, s: Cluster, c: nat, r: nat, req: Request, pid: nat, i: nat)
    returns (more: seq<Step>, t: Cluster)
    requires Inv(sign, s) && Admit(req).Some? && Ready(s, c, r, req, Reserving(pid)) && Answered(s, r, pid, i)
    ensures Calm(more) && t == Continue(sign, s, more) && Inv(sign, t)
    ensures Ready(t, c, r, req, AfterReserve(s.replicas[r].replies[i])) && t.log == s.log && t.signed == s.signed
  {
    ReserveReplyStep(sign, s, c, r, req, pid, i);
    more, t := OneStep(sign, s, ReserveReply(c, i));
  }

  /** Submit, append, apply, reply: the call is then where the answer of the whole log puts it. */
  lemma ReserveAnswered(sign: Payload -> Signature, s: Cluster, c: nat, r: nat, req: Request)
    returns (more: seq<Step>, t: Cluster)
    requires Inv(sign, s) && Admit(req).Some? && Ready(s, c, r, req, Admitted)
    ensures Calm(more) && t == Continue(sign, s, more) && Inv(sign, t)
    ensures Ready(t, c, r, req, AfterReserve(Apply(Replay(s.log), Reservation(Admit(req).value)).1))
    ensures t.log == s.log + [Reservation(Admit(req).value)] && t.signed == s.signed
  {
    var submit, s1 := ReserveSubmitted(sign, s, c, r, req);
    var deliver, s2 := Deliver(sign, s1, c, r, req, Reserving(|s.proposals|), |s.proposals|);
    var reply;
    reply, t := ReserveReplied(sign, s2, c, r, req, |s.proposals|, |s.log|);
    more := Joined(sign, s, submit, s1, deliver);
    more := Joined(sign, s, more, s2, reply);
  }

  lemma SignStep(sign: Payload -> Signature, s: Cluster, c: nat, r: nat, req: Request, b: SignBytes, ts: Time)
    requires Admit(req).Some? && Ready(s, c, r, req, Reserved(b, ts))
    ensures var t := Exec(sign, s, BackendSign(c));
      var ask := Admit(req).value;
      && Ready(t, c, r, req, Signed(b, sign(Canonical(b)), ts)) && t.log == s.log
      && t.signed == s.signed + [Signing(c, ask.chain, ask.mark, b, sign(Canonical(b)))]
  {
  }

  lemma BytesSigned(sign: Payload -> Signature, s: Cluster, c: nat, r: nat, req: Request, b: SignBytes, ts: Time)
    returns (more: seq<Step>, t: Cluster)
    requires Inv(sign, s) && Admit(req).Some? && Ready(s, c, r, req, Reserved(b, ts))
    ensures Calm(more) && t == Continue(sign, s, more) && Inv(sign, t)
    ensures Ready(t, c, r, req, Signed(b, sign(Canonical(b)), ts)) && t.log == s.log
    ensures var ask := Admit(req).value;
      t.signed == s.signed + [Signing(c, ask.chain, ask.mark, b, sign(Canonical(b)))]
  {
    SignStep(sign, s, c, r, req, b, ts);
    more, t := OneStep(sign, s, BackendSign(c));
  }

  lemma CommitSubmitted(
    sign: Payload -> Signature, s: Cluster, c: nat, r: nat, req: Request, b: SignBytes, sig: Signature, ts: Time)
    returns (more: seq<Step>, t: Cluster)
    requires Inv(sign, s) && Admit(req).Some? && Ready(s, c, r, req, Signed(b, sig, ts))
    ensures Calm(more) && t == Continue(sign, s, more) && Inv(sign, t)
    ensures Ready(t, c, r, req, Committing(|s.proposals|, b, sig, ts)) && t.log == s.log
    ensures t.proposals == s.proposals + [Commit(Admit(req).value.chain, Admit(req).value.mark, b, sig)]
  {
    more, t := OneStep(sign, s, SubmitCommit(c));
  }

  lemma CommitReplyStep(sign: Payload -> Signature, s: Cluster, c: nat, r: nat, req: Request, pc: Pc, i: nat)
    requires Admit(req).Some? && pc.Committing? && Ready(s, c, r, req, pc)
    requires Answered(s, r, pc.pid, i) && !s.replicas[r].replies[i].Refused?
    ensures var t := Exec(sign, s, CommitReply(c, i)); Ready(t, c, r, req, Gated(pc.sig, pc.ts)) && t.log == s.log
  {
  }

  lemma CommitReplied(
    sign: Payload -> Signature, s: Cluster, c: nat, r: nat, req: Request, pc: Pc, i: nat)
    returns (more: seq<Step>, t: Cluster)
    requires Inv(sign, s) && Admit(req).Some? && pc.Committing? && Ready(s, c, r, req, pc)
    requires Answered(s, r, pc.pid, i) && !s.replicas[r].replies[i].Refused?
    ensures Calm(more) && t == Continue(sign, s, more) && Inv(sign, t)
    ensures Ready(t, c, r, req, Gated(pc.sig, pc.ts)) && t.log == s.log
  {
    CommitReplyStep(sign, s, c, r, req, pc, i);
    more, t := OneStep(sign, s, CommitReply(c, i));
  }

  lemma CommitAnswered(
    sign: Payload -> Signature, s: Cluster, c: nat, r: nat, req: Request, b: SignBytes, sig: Signature, ts: Time)
    returns (more: seq<Step>, t: Cluster)
    requires Inv(sign, s) && Admit(req).Some? && Ready(s, c, r, req, Signed(b, sig, ts))
    requires Apply(Replay(s.log), Commit(Admit(req).value.chain, Admit(req).value.mark, b, sig)).1 == Committed
    ensures Calm(more) && t == Continue(sign, s, more) && Inv(sign, t)
    ensures Ready(t, c, r, req, Gated(sig, ts))
    ensures t.log == s.log + [Commit(Admit(req).value.chain, Admit(req).value.mark, b, sig)]
  {
    var pc := Committing(|s.proposals|, b, sig, ts);
    var submit, s1 := CommitSubmitted(sign, s, c, r, req, b, sig, ts);
    var deliver, s2 := Deliver(sign, s1, c, r, req, pc, |s.proposals|);
    var reply;
    reply, t := CommitReplied(sign, s2, c, r, req, pc, |s.log|);
    more := Joined(sign, s, submit, s1, deliver);
    more := Joined(sign, s, more, s2, reply);
  }

  predicate Releases(s: Cluster, c: nat, req: Request, sig: Signature, ts: Time) {
    && c < |s.calls| && s.calls[c].request == req
    && s.calls[c].pc.Released? && s.calls[c].pc.sig == sig && s.calls[c].pc.ts == ts
  }

  lemma ExtensionSigned(
    sign: Payload -> Signature, s: Cluster, c: nat, r: nat, req: Request, sig: Signature, ts: Time)
    returns (more: seq<Step>, t: Cluster)
    requires Inv(sign, s) && Admit(req).Some? && Ready(s, c, r, req, Gated(sig, ts)) && WantsExtension(req)
    ensures Calm(more) && t == Continue(sign, s, more) && Inv(sign, t)
    ensures Ready(t, c, r, req, Extended(sig, ts, sign(Extension(VoteExtensionSignBytes(req.chain, req.vote)))))
    ensures t.log == s.log
  {
    more, t := OneStep(sign, s, SignExtension(c));
  }

  lemma ReleaseStep(sign: Payload -> Signature, s: Cluster, c: nat, r: nat, req: Request, pc: Pc)
    requires Admit(req).Some? && Ready(s, c, r, req, pc)
    requires pc.Extended? || (pc.Gated? && !WantsExtension(req))
    ensures var t := Exec(sign, s, Release(c)); Releases(t, c, req, pc.sig, pc.ts) && t.log == s.log
  {
  }

  lemma LastStep(sign: Payload -> Signature, s: Cluster, c: nat, r: nat, req: Request, pc: Pc)
    returns (more: seq<Step>, t: Cluster)
    requires Inv(sign, s) && Admit(req).Some? && Ready(s, c, r, req, pc)
    requires pc.Extended? || (pc.Gated? && !WantsExtension(req))
    ensures Calm(more) && t == Continue(sign, s, more) && Inv(sign, t)
    ensures Releases(t, c, req, pc.sig, pc.ts) && t.log == s.log
  {
    ReleaseStep(sign, s, c, r, req, pc);
    more, t := OneStep(sign, s, Release(c));
  }

  lemma ReleaseReached(
    sign: Payload -> Signature, s: Cluster, c: nat, r: nat, req: Request, sig: Signature, ts: Time)
    returns (more: seq<Step>, t: Cluster)
    requires Inv(sign, s) && Admit(req).Some? && Ready(s, c, r, req, Gated(sig, ts))
    ensures Calm(more) && t == Continue(sign, s, more) && Inv(sign, t)
    ensures Releases(t, c, req, sig, ts) && t.log == s.log
  {
    if WantsExtension(req) {
      var extend, s1 := ExtensionSigned(sign, s, c, r, req, sig, ts);
      more, t := LastStep(sign, s1, c, r, req, s1.calls[c].pc);
      more := Joined(sign, s, extend, s1, more);
    } else {
      more, t := LastStep(sign, s, c, r, req, Gated(sig, ts));
    }
  }

  // ---------------------------------------------------------------- a call that is not refused

  /** What an answer that is not a refusal leads to, in the state it leaves. */
  lemma AnswerIsUsable(sign: Payload -> Signature, s: FsmState, ask: Ask)
    requires StateOk(sign, s) && Honest(sign, Reservation(ask)) && !Apply(s, Reservation(ask)).1.Refused?
    ensures var (t, r) := Apply(s, Reservation(ask));
      var b := AtTime(ask.signBytes, AnswerTime(r));
      && (r.Reuse? ==> AfterReserve(r) == Gated(sign(Canonical(b)), AnswerTime(r)))
      && (r.Proceed? ==>
            && AfterReserve(r) == Reserved(b, AnswerTime(r))
            && Apply(t, Commit(ask.chain, ask.mark, b, sign(Canonical(b)))).1 == Committed)
      && Get(t, ask.chain).Some? && Get(t, ask.chain).value.mark == ask.mark
      && (r.Proceed? || r.Reuse?)
  {
    ReserveAnswer(sign, s, Reservation(ask));
  }

  /** A new mark is answered with the caller's own bytes and time. */
  lemma FreshAnswer(s: FsmState, ask: Ask)
    requires Get(s, ask.chain).Some? ==> Less(Get(s, ask.chain).value.mark, ask.mark)
    ensures Apply(s, Reservation(ask)).1 == Proceed(ask.signBytes, ask.ts)
  {
  }

  lemma HonestState(sign: Payload -> Signature, s: Cluster)
    requires Inv(sign, s)
    ensures StateOk(sign, Replay(s.log))
  {
    HonestLog(sign, s, |s.log|);
    assert s.log[..|s.log|] == s.log;
  }

  /** The chain's entry after the log is at this mark. */
  predicate MarkIs(log: seq<Command>, chain: string, m: Hrs) {
    Get(Replay(log), chain).Some? && Get(Replay(log), chain).value.mark == m
  }

  /** The commit of the asked bytes would be accepted now. */
  predicate Commits(sign: Payload -> Signature, log: seq<Command>, ask: Ask, b: SignBytes) {
    Apply(Replay(log), Commit(ask.chain, ask.mark, b, sign(Canonical(b)))).1 == Committed
  }

  lemma CommittedMark(sign: Payload -> Signature, log: seq<Command>, ask: Ask, b: SignBytes)
    requires Commits(sign, log, ask, b)
    ensures MarkIs(log + [Commit(ask.chain, ask.mark, b, sign(Canonical(b)))], ask.chain, ask.mark)
  {
    var c := Commit(ask.chain, ask.mark, b, sign(Canonical(b)));
    assert (log + [c])[..|log|] == log;
  }

  lemma CommitAndRelease(sign: Payload -> Signature, s: Cluster, c: nat, r: nat, req: Request, b: SignBytes, ts: Time)
    returns (more: seq<Step>, t: Cluster)
    requires Inv(sign, s) && Admit(req).Some? && Ready(s, c, r, req, Signed(b, sign(Canonical(b)), ts))
    requires Commits(sign, s.log, Admit(req).value, b)
    ensures Calm(more) && t == Continue(sign, s, more) && Inv(sign, t)
    ensures Releases(t, c, req, sign(Canonical(b)), ts)
    ensures MarkIs(t.log, Admit(req).value.chain, Admit(req).value.mark)
  {
    CommittedMark(sign, s.log, Admit(req).value, b);
    var commit, s1 := CommitAnswered(sign, s, c, r, req, b, sign(Canonical(b)), ts);
    more, t := ReleaseReached(sign, s1, c, r, req, sign(Canonical(b)), ts);
    more := Joined(sign, s, commit, s1, more);
  }

  lemma SignAndRelease(
    sign: Payload -> Signature, s: Cluster, c: nat, r: nat, req: Request, b: SignBytes, ts: Time)
    returns (more: seq<Step>, t: Cluster)
    requires Inv(sign, s) && Admit(req).Some? && Ready(s, c, r, req, Reserved(b, ts))
    requires Commits(sign, s.log, Admit(req).value, b)
    ensures Calm(more) && t == Continue(sign, s, more) && Inv(sign, t)
    ensures Releases(t, c, req, sign(Canonical(b)), ts)
    ensures MarkIs(t.log, Admit(req).value.chain, Admit(req).value.mark)
  {
    var make, s1 := BytesSigned(sign, s, c, r, req, b, ts);
    more, t := CommitAndRelease(sign, s1, c, r, req, b, ts);
    more := Joined(sign, s, make, s1, more);
  }

  /** From a caught-up replica, a call that is not refused is released. */
  lemma CompletesFrom(sign: Payload -> Signature, s: Cluster, c: nat, r: nat, req: Request)
    returns (more: seq<Step>, t: Cluster)
    requires Inv(sign, s) && Admit(req).Some? && Ready(s, c, r, req, Admitted)
    requires !Apply(Replay(s.log), Reservation(Admit(req).value)).1.Refused?
    ensures Calm(more) && t == Continue(sign, s, more) && Inv(sign, t)
    ensures var ask := Admit(req).value;
      var ts := AnswerTime(Apply(Replay(s.log), Reservation(ask)).1);
      Releases(t, c, req, sign(Canonical(AtTime(ask.signBytes, ts))), ts) && MarkIs(t.log, ask.chain, ask.mark)
  {
    var ask := Admit(req).value;
    var answer := Apply(Replay(s.log), Reservation(ask)).1;
    var ts := AnswerTime(answer);
    var b := AtTime(ask.signBytes, ts);
    HonestState(sign, s);
    AskIsHonest(sign, req);
    AnswerIsUsable(sign, Replay(s.log), ask);
    var reserve, s1 := ReserveAnswered(sign, s, c, r, req);
    assert s1.log[..|s.log|] == s.log;
    if answer.Reuse? {
      more, t := ReleaseReached(sign, s1, c, r, req, sign(Canonical(b)), ts);
    } else {
      more, t := SignAndRelease(sign, s1, c, r, req, b, ts);
    }
    more := Joined(sign, s, reserve, s1, more);
  }

  /** An admitted call that would not be refused now can be brought to its release. */
  lemma Completes(sign: Payload -> Signature, s: Cluster, c: nat) returns (more: seq<Step>, t: Cluster)
    requires Inv(sign, s) && c < |s.calls| && s.calls[c].pc.Admitted? && s.calls[c].replica < |s.replicas|
    requires Admit(s.calls[c].request).Some?
    requires !Apply(Replay(s.log), Reservation(Admit(s.calls[c].request).value)).1.Refused?
    ensures Calm(more) && t == Continue(sign, s, more) && Inv(sign, t)
    ensures var ask := Admit(s.calls[c].request).value;
      var ts := AnswerTime(Apply(Replay(s.log), Reservation(ask)).1);
      && Releases(t, c, s.calls[c].request, sign(Canonical(AtTime(ask.signBytes, ts))), ts)
      && MarkIs(t.log, ask.chain, ask.mark)
  {
    var call := s.calls[c];
    var first, s1 := CatchUp(sign, s, call.replica);
    more, t := CompletesFrom(sign, s1, c, call.replica, call.request);
    more := Joined(sign, s, first, s1, more);
  }

  /** A call above the mark can be brought to make the backend sign its own bytes. */
  lemma FreshCallSigns(sign: Payload -> Signature, s: Cluster, c: nat) returns (more: seq<Step>)
    requires Inv(sign, s) && c < |s.calls| && s.calls[c].pc.Admitted? && s.calls[c].replica < |s.replicas|
    requires Admit(s.calls[c].request).Some?
    requires var ask := Admit(s.calls[c].request).value;
      Get(Replay(s.log), ask.chain).Some? ==> Less(Get(Replay(s.log), ask.chain).value.mark, ask.mark)
    ensures Calm(more)
    ensures var ask := Admit(s.calls[c].request).value;
      Continue(sign, s, more).signed
        == s.signed + [Signing(c, ask.chain, ask.mark, ask.signBytes, sign(Canonical(ask.signBytes)))]
  {
    var call := s.calls[c];
    var ask := Admit(call.request).value;
    FreshAnswer(Replay(s.log), ask);
    var first, s1 := CatchUp(sign, s, call.replica);
    var reserve, s2 := ReserveAnswered(sign, s1, c, call.replica, call.request);
    var make, s3 := BytesSigned(sign, s2, c, call.replica, call.request, ask.signBytes, ask.ts);
    more := Joined(sign, s1, reserve, s2, make);
    more := Joined(sign, s, first, s1, more);
  }

  // ---------------------------------------------------------------- a call that is refused

  /** What is refused now is refused after every longer log. */
  lemma RefusedStays(log: seq<Command>, i: nat, j: nat, ask: Ask)
    requires i <= j <= |log| && Apply(Replay(log[..i]), Reservation(ask)).1.Refused?
    ensures Apply(Replay(log[..j]), Reservation(ask)).1.Refused?
  {
    MarkNeverRegresses(log, i, j, ask.chain);
  }

  /**
    A call that had submitted nothing when the log was l entries long and p commands were submitted, and
    whose reservation that log refuses: it is still unanswered, or it has failed.
   */
  predicate Doomed(s: Cluster, c: nat, req: Request, l: nat, p: nat) {
    && c < |s.calls| && s.calls[c].request == req && Admit(req).Some?
    && l <= |s.log| && |s.origin| == |s.log| && p <= |s.proposals|
    && (forall i :: 0 <= i < l ==> s.origin[i] < p)
    && Apply(Replay(s.log[..l]), Reservation(Admit(req).value)).1.Refused?
    && (s.calls[c].pc.Admitted? || s.calls[c].pc.Failed? || (s.calls[c].pc.Reserving? && s.calls[c].pc.pid >= p))
  }

  lemma ReplyToDoomed(sign: Payload -> Signature, s: Cluster, c: nat, req: Request, l: nat, p: nat, i: nat)
    requires Inv(sign, s) && Doomed(s, c, req, l, p) && s.calls[c].pc.Reserving?
    requires Answered(s, s.calls[c].replica, s.calls[c].pc.pid, i)
    ensures s.replicas[s.calls[c].replica].replies[i].Refused?
  {
    assert CallOk(sign, s.log, s.proposals, s.calls[c]);
    AnsweredMeans(sign, s, s.calls[c].replica, s.calls[c].pc.pid, i);
    RefusedStays(s.log, l, i, Admit(req).value);
  }

  /** A step moves a call on by its own steps only, or fails it. */
  lemma CallIsItsOwn(sign: Payload -> Signature, s: Cluster, step: Step, c: nat)
    requires c < |s.calls|
    ensures var t := Exec(sign, s, step);
      && c < |t.calls| && t.calls[c].request == s.calls[c].request
      && ((IsCallStep(step) && step.call == c) || t.calls[c] == s.calls[c] || t.calls[c].pc.Failed?)
  {
  }

  /** The own steps of a call that has no answer yet. */
  lemma EarlyStep(sign: Payload -> Signature, s: Cluster, step: Step, c: nat)
    requires c < |s.calls| && IsCallStep(step) && step.call == c && Admit(s.calls[c].request).Some?
    requires s.calls[c].pc.Admitted? || s.calls[c].pc.Failed? || s.calls[c].pc.Reserving?
    ensures var pc, old_ := Exec(sign, s, step).calls[c].pc, s.calls[c].pc;
      || pc == old_ || pc.Failed? || pc == Reserving(|s.proposals|)
      || (&& step.ReserveReply? && old_.Reserving? && Answered(s, s.calls[c].replica, old_.pid, step.index)
          && pc == AfterReserve(s.replicas[s.calls[c].replica].replies[step.index]))
  {
  }

  lemma OwnStepKeepsDoomed(
    sign: Payload -> Signature, s: Cluster, step: Step, t: Cluster, c: nat, req: Request, l: nat, p: nat)
    requires Inv(sign, s) && Doomed(s, c, req, l, p) && IsCallStep(step) && step.call == c
    requires t == Exec(sign, s, step) && c < |t.calls|
    ensures t.calls[c].pc.Admitted? || t.calls[c].pc.Failed? || (t.calls[c].pc.Reserving? && t.calls[c].pc.pid >= p)
  {
    EarlyStep(sign, s, step, c);
    if step.ReserveReply? && s.calls[c].pc.Reserving?
       && Answered(s, s.calls[c].replica, s.calls[c].pc.pid, step.index) {
      ReplyToDoomed(sign, s, c, req, l, p, step.index);
    }
  }

  lemma LogGrows(sign: Payload -> Signature, s: Cluster, step: Step)
    ensures var t := Exec(sign, s, step);
      && s.log <= t.log && s.origin <= t.origin && |s.proposals| <= |t.proposals|
      && (|s.origin| == |s.log| ==> |t.origin| == |t.log|)
  {
  }

  /** Calls come only by Begin, and without calls nothing is signed. */
  lemma CallsGrow(sign: Payload -> Signature, s: Cluster, step: Step)
    ensures var t := Exec(sign, s, step);
      && |s.calls| <= |t.calls| && (!step.Begin? ==> |t.calls| == |s.calls|)
      && (s.calls == [] ==> t.signed == s.signed && t.extended == s.extended)
      && (t.identities == s.identities || s.replicas != [])
  {
  }

  lemma StepKeepsDoomed(sign: Payload -> Signature, s: Cluster, step: Step, c: nat, req: Request, l: nat, p: nat)
    requires Inv(sign, s) && Doomed(s, c, req, l, p)
    ensures Doomed(Exec(sign, s, step), c, req, l, p)
  {
    CallIsItsOwn(sign, s, step, c);
    LogGrows(sign, s, step);
    var t := Exec(sign, s, step);
    if IsCallStep(step) && step.call == c { OwnStepKeepsDoomed(sign, s, step, t, c, req, l, p); }
    StillDoomed(s, t, c, req, l, p);
  }

  lemma StillDoomed(s: Cluster, t: Cluster, c: nat, req: Request, l: nat, p: nat)
    requires Doomed(s, c, req, l, p)
    requires s.log <= t.log && s.origin <= t.origin && |t.origin| == |t.log| && |s.proposals| <= |t.proposals|
    requires c < |t.calls| && t.calls[c].request == req
    requires t.calls[c].pc.Admitted? || t.calls[c].pc.Failed? || (t.calls[c].pc.Reserving? && t.calls[c].pc.pid >= p)
    ensures Doomed(t, c, req, l, p)
  {
    assert t.log[..l] == s.log[..l];
  }

  lemma {:induction false} DoomedForever(
    sign: Payload -> Signature, s: Cluster, more: seq<Step>, c: nat, req: Request, l: nat, p: nat)
    requires Inv(sign, s) && Doomed(s, c, req, l, p)
    ensures Doomed(Continue(sign, s, more), c, req, l, p)
  {
    if more != [] {
      var front := more[..|more| - 1];
      DoomedForever(sign, s, front, c, req, l, p);
      ContinueKeepsInv(sign, s, front);
      StepKeepsDoomed(sign, Continue(sign, s, front), more[|more| - 1], c, req, l, p);
    }
  }

  // ---------------------------------------------------------------- which calls can complete

  /** Calls are served by replicas that exist. */
  lemma {:induction false} CallsArePlaced(sign: Payload -> Signature, n: nat, steps: seq<Step>, c: nat)
    requires c < |Run(sign, n, steps).calls|
    ensures Run(sign, n, steps).calls[c].replica < |Run(sign, n, steps).replicas| == n
  {
    RunHasReplicas(sign, n, steps);
    var front := steps[..|steps| - 1];
    var s := Run(sign, n, front);
    RunHasReplicas(sign, n, front);
    CallsStay(sign, s, steps[|steps| - 1], c);
    if c < |s.calls| {
      CallsArePlaced(sign, n, front, c);
    }
  }

  lemma ReplicasStay(sign: Payload -> Signature, s: Cluster, step: Step)
    ensures |Exec(sign, s, step).replicas| == |s.replicas|
  {
    if IsCallStep(step) && step.call < |s.calls| && Admit(s.calls[step.call].request).Some? {
      assert CallStep(sign, s, step).replicas == s.replicas;
    }
  }

  /** A call stays on its replica, and a new one begins on one that exists. */
  lemma CallsStay(sign: Payload -> Signature, s: Cluster, step: Step, c: nat)
    requires c < |Exec(sign, s, step).calls|
    ensures var t := Exec(sign, s, step);
      if c < |s.calls| then t.calls[c].replica == s.calls[c].replica else t.calls[c].replica < |s.replicas|
  {
  }

  lemma {:induction false} RunHasReplicas(sign: Payload -> Signature, n: nat, steps: seq<Step>)
    ensures |Run(sign, n, steps).replicas| == n
  {
    if steps != [] {
      RunHasReplicas(sign, n, steps[..|steps| - 1]);
      ReplicasStay(sign, Run(sign, n, steps[..|steps| - 1]), steps[|steps| - 1]);
    }
  }

  predicate ReleasedCall(s: Cluster, c: nat) {
    c < |s.calls| && s.calls[c].pc.Released?
  }

  /**
    In every reachable state, an admitted call can be brought to release if and only if the state machine
    would not refuse its reservation now: it is above the mark, or at the mark with the same message at
    any time, in flight or signed.
   */
  lemma CompletesIff(sign: Payload -> Signature, n: nat, steps: seq<Step>, c: nat)
    requires c < |Run(sign, n, steps).calls| && Run(sign, n, steps).calls[c].pc.Admitted?
    requires Admit(Run(sign, n, steps).calls[c].request).Some?
    ensures var s := Run(sign, n, steps);
      (exists more :: ReleasedCall(Run(sign, n, steps + more), c))
      <==> !Apply(Replay(s.log), Reservation(Admit(s.calls[c].request).value)).1.Refused?
  {
    var s := Run(sign, n, steps);
    RunKeepsInv(sign, n, steps);
    CallsArePlaced(sign, n, steps, c);
    if Apply(Replay(s.log), Reservation(Admit(s.calls[c].request).value)).1.Refused? {
      assert s.log[..|s.log|] == s.log;
      forall more ensures !ReleasedCall(Run(sign, n, steps + more), c) {
        RunContinues(sign, n, steps, more);
        DoomedForever(sign, s, more, c, s.calls[c].request, |s.log|, |s.proposals|);
      }
    } else {
      var more, _ := Completes(sign, s, c);
      RunContinues(sign, n, steps, more);
      assert ReleasedCall(Run(sign, n, steps + more), c);
    }
  }

  /** A call above its chain's mark can be released with its own bytes and its own timestamp. */
  lemma FreshCallCompletes(sign: Payload -> Signature, n: nat, steps: seq<Step>, c: nat) returns (more: seq<Step>)
    requires var s := Run(sign, n, steps);
      && c < |s.calls| && s.calls[c].pc.Admitted? && Admit(s.calls[c].request).Some?
      && var ask := Admit(s.calls[c].request).value;
         Get(Replay(s.log), ask.chain).Some? ==> Less(Get(Replay(s.log), ask.chain).value.mark, ask.mark)
    ensures var req := Run(sign, n, steps).calls[c].request;
      var ask := Admit(req).value;
      Releases(Run(sign, n, steps + more), c, req, sign(Canonical(ask.signBytes)), ask.ts)
  {
    var s := Run(sign, n, steps);
    var ask := Admit(s.calls[c].request).value;
    RunKeepsInv(sign, n, steps);
    CallsArePlaced(sign, n, steps, c);
    FreshAnswer(Replay(s.log), ask);
    var t;
    more, t := Completes(sign, s, c);
    assert AtTime(ask.signBytes, ask.ts) == ask.signBytes;
    RunContinues(sign, n, steps, more);
  }

  /** The request is for what its chain's mark already holds, at any time. */
  predicate Retries(s: FsmState, ask: Ask) {
    && Get(s, ask.chain).Some? && Get(s, ask.chain).value.mark == ask.mark
    && Get(s, ask.chain).value.signBytes == AtTime(ask.signBytes, Get(s, ask.chain).value.timestamp)
  }

  lemma RetryAnswer(sign: Payload -> Signature, s: FsmState, ask: Ask)
    requires StateOk(sign, s) && Honest(sign, Reservation(ask)) && Retries(s, ask)
    ensures var r := Apply(s, Reservation(ask)).1;
      !r.Refused? && AnswerTime(r) == Get(s, ask.chain).value.timestamp
  {
    assert EntryOk(sign, s.marks[ask.chain]);
  }

  /**
    A retry at the mark, in flight or signed, can be released, with the bytes and the time the mark holds.
   */
  lemma RetryCompletes(sign: Payload -> Signature, n: nat, steps: seq<Step>, c: nat) returns (more: seq<Step>)
    requires var s := Run(sign, n, steps);
      && c < |s.calls| && s.calls[c].pc.Admitted? && Admit(s.calls[c].request).Some?
      && Retries(Replay(s.log), Admit(s.calls[c].request).value)
    ensures var s := Run(sign, n, steps);
      var req := s.calls[c].request;
      var st := Get(Replay(s.log), Admit(req).value.chain).value;
      Releases(Run(sign, n, steps + more), c, req, sign(Canonical(st.signBytes)), st.timestamp)
  {
    var s := Run(sign, n, steps);
    RunKeepsInv(sign, n, steps);
    CallsArePlaced(sign, n, steps, c);
    HonestState(sign, s);
    AskIsHonest(sign, s.calls[c].request);
    RetryAnswer(sign, Replay(s.log), Admit(s.calls[c].request).value);
    var t;
    more, t := Completes(sign, s, c);
    RunContinues(sign, n, steps, more);
  }
}
