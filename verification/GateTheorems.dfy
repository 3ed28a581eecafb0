/** What every run of the gate guarantees. */
module GateTheorems {
  import opened Wrappers
  import opened Messages
  import opened Fsm
  import opened Gate
  import opened GateInvariant
  import Snapshot

  /**
    No double-sign.  In every run, all canonical signatures the backend made for one chain and one
    height/round/step are over one byte string, and so are one signature.
   */
  lemma NoDoubleSign(sign: Payload -> Signature, n: nat, steps: seq<Step>, i: nat, j: nat)
    requires i < |Run(sign, n, steps).signed| && j < |Run(sign, n, steps).signed|
    requires var g := Run(sign, n, steps).signed; g[i].chain == g[j].chain && g[i].mark == g[j].mark
    ensures var g := Run(sign, n, steps).signed; g[i].signBytes == g[j].signBytes && g[i].sig == g[j].sig
  {
    var s := Run(sign, n, steps);
    RunKeepsInv(sign, n, steps);
    var a, b := s.signed[i], s.signed[j];
    assert SigningOk(sign, s.log, a) && SigningOk(sign, s.log, b);
    HeldIsUnique(s.log, a.chain, a.mark, a.signBytes, b.signBytes);
  }

  lemma DeliveredIsHeld(sign: Payload -> Signature, log: seq<Command>, ask: Ask, sig: Signature, ts: Time)
    requires Delivers(sign, log, ask, sig, ts)
    ensures Held(log, ask.chain, ask.mark, AtTime(ask.signBytes, ts))
    ensures sig == sign(Canonical(AtTime(ask.signBytes, ts)))
  {
  }

  /** The chain and the height/round/step a call asks for. */
  function Place(call: Call): Option<(string, Hrs)> {
    match Admit(call.request)
    case None => None
    case Some(ask) => Some((ask.chain, ask.mark))
  }

  /**
    Any two results released for one height/round/step of one chain are the same message: the same kind,
    chain, height, round, POL round, block and time, under the same signature.
   */
  lemma ReleasesAgree(sign: Payload -> Signature, n: nat, steps: seq<Step>, c: nat, d: nat)
    requires var s := Run(sign, n, steps);
      && c < |s.calls| && d < |s.calls|
      && s.calls[c].pc.Released? && s.calls[d].pc.Released?
      && Place(s.calls[c]) == Place(s.calls[d])
    ensures var s := Run(sign, n, steps);
      && s.calls[c].pc.sig == s.calls[d].pc.sig
      && Encode(Message(s.calls[c])) == Encode(Message(s.calls[d]))
      && SaysTheSame(Message(s.calls[c]), Message(s.calls[d]))
  {
    var s := Run(sign, n, steps);
    RunKeepsInv(sign, n, steps);
    var x, y := s.calls[c], s.calls[d];
    assert CallOk(sign, s.log, s.proposals, x) && CallOk(sign, s.log, s.proposals, y);
    var a, b := Admit(x.request).value, Admit(y.request).value;
    DeliveredIsHeld(sign, s.log, a, x.pc.sig, x.pc.ts);
    DeliveredIsHeld(sign, s.log, b, y.pc.sig, y.pc.ts);
    HeldIsUnique(s.log, a.chain, a.mark, AtTime(a.signBytes, x.pc.ts), AtTime(b.signBytes, y.pc.ts));
    StampEncodes(x.request, x.pc.ts, x.pc.sig, x.pc.ext);
    StampEncodes(y.request, y.pc.ts, y.pc.sig, y.pc.ext);
    EncodingSeparates(Message(x), Message(y));
  }

  /** A released signature is over the bytes of every backend signature at that place. */
  lemma ReleaseMatchesSigning(sign: Payload -> Signature, n: nat, steps: seq<Step>, c: nat, i: nat)
    requires var s := Run(sign, n, steps);
      && c < |s.calls| && i < |s.signed| && s.calls[c].pc.Released?
      && Place(s.calls[c]) == Some((s.signed[i].chain, s.signed[i].mark))
    ensures var s := Run(sign, n, steps);
      && Encode(Message(s.calls[c])) == Some(s.signed[i].signBytes)
      && s.calls[c].pc.sig == s.signed[i].sig
  {
    var s := Run(sign, n, steps);
    RunKeepsInv(sign, n, steps);
    var x, g := s.calls[c], s.signed[i];
    assert CallOk(sign, s.log, s.proposals, x) && SigningOk(sign, s.log, g);
    var a := Admit(x.request).value;
    DeliveredIsHeld(sign, s.log, a, x.pc.sig, x.pc.ts);
    HeldIsUnique(s.log, a.chain, a.mark, AtTime(a.signBytes, x.pc.ts), g.signBytes);
    StampEncodes(x.request, x.pc.ts, x.pc.sig, x.pc.ext);
  }

  /** Re-encoding a stamped message gives the asked bytes at the stamped time. */
  lemma StampEncodes(req: Request, ts: Time, sig: Signature, ext: Signature)
    requires Admit(req).Some?
    ensures Encode(Stamp(req, ts, sig, ext)) == Some(AtTime(Admit(req).value.signBytes, ts))
  {
  }

  /**
    Released messages verify: whatever path the call took, the signature covers exactly the bytes
    the returned message encodes to, and the extension signature the message's extension.
   */
  lemma ReleasedMessagesVerify(sign: Payload -> Signature, n: nat, steps: seq<Step>, c: nat)
    requires c < |Run(sign, n, steps).calls| && Run(sign, n, steps).calls[c].pc.Released?
    ensures var m := Message(Run(sign, n, steps).calls[c]);
      && Encode(m).Some?
      && (m.VoteRequest? ==> m.vote.signature == sign(Canonical(Encode(m).value)))
      && (m.ProposalRequest? ==> m.proposal.signature == sign(Canonical(Encode(m).value)))
      && (m.VoteRequest? ==>
            m.vote.extensionSignature ==
              (if NonNilPrecommit(m.vote) then sign(Extension(VoteExtensionSignBytes(m.chain, m.vote))) else []))
  {
    var s := Run(sign, n, steps);
    RunKeepsInv(sign, n, steps);
    var x := s.calls[c];
    assert CallOk(sign, s.log, s.proposals, x);
    StampEncodes(x.request, x.pc.ts, x.pc.sig, x.pc.ext);
  }

  /** A non-empty signature gets into the state only through a commit entry of the log. */
  lemma HeldSignatureIsCommitted(log: seq<Command>, chain: string, m: Hrs, b: SignBytes, sig: Signature)
    requires SignatureHeld(log, chain, m, b, sig) && sig != []
    ensures Commit(chain, m, b, sig) in log
  {
    var i: nat :| i <= |log| && HeldAt(log, i, chain, m, b) && Replay(log[..i]).marks[chain].signature == sig;
    var st := Replay(log[..i]).marks[chain];
    var first := ReplayDecides(log[..i], chain);
    var k :| first < k < i && FirstSignature(log[..i], chain, st, first, k);
    assert log[k] == Commit(chain, m, b, sig);
  }

  /** Extension after commit: when an extension was signed, the log already held the canonical signature. */
  lemma ExtensionAfterCommit(sign: Payload -> Signature, n: nat, steps: seq<Step>, x: nat)
    requires x < |Run(sign, n, steps).extended|
    ensures var s := Run(sign, n, steps);
      var e := s.extended[x];
      && e.call < |s.calls| && e.logLength <= |s.log|
      && WantsExtension(s.calls[e.call].request) && Admit(s.calls[e.call].request).Some?
      && var ask := Admit(s.calls[e.call].request).value;
         && ask.mark == Hrs(s.calls[e.call].request.vote.height, s.calls[e.call].request.vote.round, STEP_PRECOMMIT)
         && SignatureHeld(s.log[..e.logLength], ask.chain, ask.mark, AtTime(ask.signBytes, e.ts), e.sig)
         && e.sig == sign(Canonical(AtTime(ask.signBytes, e.ts)))
         && (e.sig != [] ==> Commit(ask.chain, ask.mark, AtTime(ask.signBytes, e.ts), e.sig) in s.log[..e.logLength])
  {
    var s := Run(sign, n, steps);
    RunKeepsInv(sign, n, steps);
    var e := s.extended[x];
    assert ExtensionOk(sign, s.log, s.calls, e);
    var ask := Admit(s.calls[e.call].request).value;
    if e.sig != [] {
      HeldSignatureIsCommitted(s.log[..e.logLength], ask.chain, ask.mark, AtTime(ask.signBytes, e.ts), e.sig);
    }
  }

  /** Each accepted non-nil precommit made exactly one extension signature, each other result none. */
  lemma OneExtensionPerPrecommit(sign: Payload -> Signature, n: nat, steps: seq<Step>, c: nat)
    requires c < |Run(sign, n, steps).calls|
    ensures var s := Run(sign, n, steps);
      && (s.calls[c].pc.Released? ==>
            ExtensionCount(s.extended, c) == if WantsExtension(s.calls[c].request) then 1 else 0)
      && ExtensionCount(s.extended, c) <= 1
  {
    var s := Run(sign, n, steps);
    RunKeepsInv(sign, n, steps);
    assert CountOk(s.extended, c, s.calls[c]);
  }

  /** Every identity ever returned, on any replica, is the one of the log's first valid init command. */
  lemma IdentityAgreement(sign: Payload -> Signature, n: nat, steps: seq<Step>, k: nat)
    requires k < |Run(sign, n, steps).identities|
    ensures var s := Run(sign, n, steps); s.identities[k] == FirstIdentity(s.log) && s.identities[k] != ""
  {
    RunKeepsInv(sign, n, steps);
  }

  /** Replicas agree: each is the replay of a prefix of the one log, however it got there. */
  lemma ReplicasAgree(sign: Payload -> Signature, n: nat, steps: seq<Step>, r: nat)
    requires r < |Run(sign, n, steps).replicas|
    ensures var s := Run(sign, n, steps);
      s.replicas[r].applied <= |s.log| && s.replicas[r].fsm == Replay(s.log[..s.replicas[r].applied])
  {
    var s := Run(sign, n, steps);
    RunKeepsInv(sign, n, steps);
    assert ReplicaOk(s.log, s.replicas[r]);
  }

  /** Histories only grow, and what a call released it has released for good. */
  lemma ExecGrows(sign: Payload -> Signature, s: Cluster, step: Step)
    ensures s.log <= Exec(sign, s, step).log
    ensures s.signed <= Exec(sign, s, step).signed
    ensures s.extended <= Exec(sign, s, step).extended
    ensures s.identities <= Exec(sign, s, step).identities
    ensures |s.calls| <= |Exec(sign, s, step).calls|
    ensures forall c :: 0 <= c < |s.calls| && s.calls[c].pc.Released? ==> Exec(sign, s, step).calls[c] == s.calls[c]
  {
    if IsCallStep(step) && step.call < |s.calls| && Admit(s.calls[step.call].request).Some? {
      CallStepGrows(sign, s, step);
    }
  }

  lemma CallStepGrows(sign: Payload -> Signature, s: Cluster, step: Step)
    requires IsCallStep(step) && step.call < |s.calls| && Admit(s.calls[step.call].request).Some?
    ensures var t := CallStep(sign, s, step);
      && s.log == t.log && s.signed <= t.signed && s.extended <= t.extended && s.identities == t.identities
      && |s.calls| == |t.calls|
      && forall c :: 0 <= c < |s.calls| && s.calls[c].pc.Released? ==> t.calls[c] == s.calls[c]
  {
  }

  /** The later state has kept all that the earlier one had signed, released and identified. */
  predicate Grown(s: Cluster, t: Cluster) {
    && s.log <= t.log && s.signed <= t.signed && s.extended <= t.extended && s.identities <= t.identities
    && |s.calls| <= |t.calls|
    && forall c :: 0 <= c < |s.calls| && s.calls[c].pc.Released? ==> t.calls[c] == s.calls[c]
  }

  lemma GrowsFurther(sign: Payload -> Signature, s: Cluster, t: Cluster, step: Step) returns (u: Cluster)
    requires Grown(s, t)
    ensures u == Exec(sign, t, step) && Grown(s, u)
  {
    u := Exec(sign, t, step);
    ExecGrows(sign, t, step);
  }

  lemma {:induction false} GrownTo(sign: Payload -> Signature, n: nat, steps: seq<Step>, longer: seq<Step>)
    requires steps <= longer
    ensures Grown(Run(sign, n, steps), Run(sign, n, longer))
    decreases |longer|
  {
    if steps != longer {
      var front := longer[..|longer| - 1];
      GrownTo(sign, n, steps, front);
      var u := GrowsFurther(sign, Run(sign, n, steps), Run(sign, n, front), longer[|longer| - 1]);
    }
  }

  /** Nothing a run signed, released or identified is undone by any continuation. */
  lemma RunGrows(sign: Payload -> Signature, n: nat, steps: seq<Step>, more: seq<Step>)
    ensures var s, t := Run(sign, n, steps), Run(sign, n, steps + more);
      && s.log <= t.log && s.signed <= t.signed && s.extended <= t.extended && s.identities <= t.identities
      && |s.calls| <= |t.calls|
      && forall c :: 0 <= c < |s.calls| && s.calls[c].pc.Released? ==> t.calls[c] == s.calls[c]
  {
    GrownTo(sign, n, steps, steps + more);
  }
}
