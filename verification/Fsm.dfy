/**
  The replicated state machine holding one high-water-mark per chain, as a
  function of the committed command log.
 */
module Fsm {
  import opened Wrappers
  import opened Messages
  import ClusterId

  /** The last signature decision of a chain.  An empty signature means reserved, not yet signed. */
  datatype SignState = SignState(mark: Hrs, signBytes: SignBytes, signature: Signature, timestamp: Time)

  datatype Command =
    | Reserve(chain: string, mark: Hrs, signBytes: SignBytes, timestamp: Time)
    | Commit(chain: string, mark: Hrs, signBytes: SignBytes, signature: Signature)
    | InitCluster(clusterId: string)
    | UnknownOp
    | Undecodable

  datatype FsmError =
    | Regression
    | Conflict
    | StaleCommit
    | CommitBytesMismatch
    | CommitSignatureMismatch
    | InvalidClusterId
    | UnknownOperation
    | BadCommand

  datatype Response =
    | Proceed(signBytes: SignBytes, timestamp: Time)
    | Reuse(signature: Signature, timestamp: Time)
    | Committed
    | Identity(clusterId: string)
    | Refused(error: FsmError)

  /** An empty cluster ID means not initialised. */
  datatype FsmState = FsmState(clusterId: string, marks: map<string, SignState>)

  const EMPTY := FsmState("", map[])

  function Get(s: FsmState, chain: string): Option<SignState> {
    if chain in s.marks then Some(s.marks[chain]) else None
  }

  predicate Less(a: Hrs, b: Hrs) {
    || a.height < b.height
    || (a.height == b.height && a.round < b.round)
    || (a.height == b.height && a.round == b.round && a.step < b.step)
  }

  /** -1 if the request regresses below the mark, 0 if it is at the mark, 1 if it advances it. */
  function CompareHrs(cur: Option<SignState>, m: Hrs): (r: int)
    ensures r == -1 <==> cur.Some? && Less(m, cur.value.mark)
    ensures r == 0 <==> cur.Some? && m == cur.value.mark
    ensures r == 1 <==> cur.Some? ==> Less(cur.value.mark, m)
  {
    if cur.None? then 1
    else if m.height < cur.value.mark.height then -1
    else if m.height > cur.value.mark.height then 1
    else if m.round < cur.value.mark.round then -1
    else if m.round > cur.value.mark.round then 1
    else if m.step < cur.value.mark.step then -1
    else if m.step > cur.value.mark.step then 1
    else 0
  }

  /** The previous timestamp, when both payloads decode at this step and agree on all the rest. */
  function OnlyDiffersByTimestamp(last: SignBytes, next: SignBytes, step: int): (r: Option<Time>)
    ensures r.Some? ==> last == AtTime(next, r.value)
    ensures r.Some? ==> WellTimed(last, step, r.value)
  {
    if step == STEP_PROPOSE then
      if last.ProposalBytes? && next.ProposalBytes? && last.proposalBody == next.proposalBody
      then Some(last.ts) else None
    else
      if last.VoteBytes? && next.VoteBytes? && last.voteBody == next.voteBody
      then Some(last.ts) else None
  }

  function ApplyReserve(s: FsmState, c: Command): (FsmState, Response)
    requires c.Reserve?
  {
    var cur := Get(s, c.chain);
    var order := CompareHrs(cur, c.mark);
    if order == -1 then (s, Refused(Regression))
    else if order == 0 then
      if cur.value.signBytes == c.signBytes then
        if |cur.value.signature| > 0
        then (s, Reuse(cur.value.signature, cur.value.timestamp))
        else (s, Proceed(cur.value.signBytes, cur.value.timestamp))
      else
        match OnlyDiffersByTimestamp(cur.value.signBytes, c.signBytes, c.mark.step)
        case Some(ts) =>
          if |cur.value.signature| > 0
          then (s, Reuse(cur.value.signature, ts))
          else (s, Proceed(cur.value.signBytes, ts))
        case None => (s, Refused(Conflict))
    else
      (s.(marks := s.marks[c.chain := SignState(c.mark, c.signBytes, [], c.timestamp)]),
       Proceed(c.signBytes, c.timestamp))
  }

  function ApplyCommit(s: FsmState, c: Command): (FsmState, Response)
    requires c.Commit?
  {
    var cur := Get(s, c.chain);
    if cur.None? || cur.value.mark != c.mark then (s, Refused(StaleCommit))
    else if cur.value.signBytes != c.signBytes then (s, Refused(CommitBytesMismatch))
    else if |cur.value.signature| > 0 then
      if cur.value.signature != c.signature then (s, Refused(CommitSignatureMismatch)) else (s, Committed)
    else
      (s.(marks := s.marks[c.chain := cur.value.(signature := c.signature)]), Committed)
  }

  function ApplyInitCluster(s: FsmState, c: Command): (FsmState, Response)
    requires c.InitCluster?
  {
    if !ClusterId.Valid(c.clusterId) then (s, Refused(InvalidClusterId))
    else
      var t := if s.clusterId == "" then s.(clusterId := c.clusterId) else s;
      (t, Identity(t.clusterId))
  }

  function Apply(s: FsmState, c: Command): (FsmState, Response) {
    match c
    case Reserve(_, _, _, _) => ApplyReserve(s, c)
    case Commit(_, _, _, _) => ApplyCommit(s, c)
    case InitCluster(_) => ApplyInitCluster(s, c)
    case UnknownOp => (s, Refused(UnknownOperation))
    case Undecodable => (s, Refused(BadCommand))
  }

  /** The state after a whole committed log. */
  function Replay(log: seq<Command>): FsmState {
    if log == [] then EMPTY else Apply(Replay(log[..|log| - 1]), log[|log| - 1]).0
  }

  /** What the entry at index i of the log is answered with. */
  function ResponseAt(log: seq<Command>, i: nat): Response
    requires i < |log|
  {
    Apply(Replay(log[..i]), log[i]).1
  }

  lemma ReplayStep(log: seq<Command>, i: nat)
    requires i < |log|
    ensures Replay(log[..i + 1]) == Apply(Replay(log[..i]), log[i]).0
  {
    assert log[..i + 1][..i] == log[..i];
  }

  // ---------------------------------------------------------------- order of marks

  /**
    How a chain's entry may change: the mark rises, or at the same mark the bytes and the
    timestamp stay and an empty signature may be filled in, once.
   */
  predicate Evolves(before: Option<SignState>, after: Option<SignState>) {
    before.Some? ==>
      && after.Some?
      && (|| Less(before.value.mark, after.value.mark)
          || (&& before.value.mark == after.value.mark
              && before.value.signBytes == after.value.signBytes
              && before.value.timestamp == after.value.timestamp
              && (before.value.signature != [] ==> before.value.signature == after.value.signature)))
  }

  lemma EvolvesTransitive(a: Option<SignState>, b: Option<SignState>, c: Option<SignState>)
    requires Evolves(a, b) && Evolves(b, c)
    ensures Evolves(a, c)
  {
  }

  lemma ApplyEvolves(s: FsmState, c: Command, chain: string)
    ensures Evolves(Get(s, chain), Get(Apply(s, c).0, chain))
  {
  }

  /** Over every log, between any two points, a chain's entry only evolves. */
  lemma {:induction false} MarkNeverRegresses(log: seq<Command>, i: nat, j: nat, chain: string)
    requires i <= j <= |log|
    ensures Evolves(Get(Replay(log[..i]), chain), Get(Replay(log[..j]), chain))
    decreases j
  {
    if i < j {
      MarkNeverRegresses(log, i, j - 1, chain);
      ReplayStep(log, j - 1);
      ApplyEvolves(Replay(log[..j - 1]), log[j - 1], chain);
      EvolvesTransitive(Get(Replay(log[..i]), chain), Get(Replay(log[..j - 1]), chain), Get(Replay(log[..j]), chain));
    }
  }

  // ---------------------------------------------------------------- the declarative meaning of a log

  predicate ReservesIn(c: Command, chain: string) {
    c.Reserve? && c.chain == chain
  }

  predicate SignsFor(c: Command, chain: string, st: SignState) {
    c.Commit? && c.chain == chain && c.mark == st.mark && c.signBytes == st.signBytes && c.signature != []
  }

  /**
    The entry st is what the log decided for the chain: entry i of the log is the first reservation
    at the highest mark ever reserved, and it fixes the bytes and the timestamp; the signature is
    that of the first non-empty commit for these bytes after i, or empty when there is none.
   */
  ghost predicate Decided(log: seq<Command>, chain: string, st: SignState, i: nat) {
    && i < |log|
    && log[i] == Reserve(chain, st.mark, st.signBytes, st.timestamp)
    && (forall j :: 0 <= j < |log| && ReservesIn(log[j], chain) ==>
          && (j < i ==> Less(log[j].mark, st.mark))
          && !Less(st.mark, log[j].mark))
    && (if st.signature == []
        then forall j :: i < j < |log| ==> !SignsFor(log[j], chain, st)
        else exists k :: i < k < |log| && FirstSignature(log, chain, st, i, k))
  }

  ghost predicate FirstSignature(log: seq<Command>, chain: string, st: SignState, i: nat, k: nat)
    requires i < k < |log|
  {
    && SignsFor(log[k], chain, st) && log[k].signature == st.signature
    && forall j :: i < j < k ==> !SignsFor(log[j], chain, st)
  }

  /** The state after a log is exactly the log's decision, chain by chain. */
  lemma {:induction false} ReplayDecides(log: seq<Command>, chain: string) returns (i: nat)
    ensures Get(Replay(log), chain).None? <==> forall j :: 0 <= j < |log| ==> !ReservesIn(log[j], chain)
    ensures Get(Replay(log), chain).Some? ==> Decided(log, chain, Get(Replay(log), chain).value, i)
  {
    i := 0;
    if log != [] {
      var n := |log| - 1;
      var front := log[..n];
      var c := log[n];
      i := ReplayDecides(front, chain);
      assert forall j :: 0 <= j < n ==> front[j] == log[j];
      var before := Get(Replay(front), chain);
      var after := Get(Replay(log), chain);
      ApplyCases(Replay(front), c, chain);
      if before == after {
        if before.Some? { KeepsDecision(log, chain, before.value, i); }
      } else if c.Reserve? {
        NewDecision(log, chain, before, after.value, i);
        i := n;
      } else {
        SignsDecision(log, chain, before.value, i);
      }
    }
  }

  /** How one command may change a chain's entry: not at all, by a higher mark, or by its first signature. */
  lemma ApplyCases(s: FsmState, c: Command, chain: string)
    ensures var before, after := Get(s, chain), Get(Apply(s, c).0, chain);
      if before == after then
        && (before.None? ==> !ReservesIn(c, chain))
        && (before.Some? && ReservesIn(c, chain) ==> !Less(before.value.mark, c.mark))
        && (before.Some? && before.value.signature == [] ==> !SignsFor(c, chain, before.value))
      else if c.Reserve? then
        && c.chain == chain && after == Some(SignState(c.mark, c.signBytes, [], c.timestamp))
        && (before.Some? ==> Less(before.value.mark, c.mark))
      else
        && before.Some? && before.value.signature == [] && SignsFor(c, chain, before.value)
        && after == Some(before.value.(signature := c.signature))
  {
  }

  /** A last entry that reserves above everything before it is the decision. */
  lemma NewDecision(log: seq<Command>, chain: string, before: Option<SignState>, st: SignState, i: nat)
    requires log != [] && log[|log| - 1] == Reserve(chain, st.mark, st.signBytes, st.timestamp) && st.signature == []
    requires before.None? ==> forall j :: 0 <= j < |log| - 1 ==> !ReservesIn(log[j], chain)
    requires before.Some? ==> Decided(log[..|log| - 1], chain, before.value, i) && Less(before.value.mark, st.mark)
    ensures Decided(log, chain, st, |log| - 1)
  {
    var front := log[..|log| - 1];
    assert forall j :: 0 <= j < |front| ==> front[j] == log[j];
  }

  /** A last entry that is the first non-empty commit for the decided bytes adds its signature. */
  lemma SignsDecision(log: seq<Command>, chain: string, st: SignState, i: nat)
    requires log != [] && Decided(log[..|log| - 1], chain, st, i) && st.signature == []
    requires SignsFor(log[|log| - 1], chain, st)
    ensures Decided(log, chain, st.(signature := log[|log| - 1].signature), i)
  {
    var front := log[..|log| - 1];
    assert forall j :: 0 <= j < |front| ==> front[j] == log[j];
    assert FirstSignature(log, chain, st.(signature := log[|log| - 1].signature), i, |log| - 1);
  }

  /** A last entry that changes nothing keeps the decision of the rest. */
  lemma KeepsDecision(log: seq<Command>, chain: string, st: SignState, i: nat)
    requires log != [] && Decided(log[..|log| - 1], chain, st, i)
    requires ReservesIn(log[|log| - 1], chain) ==> !Less(st.mark, log[|log| - 1].mark)
    requires st.signature == [] ==> !SignsFor(log[|log| - 1], chain, st)
    ensures Decided(log, chain, st, i)
  {
    var front := log[..|log| - 1];
    assert forall j :: 0 <= j < |front| ==> front[j] == log[j];
    if st.signature != [] {
      var k :| i < k < |front| && FirstSignature(front, chain, st, i, k);
      assert FirstSignature(log, chain, st, i, k);
    }
  }

  /** A log decides at most one entry for a chain, and it is the state's. */
  lemma DecisionIsState(log: seq<Command>, chain: string, st: SignState, i: nat)
    requires Decided(log, chain, st, i)
    ensures Get(Replay(log), chain) == Some(st)
  {
    var j := ReplayDecides(log, chain);
    assert ReservesIn(log[i], chain);
    var mine := Get(Replay(log), chain).value;
    assert i == j && mine.mark == st.mark by {
      assert ReservesIn(log[j], chain);
    }
    SignatureIsDecided(log, chain, st, mine, i);
  }

  lemma SignatureIsDecided(log: seq<Command>, chain: string, st: SignState, other: SignState, i: nat)
    requires Decided(log, chain, st, i) && Decided(log, chain, other, i)
    ensures st == other
  {
    if st.signature != [] && other.signature != [] {
      var k :| i < k < |log| && FirstSignature(log, chain, st, i, k);
      var l :| i < l < |log| && FirstSignature(log, chain, other, i, l);
      assert k == l;
    }
  }

  // ---------------------------------------------------------------- what each entry is answered

  /** No entry of the log reserves for the chain. */
  predicate Untouched(log: seq<Command>, chain: string) {
    forall j :: 0 <= j < |log| ==> !ReservesIn(log[j], chain)
  }

  /** The bytes decode as the kind of message this step is for. */
  predicate Decodes(b: SignBytes, step: int) {
    !b.Junk? && (b.ProposalBytes? <==> step == STEP_PROPOSE)
  }

  /** The same bytes, or the same message at two times. */
  predicate SameButTime(a: SignBytes, b: SignBytes, step: int) {
    a == b || (Decodes(a, step) && Decodes(b, step) && AtTime(a, 0) == AtTime(b, 0))
  }

  /**
    How a reservation is answered, from the log alone: st is what the log decided for the chain.  Below the
    mark it is a regression; at the mark another message is a conflict, and the same one gets the decided
    bytes, with their signature once there is one; above the mark it gets its own.
   */
  lemma ReserveIsAnswered(log: seq<Command>, c: Command, st: SignState, i: nat)
    requires c.Reserve? && Decided(log, c.chain, st, i)
    ensures var r := Apply(Replay(log), c).1;
      && (r == Refused(Regression) <==> Less(c.mark, st.mark))
      && (r == Refused(Conflict) <==> c.mark == st.mark && !SameButTime(st.signBytes, c.signBytes, c.mark.step))
      && (r.Refused? ==> r.error == Regression || r.error == Conflict)
      && (r.Reuse? <==>
            c.mark == st.mark && SameButTime(st.signBytes, c.signBytes, c.mark.step) && st.signature != [])
      && (r.Reuse? ==> r.signature == st.signature)
      && (r.Proceed? <==>
            || Less(st.mark, c.mark)
            || (c.mark == st.mark && SameButTime(st.signBytes, c.signBytes, c.mark.step) && st.signature == []))
      && (r.Proceed? ==> r.signBytes == if c.mark == st.mark then st.signBytes else c.signBytes)
      && (r.Proceed? || r.Reuse? ==>
            r.timestamp == if Less(st.mark, c.mark) then c.timestamp
                           else if st.signBytes == c.signBytes then st.timestamp else st.signBytes.ts)
  {
    DecisionIsState(log, c.chain, st, i);
  }

  /** The first reservation of a chain gets its own bytes. */
  lemma FirstReserveIsAnswered(log: seq<Command>, c: Command)
    requires c.Reserve? && Untouched(log, c.chain)
    ensures Apply(Replay(log), c).1 == Proceed(c.signBytes, c.timestamp)
  {
    var i := ReplayDecides(log, c.chain);
  }

  /**
    How a commit is answered, from the log alone: it is accepted if and only if the mark and the bytes are
    the decided ones and no other signature was written for them; a repeated commit is accepted again.
   */
  lemma CommitIsAnswered(log: seq<Command>, c: Command, st: SignState, i: nat)
    requires c.Commit? && Decided(log, c.chain, st, i)
    ensures var r := Apply(Replay(log), c).1;
      && (r == Committed <==>
            && c.mark == st.mark && c.signBytes == st.signBytes
            && (st.signature == [] || st.signature == c.signature))
      && (r == Refused(StaleCommit) <==> c.mark != st.mark)
      && (r == Refused(CommitBytesMismatch) <==> c.mark == st.mark && c.signBytes != st.signBytes)
      && (r == Refused(CommitSignatureMismatch) <==>
            && c.mark == st.mark && c.signBytes == st.signBytes
            && st.signature != [] && st.signature != c.signature)
  {
    DecisionIsState(log, c.chain, st, i);
  }

  /** A commit for a chain nobody reserved for is stale. */
  lemma FirstCommitIsAnswered(log: seq<Command>, c: Command)
    requires c.Commit? && Untouched(log, c.chain)
    ensures Apply(Replay(log), c).1 == Refused(StaleCommit)
  {
    var i := ReplayDecides(log, c.chain);
  }

  /** An init command is answered with the identity the log then has, unless its ID is invalid. */
  lemma InitIsAnswered(log: seq<Command>, id: string)
    ensures var r := Apply(Replay(log), InitCluster(id)).1;
      && (r == Refused(InvalidClusterId) <==> !ClusterId.Valid(id))
      && (ClusterId.Valid(id) ==> r == Identity(if FirstIdentity(log) == "" then id else FirstIdentity(log)))
  {
    ReplayIdentity(log);
  }

  /** Entries that are no command change nothing and are refused for what they are. */
  lemma OthersAreRefused(log: seq<Command>)
    ensures Apply(Replay(log), UnknownOp) == (Replay(log), Refused(UnknownOperation))
    ensures Apply(Replay(log), Undecodable) == (Replay(log), Refused(BadCommand))
  {
  }

  // ---------------------------------------------------------------- independence of chains

  function ChainOf(c: Command): Option<string> {
    match c
    case Reserve(chain, _, _, _) => Some(chain)
    case Commit(chain, _, _, _) => Some(chain)
    case _ => None
  }

  /** The commands of one chain, in order. */
  function OnlyChain(log: seq<Command>, chain: string): seq<Command> {
    if log == [] then []
    else
      var rest := OnlyChain(log[..|log| - 1], chain);
      if ChainOf(log[|log| - 1]) == Some(chain) then rest + [log[|log| - 1]] else rest
  }

  /** What a chain's command does, and is answered, depends on that chain's entry alone. */
  lemma ApplyIsLocal(s: FsmState, t: FsmState, c: Command, chain: string)
    requires Get(s, chain) == Get(t, chain)
    ensures ChainOf(c) == Some(chain) ==> Apply(s, c).1 == Apply(t, c).1
    ensures ChainOf(c) == Some(chain) ==> Get(Apply(s, c).0, chain) == Get(Apply(t, c).0, chain)
    ensures ChainOf(c) != Some(chain) ==> Get(Apply(s, c).0, chain) == Get(s, chain)
  {
  }

  /** A chain's entry, and the answer to its next command, are those of its own commands alone. */
  lemma {:induction false} ChainsAreIndependent(log: seq<Command>, chain: string, next: Command)
    ensures Get(Replay(log), chain) == Get(Replay(OnlyChain(log, chain)), chain)
    ensures ChainOf(next) == Some(chain) ==>
      Apply(Replay(log), next).1 == Apply(Replay(OnlyChain(log, chain)), next).1
  {
    var own := OnlyChain(log, chain);
    if log != [] {
      var n := |log| - 1;
      var before := OnlyChain(log[..n], chain);
      ChainsAreIndependent(log[..n], chain, log[n]);
      ApplyIsLocal(Replay(log[..n]), Replay(before), log[n], chain);
      if ChainOf(log[n]) == Some(chain) {
        assert own[..|own| - 1] == before;
      }
    }
    ApplyIsLocal(Replay(log), Replay(own), next, chain);
  }

  // ---------------------------------------------------------------- identity

  /** The cluster ID of the first valid init command, or empty. */
  function FirstIdentity(log: seq<Command>): string {
    if log == [] then ""
    else
      var earlier := FirstIdentity(log[..|log| - 1]);
      var c := log[|log| - 1];
      if earlier == "" && c.InitCluster? && ClusterId.Valid(c.clusterId) then c.clusterId else earlier
  }

  lemma IdentityAnswer(s: FsmState, c: Command)
    ensures Apply(s, c).1.Identity? ==>
      Apply(s, c).1.clusterId == Apply(s, c).0.clusterId && Apply(s, c).0.clusterId != ""
  {
  }

  lemma {:induction false} ReplayIdentity(log: seq<Command>)
    ensures Replay(log).clusterId == FirstIdentity(log)
    ensures FirstIdentity(log) != "" ==> ClusterId.Valid(FirstIdentity(log))
  {
    if log != [] {
      ReplayIdentity(log[..|log| - 1]);
    }
  }

  /** An initialised identity is the identity of every longer log. */
  lemma {:induction false} IdentityIsStable(log: seq<Command>, i: nat)
    requires i <= |log|
    ensures FirstIdentity(log[..i]) != "" ==> FirstIdentity(log) == FirstIdentity(log[..i])
    decreases |log|
  {
    if i < |log| {
      var front := log[..|log| - 1];
      IdentityIsStable(front, i);
      assert front[..i] == log[..i];
    } else {
      assert log[..i] == log;
    }
  }
}
