/**
  Consensus messages and their canonical sign-bytes.

  Sign-bytes are kept as the decoded value of the protobuf encoding: a byte
  string is the encoding of one canonical vote, of one canonical proposal, or it
  decodes as neither.  Distinct values stand for distinct byte strings.
 */
module Messages {
  import opened Wrappers

  type Time = int
  type Bytes = seq<int>
  type Signature = seq<int>

  // Consensus steps, in the order the protocol takes them.
  const STEP_PROPOSE := 1
  const STEP_PREVOTE := 2
  const STEP_PRECOMMIT := 3

  // Wire values of the two vote types.
  const PREVOTE_TYPE := 1
  const PRECOMMIT_TYPE := 2

  /** A malformed block ID makes canonicalisation panic; the panic is recovered into an error. */
  datatype BlockId = NilBlock | Block(hash: Bytes) | MalformedBlock

  datatype Vote = Vote(
    kind: int, height: int, round: int, block: BlockId, timestamp: Time,
    extension: Bytes, signature: Signature, extensionSignature: Signature)

  datatype Proposal = Proposal(
    height: int, round: int, polRound: int, block: BlockId, timestamp: Time, signature: Signature)

  /** What a canonical vote or proposal says, without its timestamp. */
  datatype VoteBody = VoteBody(chain: string, kind: int, height: int, round: int, block: BlockId)
  datatype ProposalBody = ProposalBody(chain: string, height: int, round: int, polRound: int, block: BlockId)

  datatype SignBytes =
    | VoteBytes(voteBody: VoteBody, ts: Time)
    | ProposalBytes(proposalBody: ProposalBody, ts: Time)
    | Junk(raw: Bytes)

  /** Sign-bytes of a vote extension; it is never gated by the replicated mark. */
  datatype ExtensionBytes = ExtensionBytes(chain: string, height: int, round: int, extension: Bytes)

  /** Everything the key backend is ever asked to sign while serving. */
  datatype Payload = Canonical(signBytes: SignBytes) | Extension(extensionBytes: ExtensionBytes)

  function VoteSignBytes(chain: string, v: Vote): Option<SignBytes> {
    if v.block.MalformedBlock? then None
    else Some(VoteBytes(VoteBody(chain, v.kind, v.height, v.round, v.block), v.timestamp))
  }

  function ProposalSignBytes(chain: string, p: Proposal): Option<SignBytes> {
    if p.block.MalformedBlock? then None
    else Some(ProposalBytes(ProposalBody(chain, p.height, p.round, p.polRound, p.block), p.timestamp))
  }

  function VoteExtensionSignBytes(chain: string, v: Vote): ExtensionBytes {
    ExtensionBytes(chain, v.height, v.round, v.extension)
  }

  function VoteToStep(v: Vote): Option<int> {
    if v.kind == PREVOTE_TYPE then Some(STEP_PREVOTE)
    else if v.kind == PRECOMMIT_TYPE then Some(STEP_PRECOMMIT)
    else None
  }

  predicate NonNilPrecommit(v: Vote) {
    v.kind == PRECOMMIT_TYPE && !v.block.NilBlock?
  }

  /** One height/round/step of one chain. */
  datatype Hrs = Hrs(height: int, round: int, step: int)

  /** A request as it reaches the signer; the two nil pointers are one case each. */
  datatype Request =
    | NilVote
    | NilProposal
    | VoteRequest(chain: string, vote: Vote)
    | ProposalRequest(chain: string, proposal: Proposal)

  /** What an admitted request asks the gate to reserve. */
  datatype Ask = Ask(chain: string, mark: Hrs, signBytes: SignBytes, ts: Time)

  /** The checks made before the gate: unknown vote type, misplaced extension, malformed block ID. */
  function Admit(req: Request): Option<Ask> {
    match req
    case NilVote => None
    case NilProposal => None
    case VoteRequest(chain, v) =>
      (match VoteToStep(v)
       case None => None
       case Some(step) =>
         if |v.extension| > 0 && !NonNilPrecommit(v) then None
         else match VoteSignBytes(chain, v)
              case None => None
              case Some(b) => Some(Ask(chain, Hrs(v.height, v.round, step), b, v.timestamp)))
    case ProposalRequest(chain, p) =>
      match ProposalSignBytes(chain, p)
      case None => None
      case Some(b) => Some(Ask(chain, Hrs(p.height, p.round, STEP_PROPOSE), b, p.timestamp))
  }

  /** The caller's message with its signature fields filled in. */
  function Stamp(req: Request, ts: Time, sig: Signature, ext: Signature): Request {
    match req
    case VoteRequest(chain, v) =>
      VoteRequest(chain, v.(timestamp := ts, signature := sig, extensionSignature := ext))
    case ProposalRequest(chain, p) =>
      ProposalRequest(chain, p.(timestamp := ts, signature := sig))
    case _ => req
  }

  /** The sign-bytes of a message as any verifier re-encodes them. */
  function Encode(req: Request): Option<SignBytes> {
    match req
    case VoteRequest(chain, v) => VoteSignBytes(chain, v)
    case ProposalRequest(chain, p) => ProposalSignBytes(chain, p)
    case _ => None
  }

  /** The same message at another time. */
  function AtTime(b: SignBytes, t: Time): SignBytes {
    match b
    case VoteBytes(body, _) => VoteBytes(body, t)
    case ProposalBytes(body, _) => ProposalBytes(body, t)
    case Junk(_) => b
  }

  /** Bytes that decode at the given step and carry the given timestamp. */
  predicate WellTimed(b: SignBytes, step: int, t: Time) {
    && !b.Junk?
    && (b.ProposalBytes? <==> step == STEP_PROPOSE)
    && b.ts == t
  }

  // ---------------------------------------------------------------- what the sign-bytes keep apart

  /** The sign-bytes of a vote say its chain, type, height, round, block and time, and nothing else. */
  lemma VoteBytesSeparate(c: string, v: Vote, d: string, w: Vote)
    requires VoteSignBytes(c, v).Some? && VoteSignBytes(d, w).Some?
    ensures VoteSignBytes(c, v) == VoteSignBytes(d, w) <==>
      (&& c == d && v.kind == w.kind && v.height == w.height && v.round == w.round
       && v.block == w.block && v.timestamp == w.timestamp)
  {
  }

  /** The sign-bytes of a proposal say its chain, height, round, POL round, block and time. */
  lemma ProposalBytesSeparate(c: string, p: Proposal, d: string, q: Proposal)
    requires ProposalSignBytes(c, p).Some? && ProposalSignBytes(d, q).Some?
    ensures ProposalSignBytes(c, p) == ProposalSignBytes(d, q) <==>
      (&& c == d && p.height == q.height && p.round == q.round && p.polRound == q.polRound
       && p.block == q.block && p.timestamp == q.timestamp)
  {
  }

  /** The sign-bytes of an extension say its chain, height, round and content. */
  lemma ExtensionBytesSeparate(c: string, v: Vote, d: string, w: Vote)
    ensures VoteExtensionSignBytes(c, v) == VoteExtensionSignBytes(d, w) <==>
      c == d && v.height == w.height && v.round == w.round && v.extension == w.extension
  {
  }

  /** Two messages that say the same, whatever else their senders filled in. */
  predicate SaysTheSame(a: Request, b: Request) {
    || (&& a.VoteRequest? && b.VoteRequest? && a.chain == b.chain
        && a.vote.kind == b.vote.kind && a.vote.height == b.vote.height && a.vote.round == b.vote.round
        && a.vote.block == b.vote.block && a.vote.timestamp == b.vote.timestamp)
    || (&& a.ProposalRequest? && b.ProposalRequest? && a.chain == b.chain
        && a.proposal.height == b.proposal.height && a.proposal.round == b.proposal.round
        && a.proposal.polRound == b.proposal.polRound
        && a.proposal.block == b.proposal.block && a.proposal.timestamp == b.proposal.timestamp)
  }

  /** Two admitted requests have equal sign-bytes if and only if they say the same. */
  lemma EncodingSeparates(a: Request, b: Request)
    requires Encode(a).Some? && Encode(b).Some?
    ensures Encode(a) == Encode(b) <==> SaysTheSame(a, b)
  {
    if a.VoteRequest? && b.VoteRequest? {
      VoteBytesSeparate(a.chain, a.vote, b.chain, b.vote);
    } else if a.ProposalRequest? && b.ProposalRequest? {
      ProposalBytesSeparate(a.chain, a.proposal, b.chain, b.proposal);
    }
  }

  /**
    Exactly which requests are admitted: a proposal, or a prevote (type 1) or precommit (type 2), for a
    well-formed block, with an extension only in a precommit for a block.
   */
  lemma AdmitsExactly(req: Request)
    ensures Admit(req).Some? <==>
      || (req.ProposalRequest? && !req.proposal.block.MalformedBlock?)
      || (&& req.VoteRequest? && (req.vote.kind == 1 || req.vote.kind == 2) && !req.vote.block.MalformedBlock?
          && (req.vote.extension != [] ==> req.vote.kind == 2 && !req.vote.block.NilBlock?))
    ensures Admit(req).Some? ==>
      && Encode(req) == Some(Admit(req).value.signBytes)
      && (req.VoteRequest? ==>
            && Admit(req).value.chain == req.chain && Admit(req).value.ts == req.vote.timestamp
            && Admit(req).value.mark == Hrs(req.vote.height, req.vote.round, req.vote.kind + 1))
      && (req.ProposalRequest? ==>
            && Admit(req).value.chain == req.chain && Admit(req).value.ts == req.proposal.timestamp
            && Admit(req).value.mark == Hrs(req.proposal.height, req.proposal.round, 1))
  {
  }
}
