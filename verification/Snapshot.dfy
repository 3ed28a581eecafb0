/**
  Snapshots of the replicated state: the versioned format, the legacy format that
  carries no identity, and the guard that a restore passes before it replaces
  anything.
 */
module Snapshot {
  import opened Wrappers
  import opened Messages
  import opened Fsm
  import ClusterId

  /** A JSON value decoded as the map of marks; a chain may be mapped to null. */
  datatype StateJson = Malformed | Null | Object(entries: map<string, Option<SignState>>)

  /** The envelope after the magic prefix; absent fields are None. */
  datatype Envelope = BadEnvelope | Envelope(clusterId: Option<string>, state: Option<StateJson>)

  /** A snapshot file: unreadable, versioned (in the known version or another), or legacy. */
  datatype File =
    | Unreadable
    | UnknownVersion
    | Versioned(envelope: Envelope)
    | Legacy(legacyState: StateJson)

  datatype RestoreError =
    | ReadFailed
    | UnsupportedVersion
    | UndecodableSnapshot
    | MissingClusterId
    | BadClusterId
    | MissingState
    | StateNotObject
    | NullChain
    | IdentityMissing
    | IdentityMismatch

  function ToJson(marks: map<string, SignState>): StateJson {
    Object(map chain | chain in marks :: Some(marks[chain]))
  }

  /** The file a snapshot of the state writes. */
  function Take(s: FsmState): File {
    Versioned(Envelope(Some(s.clusterId), Some(ToJson(s.marks))))
  }

  /** The identity and the marks a file describes, before the guard. */
  function Decode(f: File): Result<FsmState, RestoreError> {
    match f
    case Unreadable => Err(ReadFailed)
    case UnknownVersion => Err(UnsupportedVersion)
    case Legacy(json) => DecodeState("", json)
    case Versioned(BadEnvelope) => Err(UndecodableSnapshot)
    case Versioned(Envelope(id, json)) =>
      if id.None? then Err(MissingClusterId)
      else if id.value != "" && !ClusterId.Valid(id.value) then Err(BadClusterId)
      else if json.None? then Err(MissingState)
      else DecodeState(id.value, json.value)
  }

  function DecodeState(id: string, json: StateJson): Result<FsmState, RestoreError> {
    match json
    case Malformed => Err(UndecodableSnapshot)
    case Null => Err(StateNotObject)
    case Object(entries) =>
      if exists chain :: chain in entries && entries[chain].None? then Err(NullChain)
      else Ok(FsmState(id, map chain | chain in entries :: entries[chain].value))
  }

  /** What restoring a file over a state gives: the new state, or the error and no change. */
  function Restored(s: FsmState, f: File): Result<FsmState, RestoreError> {
    match Decode(f)
    case Err(e) => Err(e)
    case Ok(t) =>
      if s.clusterId != "" && t.clusterId != s.clusterId
      then Err(if t.clusterId == "" then IdentityMissing else IdentityMismatch)
      else Ok(t)
  }

  // ---------------------------------------------------------------- properties

  /** Identities the log can produce: none, or a valid ID. */
  predicate GoodIdentity(s: FsmState) {
    s.clusterId != "" ==> ClusterId.Valid(s.clusterId)
  }

  /** The file carries this identity and these entries: it is legacy and has none, or its envelope has both. */
  predicate Carries(f: File, id: string, entries: map<string, Option<SignState>>) {
    || (id == "" && f == Legacy(Object(entries)))
    || f == Versioned(Envelope(Some(id), Some(Object(entries))))
  }

  /** The file carries exactly this state. */
  predicate Describes(f: File, entries: map<string, Option<SignState>>, s: FsmState) {
    && Carries(f, s.clusterId, entries) && (s.clusterId != "" ==> ClusterId.Valid(s.clusterId))
    && entries.Keys == s.marks.Keys
    && forall chain :: chain in entries ==> entries[chain] == Some(s.marks[chain])
  }

  lemma DescribedDecodes(f: File, entries: map<string, Option<SignState>>, s: FsmState)
    requires Describes(f, entries, s)
    ensures Decode(f) == Ok(s)
  {
    assert (map chain | chain in entries :: entries[chain].value) == s.marks;
  }

  /**
    Exactly the files that carry an object without a null chain, under no identity or a valid one, decode;
    and then the marks are exactly the object's entries.
   */
  lemma DecodesExactly(f: File, s: FsmState)
    ensures Decode(f) == Ok(s) <==> exists entries :: Describes(f, entries, s)
  {
    if Decode(f) == Ok(s) {
      var entries := if f.Legacy? then f.legacyState.entries else f.envelope.state.value.entries;
      assert Describes(f, entries, s);
    }
    forall entries | Describes(f, entries, s) ensures Decode(f) == Ok(s) {
      DescribedDecodes(f, entries, s);
    }
  }

  /** A snapshot decodes to the state it was taken of. */
  lemma TakeDecode(s: FsmState)
    ensures GoodIdentity(s) <==> Decode(Take(s)) == Ok(s)
  {
    var entries := ToJson(s.marks).entries;
    assert (map chain | chain in entries :: entries[chain].value) == s.marks;
  }

  /** The guard, in both directions: when a snapshot of t is accepted over s. */
  lemma RestoreAccepts(s: FsmState, t: FsmState)
    requires GoodIdentity(t)
    ensures Restored(s, Take(t)).Ok? <==> (s.clusterId == "" || s.clusterId == t.clusterId)
    ensures Restored(s, Take(t)).Ok? ==> Restored(s, Take(t)).value == t
  {
    TakeDecode(t);
  }

  /** No accepted restore, of any file whatever, changes an initialised identity. */
  lemma RestoreKeepsIdentity(s: FsmState, f: File)
    requires s.clusterId != "" && Restored(s, f).Ok?
    ensures Restored(s, f).value.clusterId == s.clusterId
  {
  }

  /** A legacy snapshot never goes over an initialised identity. */
  lemma LegacyNeedsNoIdentity(s: FsmState, json: StateJson)
    ensures Restored(s, Legacy(json)).Ok? <==> s.clusterId == "" && DecodeState("", json).Ok?
  {
  }

  /**
    A replica that has applied j entries accepts any snapshot of the same log taken at i >= j, and is
    then exactly where replaying i entries would have put it.
   */
  lemma LaterSnapshotAccepted(log: seq<Command>, j: nat, i: nat)
    requires j <= i <= |log|
    ensures Restored(Replay(log[..j]), Take(Replay(log[..i]))) == Ok(Replay(log[..i]))
  {
    ReplayIdentity(log[..j]);
    ReplayIdentity(log[..i]);
    IdentityIsStable(log[..i], j);
    assert log[..i][..j] == log[..j];
    RestoreAccepts(Replay(log[..j]), Replay(log[..i]));
  }

  /** An earlier snapshot is refused exactly when the identity was initialised in between. */
  lemma EarlierSnapshotGuarded(log: seq<Command>, i: nat, j: nat)
    requires i <= j <= |log|
    ensures Restored(Replay(log[..j]), Take(Replay(log[..i]))).Ok? <==>
      (FirstIdentity(log[..i]) == "" ==> FirstIdentity(log[..j]) == "")
  {
    ReplayIdentity(log[..j]);
    ReplayIdentity(log[..i]);
    IdentityIsStable(log[..j], i);
    assert log[..j][..i] == log[..i];
    RestoreAccepts(Replay(log[..j]), Replay(log[..i]));
  }

  /** The state and the answers of a suffix of commands from a given state. */
  function Continue(s: FsmState, suffix: seq<Command>): (FsmState, seq<Response>)
    decreases |suffix|
  {
    if suffix == [] then (s, [])
    else
      var step := Apply(s, suffix[0]);
      var rest := Continue(step.0, suffix[1..]);
      (rest.0, [step.1] + rest.1)
  }

  /** The answers of the whole log to its entries from i on. */
  function ResponsesFrom(log: seq<Command>, i: nat): seq<Response>
    requires i <= |log|
  {
    seq(|log| - i, k requires 0 <= k < |log| - i => ResponseAt(log, i + k))
  }

  lemma ResponsesUnroll(log: seq<Command>, i: nat)
    requires i < |log|
    ensures ResponsesFrom(log, i) == [ResponseAt(log, i)] + ResponsesFrom(log, i + 1)
  {
    var whole, rest := ResponsesFrom(log, i), ResponsesFrom(log, i + 1);
    forall k | 0 <= k < |log| - i ensures whole[k] == ([ResponseAt(log, i)] + rest)[k] {
      assert whole[k] == ResponseAt(log, i + k);
      assert k > 0 ==> rest[k - 1] == ResponseAt(log, i + 1 + (k - 1));
    }
  }

  lemma {:induction false} ContinueIsReplay(log: seq<Command>, i: nat)
    requires i <= |log|
    ensures Continue(Replay(log[..i]), log[i..]).0 == Replay(log)
    ensures Continue(Replay(log[..i]), log[i..]).1 == ResponsesFrom(log, i)
    decreases |log| - i
  {
    if i == |log| {
      assert log[..i] == log;
    } else {
      ReplayStep(log, i);
      ContinueIsReplay(log, i + 1);
      assert log[i..][1..] == log[i + 1..];
      ResponsesUnroll(log, i);
    }
  }

  /**
    Replay equivalence: a replica that lags at any j, restores the snapshot of any later cut i and
    applies the rest, ends in the state of the whole log and answers every entry as replay does.
   */
  lemma ReplayEquivalence(log: seq<Command>, j: nat, i: nat)
    requires j <= i <= |log|
    ensures Restored(Replay(log[..j]), Take(Replay(log[..i]))).Ok?
    ensures var s := Restored(Replay(log[..j]), Take(Replay(log[..i]))).value;
      && Continue(s, log[i..]).0 == Replay(log)
      && Continue(s, log[i..]).1 == ResponsesFrom(log, i)
  {
    LaterSnapshotAccepted(log, j, i);
    ContinueIsReplay(log, i);
  }
}

/** The state machine as the object the consensus library drives. */
module FsmObject {
  import opened Wrappers
  import opened Messages
  import Fsm
  import Snapshot
  import ClusterId

  class Machine {
    var clusterId: string
    var marks: map<string, Fsm.SignState>

    ghost function Abs(): Fsm.FsmState
      reads this
    {
      Fsm.FsmState(clusterId, marks)
    }

    constructor ()
      ensures Abs() == Fsm.EMPTY
    {
      clusterId := "";
      marks := map[];
    }

    /** Applies one committed entry. */
    method Apply(c: Fsm.Command) returns (r: Fsm.Response)
      modifies this
      ensures (Abs(), r) == Fsm.Apply(old(Abs()), c)
    {
      match c
      case Reserve(_, _, _, _) => r := ApplyReserve(c);
      case Commit(_, _, _, _) => r := ApplyCommit(c);
      case InitCluster(id) => r := ApplyInitCluster(id);
      case UnknownOp => r := Fsm.Refused(Fsm.UnknownOperation);
      case Undecodable => r := Fsm.Refused(Fsm.BadCommand);
    }

    method ApplyReserve(c: Fsm.Command) returns (r: Fsm.Response)
      requires c.Reserve?
      modifies this
      ensures (Abs(), r) == Fsm.ApplyReserve(old(Abs()), c)
    {
      var cur: Option<Fsm.SignState> := if c.chain in marks then Some(marks[c.chain]) else None;
      var order := Fsm.CompareHrs(cur, c.mark);
      if order == -1 {
        return Fsm.Refused(Fsm.Regression);
      }
      if order == 0 {
        var st := cur.value;
        if st.signBytes == c.signBytes {
          if |st.signature| > 0 {
            return Fsm.Reuse(st.signature, st.timestamp);
          }
          return Fsm.Proceed(st.signBytes, st.timestamp);
        }
        var ts := Fsm.OnlyDiffersByTimestamp(st.signBytes, c.signBytes, c.mark.step);
        if ts.Some? {
          if |st.signature| > 0 {
            return Fsm.Reuse(st.signature, ts.value);
          }
          return Fsm.Proceed(st.signBytes, ts.value);
        }
        return Fsm.Refused(Fsm.Conflict);
      }
      marks := marks[c.chain := Fsm.SignState(c.mark, c.signBytes, [], c.timestamp)];
      r := Fsm.Proceed(c.signBytes, c.timestamp);
    }

    method ApplyCommit(c: Fsm.Command) returns (r: Fsm.Response)
      requires c.Commit?
      modifies this
      ensures (Abs(), r) == Fsm.ApplyCommit(old(Abs()), c)
    {
      if c.chain !in marks || marks[c.chain].mark != c.mark {
        return Fsm.Refused(Fsm.StaleCommit);
      }
      var st := marks[c.chain];
      if st.signBytes != c.signBytes {
        return Fsm.Refused(Fsm.CommitBytesMismatch);
      }
      if |st.signature| > 0 {
        if st.signature != c.signature {
          return Fsm.Refused(Fsm.CommitSignatureMismatch);
        }
        return Fsm.Committed;
      }
      marks := marks[c.chain := st.(signature := c.signature)];
      r := Fsm.Committed;
    }

    method ApplyInitCluster(id: string) returns (r: Fsm.Response)
      modifies this
      ensures (Abs(), r) == Fsm.ApplyInitCluster(old(Abs()), Fsm.InitCluster(id))
    {
      ClusterId.ValidIffRendered(id);
      var ok := ClusterId.Validate(id);
      if !ok {
        return Fsm.Refused(Fsm.InvalidClusterId);
      }
      if clusterId == "" {
        clusterId := id;
      }
      r := Fsm.Identity(clusterId);
    }

    /** Replaces the state from a snapshot file; every refusal leaves it as it was. */
    method Restore(f: Snapshot.File) returns (error: Option<Snapshot.RestoreError>)
      modifies this
      ensures error.None? <==> Snapshot.Restored(old(Abs()), f).Ok?
      ensures error.None? ==> Abs() == Snapshot.Restored(old(Abs()), f).value
      ensures error.Some? ==> Abs() == old(Abs()) && Snapshot.Restored(old(Abs()), f) == Err(error.value)
    {
      var id := "";
      var json: Snapshot.StateJson;
      match f {
        case Unreadable => return Some(Snapshot.ReadFailed);
        case UnknownVersion => return Some(Snapshot.UnsupportedVersion);
        case Legacy(state) => json := state;
        case Versioned(BadEnvelope) => return Some(Snapshot.UndecodableSnapshot);
        case Versioned(Envelope(fileId, state)) =>
          if fileId.None? { return Some(Snapshot.MissingClusterId); }
          id := fileId.value;
          if id != "" && !ClusterId.Valid(id) { return Some(Snapshot.BadClusterId); }
          if state.None? { return Some(Snapshot.MissingState); }
          json := state.value;
      }
      if json.Malformed? { return Some(Snapshot.UndecodableSnapshot); }
      if json.Null? { return Some(Snapshot.StateNotObject); }
      var built := BuildMarks(json.entries);
      if built.None? { return Some(Snapshot.NullChain); }
      if clusterId != "" && id != clusterId {
        if id == "" { return Some(Snapshot.IdentityMissing); }
        return Some(Snapshot.IdentityMismatch);
      }
      clusterId := id;
      marks := built.value;
      return None;
    }

    /** The marks of a decoded object, unless a chain is mapped to null. */
    method BuildMarks(entries: map<string, Option<Fsm.SignState>>) returns (r: Option<map<string, Fsm.SignState>>)
      ensures r.None? <==> exists chain :: chain in entries && entries[chain].None?
      ensures r.Some? ==> r.value == map chain | chain in entries :: entries[chain].value
    {
      var todo := entries.Keys;
      var built: map<string, Fsm.SignState> := map[];
      while todo != {}
        invariant todo <= entries.Keys
        invariant built.Keys == entries.Keys - todo
        invariant forall chain :: chain in built ==> entries[chain] == Some(built[chain])
        decreases |todo|
      {
        var chain :| chain in todo;
        if entries[chain].None? { return None; }
        built := built[chain := entries[chain].value];
        todo := todo - {chain};
      }
      return Some(built);
    }
  }
}
