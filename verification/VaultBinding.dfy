/**
  Cluster claims kept as a create-only record of a versioned key-value store,
  read in up to three requests and written with compare-and-set version 0.
 */
module VaultBinding {
  import opened Wrappers
  import opened Binding
  import ClusterId

  // ---------------------------------------------------------------- the record

  datatype Value = Text(text: string) | Number(number: int) | OtherValue

  datatype Key = Key(mount: string, name: string)

  datatype Record = Record(version: int, clusterId: string, mount: string, name: string)

  /** The parts of a response: each is absent when it is missing or has another type. */
  datatype Metadata = Metadata(destroyed: Option<bool>, deletionTime: Option<string>)
  datatype Secret = Secret(metadata: Option<Metadata>, data: Option<map<string, Value>>)

  function EncodeRecord(key: Key, id: string): map<string, Value> {
    map["version" := Number(1), "cluster_id" := Text(id),
        "transit_mount" := Text(key.mount), "key_name" := Text(key.name)]
  }

  function TextAt(data: map<string, Value>, field: string): Option<string> {
    if field in data && data[field].Text? then Some(data[field].text) else None
  }

  function ParseRecord(key: Key, data: map<string, Value>): Result<Record, BindingError> {
    if |data| != 4 then Err(Corrupt)
    else if !("version" in data && data["version"] == Number(1)) then Err(Corrupt)
    else
      var id := TextAt(data, "cluster_id");
      if id.None? || !ClusterId.Valid(id.value) then Err(Corrupt)
      else
        var mount := TextAt(data, "transit_mount");
        var name := TextAt(data, "key_name");
        if mount.None? || name.None? || mount.value != key.mount || name.value != key.name then Err(Corrupt)
        else Ok(Record(1, id.value, mount.value, name.value))
  }

  function Interpret(key: Key, s: Secret): Result<string, BindingError> {
    if s.metadata.None? then Err(Corrupt)
    else if s.metadata.value.destroyed.None? then Err(Corrupt)
    else if s.metadata.value.destroyed.value then Err(Corrupt)
    else if s.metadata.value.deletionTime.None? then Err(Corrupt)
    else if s.metadata.value.deletionTime.value != "" then Err(Corrupt)
    else if s.data.None? then Err(Corrupt)
    else match ParseRecord(key, s.data.value)
         case Err(e) => Err(e)
         case Ok(record) => Ok(record.clusterId)
  }

  lemma FourFields(data: map<string, Value>)
    requires |data| == 4
    requires "version" in data && "cluster_id" in data && "transit_mount" in data && "key_name" in data
    ensures data.Keys == {"version", "cluster_id", "transit_mount", "key_name"}
  {
    var fields := {"version", "cluster_id", "transit_mount", "key_name"};
    var extra := data.Keys - fields;
    assert |fields| == 4 by {
      assert |"version"| == 7 && |"cluster_id"| == 10 && |"transit_mount"| == 13 && |"key_name"| == 8;
    }
    assert |data.Keys| == |extra| + |fields| by { assert data.Keys == extra + fields; }
    assert extra == {};
  }

  /** The parser accepts exactly what the writer writes for this key, and reads back what was written. */
  lemma ParseIffEncoded(key: Key, data: map<string, Value>, record: Record)
    ensures ParseRecord(key, data) == Ok(record) <==>
      (&& data == EncodeRecord(key, record.clusterId) && ClusterId.Valid(record.clusterId)
       && record == Record(1, record.clusterId, key.mount, key.name))
  {
    if ParseRecord(key, data).Ok? {
      FourFields(data);
      assert data == EncodeRecord(key, TextAt(data, "cluster_id").value);
    }
    var written := EncodeRecord(key, record.clusterId);
    if data == written {
      assert written.Keys == {"version", "cluster_id", "transit_mount", "key_name"};
      assert |written.Keys| == 4 by {
        assert |"version"| == 7 && |"cluster_id"| == 10 && |"transit_mount"| == 13 && |"key_name"| == 8;
      }
    }
  }

  // ---------------------------------------------------------------- racing claimers

  /** The stored record: never created, live, or only its metadata left. */
  datatype Stored = Absent | Live(data: map<string, Value>) | Erased

  datatype ReadPc = FirstData | MetadataOnly | SecondData

  datatype Pc = Checking(read: ReadPc) | Writing | Rechecking(read: ReadPc) | Done(error: Option<BindingError>)

  /** A claimer of the resource, or a replica that only checks the claim. */
  datatype Actor = Actor(id: string, claims: bool, pc: Pc, submitted: bool)

  /** The record, the actors, and two history variables: the ID first written, and whether it was erased. */
  datatype State = State(stored: Stored, actors: seq<Actor>, owner: Option<string>, erased: bool)

  datatype Step =
    | Arrive(id: string, claims: bool)
    | Read(actor: nat)            // the next request of a read is answered
    | ReadFails(actor: nat)       // or fails
    | Submit(actor: nat)          // the write leaves; its reply, if any, decides nothing
    | ApplyWrite(actor: nat)      // the store applies a write that left, possibly much later
    | Erase                       // an operator deletes or destroys the value

  function Init(): State { State(Absent, [], None, false) }

  /** One request of the read sequence: its next request, or its outcome. */
  function ReadOnce(key: Key, stored: Stored, read: ReadPc): Result<ReadPc, Result<string, BindingError>> {
    match read
    case FirstData => if stored.Live? then Err(Interpret(key, Answer(stored))) else Ok(MetadataOnly)
    case MetadataOnly => if stored.Absent? then Err(Err(Unclaimed)) else Ok(SecondData)
    case SecondData => if stored.Live? then Err(Interpret(key, Answer(stored))) else Err(Err(Corrupt))
  }

  function Answer(stored: Stored): Secret
    requires stored.Live?
  {
    Secret(Some(Metadata(Some(false), Some(""))), Some(stored.data))
  }

  /** Where an actor goes after one request. */
  function AfterRead(key: Key, stored: Stored, a: Actor): Pc
    requires a.pc.Checking? || a.pc.Rechecking?
  {
    match ReadOnce(key, stored, a.pc.read)
    case Ok(next) => if a.pc.Checking? then Checking(next) else Rechecking(next)
    case Err(Ok(owner)) => Done(RequireClaimOwner(a.id, owner))
    case Err(Err(e)) => if e == Unclaimed && a.pc.Checking? && a.claims then Writing else Done(Some(e))
  }

  function SetActor(s: State, i: nat, a: Actor): State
    requires i < |s.actors|
  {
    s.(actors := s.actors[i := a])
  }

  function Exec(key: Key, s: State, step: Step): State {
    match step
    case Arrive(id, claims) =>
      var pc := if ClusterId.Valid(id) then Checking(FirstData) else Done(Some(InvalidId));
      s.(actors := s.actors + [Actor(id, claims, pc, false)])
    case Read(i) =>
      if i < |s.actors| && (s.actors[i].pc.Checking? || s.actors[i].pc.Rechecking?)
      then SetActor(s, i, s.actors[i].(pc := AfterRead(key, s.stored, s.actors[i]))) else s
    case ReadFails(i) =>
      if i < |s.actors| && (s.actors[i].pc.Checking? || s.actors[i].pc.Rechecking?)
      then SetActor(s, i, s.actors[i].(pc := Done(Some(Unreadable)))) else s
    case Submit(i) =>
      if i < |s.actors| && s.actors[i].pc.Writing?
      then SetActor(s, i, s.actors[i].(pc := Rechecking(FirstData), submitted := true)) else s
    case ApplyWrite(i) =>
      if i < |s.actors| && s.actors[i].submitted && s.stored.Absent?
      then s.(stored := Live(EncodeRecord(key, s.actors[i].id)), owner := Some(s.actors[i].id)) else s
    case Erase =>
      if s.stored.Live? then s.(stored := Erased, erased := true) else s
  }

  function Run(key: Key, steps: seq<Step>): State {
    if steps == [] then Init() else Exec(key, Run(key, steps[..|steps| - 1]), steps[|steps| - 1])
  }

  predicate ActorOk(s: State, a: Actor) {
    && (a.submitted ==> ClusterId.Valid(a.id))
    && (!a.pc.Done? ==> ClusterId.Valid(a.id))
    && (a.pc.Done? && a.pc.error.None? ==> s.owner == Some(a.id))
    && (a.pc.Done? && a.pc.error == Some(Corrupt) ==> s.erased)
    && (a.pc.Done? && a.pc.error == Some(Mismatch) ==> s.owner.Some? && s.owner.value != a.id)
    && ((a.pc.Checking? || a.pc.Rechecking?) && a.pc.read == SecondData ==> !s.stored.Absent?)
  }

  predicate RecordOk(key: Key, s: State) {
    match s.stored
    case Absent => s.owner.None? && !s.erased
    case Live(data) =>
      s.owner.Some? && ClusterId.Valid(s.owner.value) && data == EncodeRecord(key, s.owner.value) && !s.erased
    case Erased => s.owner.Some? && s.erased
  }

  predicate Inv(key: Key, s: State) {
    RecordOk(key, s) && forall i :: 0 <= i < |s.actors| ==> ActorOk(s, s.actors[i])
  }

  /** A live record is always read back as its owner. */
  lemma LiveReadsOwner(key: Key, s: State)
    requires RecordOk(key, s) && s.stored.Live?
    ensures Interpret(key, Answer(s.stored)) == Ok(s.owner.value)
  {
    ParseIffEncoded(key, s.stored.data, Record(1, s.owner.value, key.mount, key.name));
  }

  lemma ReadKeepsInv(key: Key, s: State, i: nat)
    requires Inv(key, s) && i < |s.actors| && (s.actors[i].pc.Checking? || s.actors[i].pc.Rechecking?)
    ensures ActorOk(s, s.actors[i].(pc := AfterRead(key, s.stored, s.actors[i])))
  {
    assert ActorOk(s, s.actors[i]);
    if s.stored.Live? {
      LiveReadsOwner(key, s);
    }
  }

  lemma StepKeepsInv(key: Key, s: State, step: Step)
    requires Inv(key, s)
    ensures Inv(key, Exec(key, s, step))
    ensures CreateOnly(s.owner, Exec(key, s, step).owner)
  {
    var t := Exec(key, s, step);
    if step.Read? && step.actor < |s.actors|
       && (s.actors[step.actor].pc.Checking? || s.actors[step.actor].pc.Rechecking?) {
      ReadKeepsInv(key, s, step.actor);
    }
    forall i | 0 <= i < |t.actors| ensures ActorOk(t, t.actors[i]) {
      if i < |s.actors| {
        assert ActorOk(s, s.actors[i]);
      }
    }
  }

  /** Seen from outside, a record is a claim that is durable once it is there. */
  lemma RecordMoves(key: Key, s: State, step: Step)
    requires Inv(key, s)
    ensures var t := Exec(key, s, step); ClaimMove(s.owner, s.owner.Some?, t.owner, t.owner.Some?, false)
  {
    StepKeepsInv(key, s, step);
  }

  /** The request that decides a read finds the claim as it is then, or a record that was erased. */
  lemma DecidingRead(key: Key, s: State, read: ReadPc)
    requires RecordOk(key, s) && ReadOnce(key, s.stored, read).Err? && (read == SecondData ==> !s.stored.Absent?)
    ensures var outcome := ReadOnce(key, s.stored, read).error;
      match outcome
      case Ok(owner) => s.owner == Some(owner) && !s.erased
      case Err(Unclaimed) => s.owner.None?
      case Err(e) => e == Corrupt && s.erased
  {
    if s.stored.Live? { LiveReadsOwner(key, s); }
  }

  lemma {:induction false} RunKeepsInv(key: Key, steps: seq<Step>)
    ensures Inv(key, Run(key, steps))
  {
    if steps != [] {
      RunKeepsInv(key, steps[..|steps| - 1]);
      StepKeepsInv(key, Run(key, steps[..|steps| - 1]), steps[|steps| - 1]);
    }
  }

  // ---------------------------------------------------------------- what every run guarantees

  predicate Succeeded(a: Actor) { a.pc.Done? && a.pc.error.None? }

  /** Success for an ID means the resource was created for that ID, and the record says so unless erased. */
  lemma SuccessMeansOwned(key: Key, steps: seq<Step>, i: nat)
    requires i < |Run(key, steps).actors| && Succeeded(Run(key, steps).actors[i])
    ensures var s := Run(key, steps);
      && s.owner == Some(s.actors[i].id)
      && (!s.erased ==> s.stored == Live(EncodeRecord(key, s.actors[i].id))
                        && Interpret(key, Answer(s.stored)) == Ok(s.actors[i].id))
  {
    var s := Run(key, steps);
    RunKeepsInv(key, steps);
    assert ActorOk(s, s.actors[i]);
    if !s.erased { LiveReadsOwner(key, s); }
  }

  /** Two different IDs never both succeed, erased or not. */
  lemma OneOwner(key: Key, steps: seq<Step>, i: nat, j: nat)
    requires i < |Run(key, steps).actors| && j < |Run(key, steps).actors|
    requires Succeeded(Run(key, steps).actors[i]) && Succeeded(Run(key, steps).actors[j])
    ensures Run(key, steps).actors[i].id == Run(key, steps).actors[j].id
  {
    SuccessMeansOwned(key, steps, i);
    SuccessMeansOwned(key, steps, j);
  }

  /** A read reports corruption only of a record that was erased, never of one being created. */
  lemma CorruptMeansErased(key: Key, steps: seq<Step>, i: nat)
    requires i < |Run(key, steps).actors| && Run(key, steps).actors[i].pc == Done(Some(Corrupt))
    ensures Run(key, steps).erased
  {
    RunKeepsInv(key, steps);
    assert ActorOk(Run(key, steps), Run(key, steps).actors[i]);
  }

  // ---------------------------------------------------------------- which claims can succeed

  /** The state after more steps. */
  function Continue(key: Key, s: State, more: seq<Step>): State {
    if more == [] then s else Exec(key, Continue(key, s, more[..|more| - 1]), more[|more| - 1])
  }

  lemma {:induction false} RunContinues(key: Key, steps: seq<Step>, more: seq<Step>)
    ensures Run(key, steps + more) == Continue(key, Run(key, steps), more)
    decreases |more|
  {
    if more == [] {
      assert steps + more == steps;
    } else {
      RunContinues(key, steps, more[..|more| - 1]);
      assert (steps + more)[..|steps + more| - 1] == steps + more[..|more| - 1];
    }
  }

  lemma ContinueOne(key: Key, s: State, more: seq<Step>, step: Step)
    ensures Continue(key, s, more + [step]) == Exec(key, Continue(key, s, more), step)
  {
    assert (more + [step])[..|more|] == more;
  }

  /** The request that finds a record decides the claim: success for its owner, a mismatch for all others. */
  lemma DecidedClaim(key: Key, s: State, a: Actor)
    requires RecordOk(key, s) && s.stored.Live? && (a.pc == Checking(FirstData) || a.pc == Rechecking(FirstData))
    ensures AfterRead(key, s.stored, a) == Done(None) <==> s.owner == Some(a.id)
    ensures AfterRead(key, s.stored, a) == Done(Some(Mismatch)) <==> s.owner != Some(a.id)
  {
    LiveReadsOwner(key, s);
  }

  /** A claimer that finds its own record succeeds at once. */
  lemma OwnerSucceeds(key: Key, s: State, id: string) returns (more: seq<Step>)
    requires Inv(key, s) && s.stored.Live? && s.owner == Some(id)
    ensures var t := Continue(key, Exec(key, s, Arrive(id, true)), more); SucceedsAt(t, |s.actors|, id)
  {
    var i := |s.actors|;
    var s1 := Exec(key, s, Arrive(id, true));
    LiveReadsOwner(key, s);
    DecidedClaim(key, s1, s1.actors[i]);
    more := [] + [Read(i)];
    ContinueOne(key, s1, [], Read(i));
  }

  /** Where there is no record, a claimer writes its own and finds it. */
  lemma FirstSucceeds(key: Key, s: State, id: string) returns (more: seq<Step>)
    requires Inv(key, s) && s.stored.Absent? && ClusterId.Valid(id)
    ensures var t := Continue(key, Exec(key, s, Arrive(id, true)), more); SucceedsAt(t, |s.actors|, id)
  {
    var i := |s.actors|;
    var s1 := Exec(key, s, Arrive(id, true));
    StepKeepsInv(key, s, Arrive(id, true));
    more := [] + [Read(i)];
    ContinueOne(key, s1, [], Read(i));
    ContinueOne(key, s1, more, Read(i));
    more := more + [Read(i)];
    ContinueOne(key, s1, more, Submit(i));
    more := more + [Submit(i)];
    ContinueOne(key, s1, more, ApplyWrite(i));
    more := more + [ApplyWrite(i)];
    var s5 := Continue(key, s1, more);
    ParseIffEncoded(key, s5.stored.data, Record(1, id, key.mount, key.name));
    ContinueOne(key, s1, more, Read(i));
    more := more + [Read(i)];
  }

  predicate SucceedsAt(s: State, i: nat, id: string) {
    i < |s.actors| && s.actors[i].id == id && Succeeded(s.actors[i])
  }

  /** The claim is lost for this actor: it has failed, or the record is another's or erased. */
  predicate Hopeless(s: State, i: nat) {
    && i < |s.actors| && !Succeeded(s.actors[i])
    && (s.actors[i].pc.Done? || s.erased || (s.owner.Some? && s.owner.value != s.actors[i].id))
  }

  lemma StepKeepsHopeless(key: Key, s: State, step: Step, i: nat)
    requires Inv(key, s) && Hopeless(s, i)
    ensures Hopeless(Exec(key, s, step), i)
  {
    var t := Exec(key, s, step);
    StepKeepsInv(key, s, step);
    assert ActorOk(s, s.actors[i]) && ActorOk(t, t.actors[i]);
  }

  lemma {:induction false} HopelessForever(key: Key, s: State, more: seq<Step>, i: nat)
    requires Inv(key, s) && Hopeless(s, i)
    ensures Inv(key, Continue(key, s, more)) && Hopeless(Continue(key, s, more), i)
  {
    if more != [] {
      HopelessForever(key, s, more[..|more| - 1], i);
      var t := Continue(key, s, more[..|more| - 1]);
      StepKeepsInv(key, t, more[|more| - 1]);
      StepKeepsHopeless(key, t, more[|more| - 1], i);
    }
  }

  /**
    In every reachable state, a new claim can be brought to success if and only if its ID is valid and the
    record is either not there yet or already says so, and was not erased.
   */
  lemma ClaimSucceedsIff(key: Key, steps: seq<Step>, id: string)
    ensures var s := Run(key, steps);
      (exists more :: SucceedsAt(Run(key, steps + [Arrive(id, true)] + more), |s.actors|, id))
      <==> ClusterId.Valid(id) && !s.erased && (s.owner.None? || s.owner == Some(id))
  {
    var s := Run(key, steps);
    var s1 := Exec(key, s, Arrive(id, true));
    RunKeepsInv(key, steps);
    StepKeepsInv(key, s, Arrive(id, true));
    assert (steps + [Arrive(id, true)])[..|steps|] == steps;
    if ClusterId.Valid(id) && !s.erased && (s.owner.None? || s.owner == Some(id)) {
      var more;
      if s.owner.None? { more := FirstSucceeds(key, s, id); } else { more := OwnerSucceeds(key, s, id); }
      RunContinues(key, steps + [Arrive(id, true)], more);
      assert SucceedsAt(Run(key, steps + [Arrive(id, true)] + more), |s.actors|, id);
    } else {
      forall more ensures !SucceedsAt(Run(key, steps + [Arrive(id, true)] + more), |s.actors|, id) {
        RunContinues(key, steps + [Arrive(id, true)], more);
        HopelessForever(key, s1, more, |s.actors|);
      }
    }
  }

  /** The owner, once there is one, is the same after every continuation. */
  lemma {:induction false} OwnerIsForever(key: Key, steps: seq<Step>, more: seq<Step>)
    ensures CreateOnly(Run(key, steps).owner, Run(key, steps + more).owner)
    decreases |more|
  {
    if more == [] {
      assert steps + more == steps;
    } else {
      var front := more[..|more| - 1];
      OwnerIsForever(key, steps, front);
      assert (steps + more)[..|steps + more| - 1] == steps + front;
      RunKeepsInv(key, steps + front);
      StepKeepsInv(key, Run(key, steps + front), more[|more| - 1]);
    }
  }
}
