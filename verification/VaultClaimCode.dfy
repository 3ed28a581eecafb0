/** The vault claim as code that runs among all the other actors of the resource. */
module VaultClaimCode {
  import opened Wrappers
  import opened Binding
  import opened VaultBinding

  class Resource {
    const key: Key
    var s: State
    ghost var steps: seq<Step>

    ghost predicate Valid()
      reads this
    {
      s == Run(key, steps)
    }

    constructor (key: Key)
      ensures Valid() && s == Init()
    {
      this.key := key;
      s := Init();
      steps := [];
    }

    method Do(step: Step)
      requires Valid()
      modifies this
      ensures Valid() && steps == old(steps) + [step] && s == Exec(key, old(s), step)
    {
      s := Exec(key, s, step);
      steps := steps + [step];
      assert steps[..|steps| - 1] == old(steps);
    }

    /** Every other actor and the store run; a write of this actor may land. */
    method Others(i: nat)
      requires Valid() && i < |s.actors|
      modifies this
      ensures Valid() && old(steps) <= steps
      ensures i < |s.actors| && s.actors[i] == old(s.actors[i])
    {
      var budget: nat := *;
      while budget > 0
        invariant Valid() && old(steps) <= steps
        invariant i < |s.actors| && s.actors[i] == old(s.actors[i])
      {
        var step: Step := *;
        if !((step.Read? || step.ReadFails? || step.Submit?) && step.actor == i) {
          Do(step);
        }
        budget := budget - 1;
      }
    }

    /** One request of a read: the outcome it decides, if it does. */
    method Request(i: nat) returns (outcome: Option<Result<string, BindingError>>)
      requires Valid() && i < |s.actors| && (s.actors[i].pc.Checking? || s.actors[i].pc.Rechecking?)
      modifies this
      ensures Valid() && old(steps) <= steps && i < |s.actors|
      ensures s.actors[i] == old(s.actors[i]).(pc := s.actors[i].pc)
      ensures outcome.Some? ==> Outcome(s, outcome.value) && s.actors[i].pc == After(old(s.actors[i]), outcome.value)
      ensures outcome.None? ==> Next(old(s.actors[i].pc)).Some? && s.actors[i].pc == Next(old(s.actors[i].pc)).value
    {
      Others(i);
      var answered: bool := *;
      if !answered {
        Do(ReadFails(i));
        return Some(Err(Unreadable));
      }
      var answer := ReadOnce(key, s.stored, s.actors[i].pc.read);
      RequestFacts(key, steps, i);
      Do(Read(i));
      return if answer.Ok? then None else Some(answer.error);
    }

    /**
      The data request, the metadata request, and the data request once more, as far as needed.  The
      outcome is what the record says when it is reported.
     */
    method ClusterBinding(i: nat) returns (r: Result<string, BindingError>)
      requires Valid() && i < |s.actors|
      requires s.actors[i].pc == Checking(FirstData) || s.actors[i].pc == Rechecking(FirstData)
      modifies this
      ensures Valid() && old(steps) <= steps && i < |s.actors|
      ensures s.actors[i] == old(s.actors[i]).(pc := After(old(s.actors[i]), r))
      ensures Outcome(s, r)
    {
      var first := Request(i);
      if first.Some? {
        return first.value;
      }
      var second := Request(i);
      if second.Some? {
        return second.value;
      }
      var third := Request(i);
      return third.value;
    }

    /**
      Claims the resource: read, write with compare-and-set 0 when there is no claim, and read again.
      The outcome of the write itself decides nothing.
     */
    method ClaimCluster(i: nat) returns (error: Option<BindingError>)
      requires Valid() && i < |s.actors| && s.actors[i].claims && s.actors[i].pc == Checking(FirstData)
      modifies this
      ensures Valid() && old(steps) <= steps && i < |s.actors|
      ensures s.actors[i].pc == Done(error)
      ensures error.None? ==> s.owner == Some(old(s.actors[i].id))
      ensures error == Some(Corrupt) ==> s.erased
      ensures error == Some(Mismatch) ==> s.owner.Some? && s.owner.value != old(s.actors[i].id)
      ensures error == Some(Unclaimed) ==> s.owner.None?
      ensures error.Some? ==> error.value in {Corrupt, Mismatch, Unclaimed, Unreadable}
    {
      var r := ClusterBinding(i);
      if r == Err(Unclaimed) {
        Others(i);
        Do(Submit(i));
        r := ClusterBinding(i);
      }
      RunKeepsInv(key, steps);
      assert ActorOk(s, s.actors[i]);
      return match r
        case Ok(owner) => RequireClaimOwner(s.actors[i].id, owner)
        case Err(e) => Some(e);
    }
  }

  /** What one answered request does. */
  lemma RequestFacts(key: Key, steps: seq<Step>, i: nat)
    requires var s := Run(key, steps); i < |s.actors| && (s.actors[i].pc.Checking? || s.actors[i].pc.Rechecking?)
    ensures var s := Run(key, steps);
      var t := Exec(key, s, Read(i));
      var answer := ReadOnce(key, s.stored, s.actors[i].pc.read);
      && i < |t.actors| && t.actors[i] == s.actors[i].(pc := t.actors[i].pc)
      && (answer.Err? ==> Outcome(t, answer.error) && t.actors[i].pc == After(s.actors[i], answer.error))
      && (answer.Ok? ==> Next(s.actors[i].pc) == Some(t.actors[i].pc))
  {
    var s := Run(key, steps);
    RunKeepsInv(key, steps);
    assert ActorOk(s, s.actors[i]);
    if ReadOnce(key, s.stored, s.actors[i].pc.read).Err? { DecidingRead(key, s, s.actors[i].pc.read); }
  }

  /** What a reported outcome says of the record at that moment. */
  predicate Outcome(s: State, r: Result<string, BindingError>) {
    match r
    case Ok(owner) => s.owner == Some(owner) && !s.erased
    case Err(Unclaimed) => s.owner.None?
    case Err(e) => e == Unreadable || (e == Corrupt && s.erased)
  }

  /** Where an actor goes with the outcome of a read. */
  function After(a: Actor, r: Result<string, BindingError>): Pc {
    match r
    case Ok(owner) => Done(RequireClaimOwner(a.id, owner))
    case Err(e) => if e == Unclaimed && a.pc.Checking? && a.claims then Writing else Done(Some(e))
  }

  /** The next request of a read that is not decided yet. */
  function Next(pc: Pc): Option<Pc> {
    if pc == Checking(FirstData) then Some(Checking(MetadataOnly))
    else if pc == Checking(MetadataOnly) then Some(Checking(SecondData))
    else if pc == Rechecking(FirstData) then Some(Rechecking(MetadataOnly))
    else if pc == Rechecking(MetadataOnly) then Some(Rechecking(SecondData))
    else None
  }
}
