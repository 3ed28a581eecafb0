/** The file claim as code that runs among all the other processes of the host. */
module FileClaimCode {
  import opened Wrappers
  import opened Binding
  import opened FileBinding
  import opened FileBindingProofs

  class Host {
    const exclusive: bool
    const key: Option<int>
    var s: State
    ghost var steps: seq<Step>

    ghost predicate Valid()
      reads this
    {
      s == Run(exclusive, key, steps)
    }

    ghost predicate At(p: nat, id: string, k: int)
      reads this
    {
      && Valid() && p < |s.processes|
      && s.processes[p].Claimer? && s.processes[p].id == id && s.processes[p].publicKey == k
    }

    constructor (exclusive: bool, key: Option<int>)
      ensures Valid() && s == Init(key)
    {
      this.exclusive := exclusive;
      this.key := key;
      s := Init(key);
      steps := [];
    }

    method Do(step: Step)
      requires Valid()
      modifies this
      ensures Valid() && steps == old(steps) + [step]
      ensures old(s).dirs != [] && s == Exec(exclusive, old(s), step)
    {
      RunSnoc(exclusive, key, steps, step);
      s := Exec(exclusive, s, step);
      steps := steps + [step];
    }

    /** Every other process runs, arrives or dies. */
    method Others(p: nat)
      requires Valid() && p < |s.processes|
      modifies this
      ensures Valid() && old(steps) <= steps
      ensures p < |s.processes| && s.processes[p] == old(s.processes[p])
    {
      var budget: nat := *;
      while budget > 0
        invariant Valid() && old(steps) <= steps
        invariant p < |s.processes| && s.processes[p] == old(s.processes[p])
      {
        var step: Step := *;
        if !step.Crash? && !(step.Kill? && step.process == p) && !(step.Go? && step.process == p) {
          OthersLeave(exclusive, s, step, p);
          Do(step);
        }
        budget := budget - 1;
      }
    }

    /** One operation of the claim: it works or it fails. */
    method Operation(p: nat, ghost id: string, ghost k: int) returns (pc: ClaimPc)
      requires At(p, id, k) && !s.processes[p].pc.Done?
      modifies this
      ensures At(p, id, k) && old(steps) <= steps && pc == s.processes[p].pc
      ensures pc.Done? ==> Ended(s, pc.error, id)
      ensures Follows(old(s.processes[p].pc), pc)
    {
      Others(p);
      var works: bool := *;
      RunKeepsInv(exclusive, key, steps);
      ClaimStepKeepsSelf(exclusive, s, p, works);
      EndMeans(exclusive, s, p, works);
      Do(Go(p, works));
      pc := s.processes[p].pc;
    }

    /** The lock, within as many attempts as the context allows. */
    method AcquireLock(p: nat, attempts: nat, ghost id: string, ghost k: int) returns (pc: ClaimPc)
      requires At(p, id, k) && s.processes[p].pc.Waiting?
      modifies this
      ensures At(p, id, k) && old(steps) <= steps && pc == s.processes[p].pc
      ensures pc.Waiting? || pc.Prechecking? || pc.Done?
      ensures pc.Done? ==> pc.error.Some?
      ensures pc.Done? ==> Ended(s, pc.error, id)
    {
      pc := s.processes[p].pc;
      var i := 0;
      while i < attempts && pc.Waiting?
        invariant At(p, id, k) && old(steps) <= steps && pc == s.processes[p].pc
        invariant pc.Waiting? || pc.Prechecking? || pc.Done?
        invariant pc.Done? ==> pc.error.Some?
        invariant pc.Done? ==> Ended(s, pc.error, id)
      {
        pc := Operation(p, id, k);
        i := i + 1;
      }
    }

    /**
      Claims the key for a cluster: lock, precheck, read; an existing claim is synced and compared,
      otherwise the record is written, synced, linked and the directory synced.  Success means that
      the marker names this cluster, now and in every state a crash can leave; a mismatch means that it
      names another; and the claim has then ended with just this result.
     */
    method Claim(p: nat, attempts: nat) returns (error: Option<BindingError>)
      requires Valid() && p < |s.processes| && s.processes[p].Claimer? && s.processes[p].pc.Waiting?
      modifies this
      ensures Valid() && old(steps) <= steps && p < |s.processes|
      ensures error.None? ==> OwnerNow(s) == Some(old(s.processes[p].id)) && Durable(s)
      ensures error == Some(Mismatch) ==> OwnerNow(s).Some? && OwnerNow(s).value != old(s.processes[p].id)
      ensures s.processes[p].Claimer? && (s.processes[p].pc == Done(error) || s.processes[p].pc.Waiting?)
    {
      ghost var id, k := s.processes[p].id, s.processes[p].publicKey;
      var pc := AcquireLock(p, attempts, id, k);
      if pc.Waiting? { return Some(OperationFailed); }
      if pc.Done? { return FinalResult(p, id, k); }
      pc := Operation(p, id, k);              // precheck
      if pc.Done? { return FinalResult(p, id, k); }
      pc := Operation(p, id, k);              // read
      if pc.Done? { return FinalResult(p, id, k); }
      if pc.SyncingFile? {
        error := SyncPublished(p, id, k);
        return;
      }
      pc := Operation(p, id, k);              // create the temporary file
      if pc.Done? { return FinalResult(p, id, k); }
      error := Publish(p, id, k);
    }

    /** From the created temporary file to the synced directory. */
    method Publish(p: nat, ghost id: string, ghost k: int) returns (error: Option<BindingError>)
      requires At(p, id, k) && s.processes[p].pc.Writing?
      modifies this
      ensures Valid() && old(steps) <= steps && p < |s.processes|
      ensures error.None? ==> OwnerNow(s) == Some(id) && Durable(s)
      ensures Ended(s, error, id) && s.processes[p].Claimer? && s.processes[p].pc == Done(error)
    {
      var pc;
      pc := Operation(p, id, k);              // write
      if pc.Done? { return FinalResult(p, id, k); }
      pc := Operation(p, id, k);              // sync the file
      if pc.Done? { return FinalResult(p, id, k); }
      pc := Operation(p, id, k);              // link
      if pc.Done? { return FinalResult(p, id, k); }
      pc := Operation(p, id, k);              // remove the temporary file
      if pc.Done? { return FinalResult(p, id, k); }
      if pc.SyncingFile? {
        error := SyncPublished(p, id, k);
        return;
      }
      pc := Operation(p, id, k);              // sync the directory
      return FinalResult(p, id, k);
    }

    /** Syncs the published marker and its directory. */
    method SyncPublished(p: nat, ghost id: string, ghost k: int) returns (error: Option<BindingError>)
      requires At(p, id, k) && s.processes[p].pc.SyncingFile?
      modifies this
      ensures Valid() && old(steps) <= steps && p < |s.processes|
      ensures error.None? ==> OwnerNow(s) == Some(id) && Durable(s)
      ensures Ended(s, error, id) && s.processes[p].Claimer? && s.processes[p].pc == Done(error)
    {
      var pc;
      pc := Operation(p, id, k);              // sync the file
      if pc.Done? { return FinalResult(p, id, k); }
      pc := Operation(p, id, k);              // sync the directory
      return FinalResult(p, id, k);
    }

    /** The result of a claim that has ended. */
    function FinalResult(p: nat, ghost id: string, ghost k: int): (error: Option<BindingError>)
      requires At(p, id, k) && s.processes[p].pc.Done?
      reads this
      ensures error == s.processes[p].pc.error
      ensures error.None? ==> OwnerNow(s) == Some(id) && Durable(s)
    {
      if s.processes[p].pc.error.None? then
        SuccessMeans(exclusive, key, steps, p);
        None
      else s.processes[p].pc.error
    }
  }

  /** What the end of a claim says of the marker. */
  predicate Ended(s: State, error: Option<BindingError>, id: string) {
    s.dirs != [] && (error == Some(Mismatch) ==> OwnerNow(s).Some? && OwnerNow(s).value != id)
  }

  /** What comes after each operation; only the last one ends in success. */
  predicate Follows(before: ClaimPc, after: ClaimPc) {
    (after.Done? && (after.error.None? ==> before.SyncingDir?)) ||
    match before
    case Waiting => after.Prechecking? || after.Waiting?
    case Prechecking => after.Reading?
    case Reading => after.Creating? || after.SyncingFile?
    case Creating => after.Writing?
    case Writing(_) => after.Syncing?
    case Syncing(_) => after.Linking?
    case Linking(_) => after.Removing?
    case Removing(_, published) => if published then after.SyncingDir? else after.SyncingFile?
    case SyncingFile(_, _) => after.SyncingDir?
    case _ => false
  }

  lemma EndMeans(exclusive: bool, s: State, p: nat, ok: bool)
    requires Inv(exclusive, s) && p < |s.processes| && s.processes[p].Claimer? && !s.processes[p].pc.Done?
    ensures var t := ClaimStep(exclusive, s, p, ok);
      p < |t.processes| && t.processes[p].Claimer? && Follows(s.processes[p].pc, t.processes[p].pc)
      && (t.processes[p].pc.Done? ==> Ended(t, t.processes[p].pc.error, s.processes[p].id))
  {
    assert ProcessOk(exclusive, s, p, s.processes[p]);
    assert DirOk(exclusive, s.inodes, Current(s));
  }

  lemma SuccessMeans(exclusive: bool, key: Option<int>, steps: seq<Step>, p: nat)
    requires p < |Run(exclusive, key, steps).processes| && Succeeded(Run(exclusive, key, steps).processes[p])
    ensures var s := Run(exclusive, key, steps); OwnerNow(s) == Some(s.processes[p].id) && Durable(s)
  {
    var s := Run(exclusive, key, steps);
    SuccessIsDurable(exclusive, key, steps, p);
    RunKeepsInv(exclusive, key, steps);
    assert ProcessOk(exclusive, s, p, s.processes[p]);
    forall i | 0 <= i < |s.dirs| ensures s.dirs[i].marker.Some? {
      assert OwnerOf(s.inodes, s.dirs[i]) == Some(s.processes[p].id);
    }
  }

  lemma OthersLeave(exclusive: bool, s: State, step: Step, p: nat)
    requires s.dirs != [] && p < |s.processes| && !step.Crash?
    requires !(step.Kill? && step.process == p) && !(step.Go? && step.process == p)
    ensures p < |Exec(exclusive, s, step).processes| && Exec(exclusive, s, step).processes[p] == s.processes[p]
  {
    if step.Go? && step.process < |s.processes| {
      if s.processes[step.process].Claimer? {
        ClaimStepIsLocal(exclusive, s, step.process, step.ok);
      } else {
        ProvisionStepIsLocal(exclusive, s, step.process, step.ok);
      }
    }
  }

  lemma ClaimStepKeepsSelf(exclusive: bool, s: State, p: nat, ok: bool)
    requires s.dirs != [] && p < |s.processes| && s.processes[p].Claimer?
    ensures var t := ClaimStep(exclusive, s, p, ok);
      p < |t.processes| && t.processes[p].Claimer? && t.processes[p].id == s.processes[p].id
      && t.processes[p].publicKey == s.processes[p].publicKey
  {
  }
}
