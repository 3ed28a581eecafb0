/**
  The claim of the fleet is the claim the backends keep: whatever a store record or a
  marker file does, by itself or for a claimant, the fleet of histories does too.
 */
module StartupClaims {
  import opened Wrappers
  import opened Messages
  import opened Binding
  import opened Startup
  import opened StartupDurability
  import VaultBinding
  import FileBinding
  import FileBindingProofs

  // ---------------------------------------------------------------- moves of the claim

  lemma CreatedPerhaps(sign: Payload -> Signature, f: Fleet, after: Option<string>)
    returns (more: seq<Step>, g: Fleet)
    requires Inv(sign, f, false)
    ensures g == Continue(sign, f, more) && Inv(sign, g, false)
    ensures g == if after.Some? then Created(f, after.value) else f
  {
    if after.Some? {
      more, g := OneStep(sign, f, LateClaim(after.value));
    } else {
      more, g := [], f;
    }
  }

  lemma SyncedPerhaps(sign: Payload -> Signature, f: Fleet, taken: bool) returns (more: seq<Step>, g: Fleet)
    requires Inv(sign, f, false) && (taken ==> f.claim.Some?)
    ensures g == Continue(sign, f, more) && Inv(sign, g, false)
    ensures g == if taken then f.(durable := true) else f
  {
    if taken {
      more, g := OneStep(sign, f, SyncClaim);
    } else {
      more, g := [], f;
    }
  }

  lemma CrashedPerhaps(sign: Payload -> Signature, f: Fleet, taken: bool) returns (more: seq<Step>, g: Fleet)
    requires Inv(sign, f, false) && (taken ==> f.resource.MarkerFile?)
    ensures g == Continue(sign, f, more) && Inv(sign, g, false)
    ensures g == if taken
      then f.(claim := if f.durable then f.claim else None, processes := Halted(f.processes)) else f
  {
    if taken {
      more, g := OneStep(sign, f, HostCrash);
    } else {
      more, g := [], f;
    }
  }

  /** The claim and its durability as given; the processes stopped if the host crashed. */
  function Moved(f: Fleet, claim: Option<string>, durable: bool, crash: bool): Fleet {
    f.(claim := claim, durable := durable, processes := if crash then Halted(f.processes) else f.processes)
  }

  /**
    Every move a claim may make is made by some steps of the fleet that leave the histories alone and
    stop the processes only in a crash.
   */
  lemma EveryMoveIsCovered(
    sign: Payload -> Signature, f: Fleet, after: Option<string>, stillDurable: bool, crash: bool)
    returns (more: seq<Step>, g: Fleet)
    requires Inv(sign, f, false) && ClaimMove(f.claim, f.durable, after, stillDurable, crash)
    requires f.resource.StoreRecord? ==> !crash && (after.Some? ==> stillDurable)
    ensures g == Continue(sign, f, more) && Inv(sign, g, false)
    ensures g == Moved(f, after, stillDurable, crash)
  {
    var create, f1 := CreatedPerhaps(sign, f, after);
    var sync, f2 := SyncedPerhaps(sign, f1, stillDurable);
    var fall;
    fall, g := CrashedPerhaps(sign, f2, crash);
    more := Joined(sign, f, create, f1, sync);
    more := Joined(sign, f, more, f2, fall);
  }

  // ---------------------------------------------------------------- store records

  /** The fleet's claim is the one of this record. */
  predicate ShowsRecord(f: Fleet, s: VaultBinding.State) {
    f.resource.StoreRecord? && f.claim == s.owner && f.durable == s.owner.Some?
  }

  /** Whatever claimers, late writes and operators do to a record, the fleet's claim does with it. */
  lemma RecordIsFollowed(
    sign: Payload -> Signature, f: Fleet, key: VaultBinding.Key, s: VaultBinding.State, step: VaultBinding.Step)
    returns (more: seq<Step>, g: Fleet)
    requires Inv(sign, f, false) && VaultBinding.Inv(key, s) && ShowsRecord(f, s)
    ensures g == Continue(sign, f, more) && Inv(sign, g, false)
    ensures var t := VaultBinding.Exec(key, s, step);
      ShowsRecord(g, t) && g == Moved(f, t.owner, t.owner.Some?, false)
  {
    VaultBinding.RecordMoves(key, s, step);
    var t := VaultBinding.Exec(key, s, step);
    more, g := EveryMoveIsCovered(sign, f, t.owner, t.owner.Some?, false);
  }

  /** A claimer that succeeded is one whose claim step may report success, and it changes nothing more. */
  lemma RecordReportIsJustified(f: Fleet, key: VaultBinding.Key, steps: seq<VaultBinding.Step>, i: nat, p: nat)
    requires var s := VaultBinding.Run(key, steps);
      ShowsRecord(f, s) && i < |s.actors| && VaultBinding.Succeeded(s.actors[i])
    requires p < |f.processes|
    ensures var id := VaultBinding.Run(key, steps).actors[i].id;
      ClaimAttempt(f, p, id, false, true) == SetPc(f, p, Rereading(id))
  {
    VaultBinding.SuccessMeansOwned(key, steps, i);
  }

  /** The request that decides a read of the record reports the fleet's claim, or that the record was erased. */
  lemma RecordReadIsJustified(f: Fleet, key: VaultBinding.Key, s: VaultBinding.State, read: VaultBinding.ReadPc)
    requires ShowsRecord(f, s) && VaultBinding.RecordOk(key, s) && VaultBinding.ReadOnce(key, s.stored, read).Err?
    requires read == VaultBinding.SecondData ==> !s.stored.Absent?
    ensures var outcome := VaultBinding.ReadOnce(key, s.stored, read).error;
      outcome == ReadClaim(f.claim, true) || (outcome == Err(Corrupt) && s.erased)
  {
    VaultBinding.DecidingRead(key, s, read);
  }

  // ---------------------------------------------------------------- marker files

  /** The fleet's claim is the one of this marker. */
  predicate ShowsMarker(f: Fleet, s: FileBinding.State)
    requires s.dirs != []
  {
    && f.resource.MarkerFile?
    && f.claim == FileBindingProofs.OwnerNow(s) && f.durable == FileBindingProofs.Durable(s)
  }

  /** Whatever processes, syncs and crashes do to a marker, the fleet's claim does with it. */
  lemma MarkerIsFollowed(
    sign: Payload -> Signature, f: Fleet, exclusive: bool, s: FileBinding.State, step: FileBinding.Step)
    returns (more: seq<Step>, g: Fleet)
    requires Inv(sign, f, false) && FileBindingProofs.Inv(exclusive, s) && ShowsMarker(f, s)
    ensures g == Continue(sign, f, more) && Inv(sign, g, false)
    ensures FileBinding.Exec(exclusive, s, step).dirs != []
    ensures var t := FileBinding.Exec(exclusive, s, step);
      && ShowsMarker(g, t)
      && g == Moved(f, FileBindingProofs.OwnerNow(t), FileBindingProofs.Durable(t),
                    FileBindingProofs.HostCrashes(s, step))
  {
    FileBindingProofs.MarkerMoves(exclusive, s, step);
    var t := FileBinding.Exec(exclusive, s, step);
    more, g := EveryMoveIsCovered(
      sign, f, FileBindingProofs.OwnerNow(t), FileBindingProofs.Durable(t), FileBindingProofs.HostCrashes(s, step));
  }

  /** A claim that succeeded is one whose claim step may report success, and it changes nothing more. */
  lemma MarkerReportIsJustified(
    f: Fleet, exclusive: bool, key: Option<int>, steps: seq<FileBinding.Step>, i: nat, p: nat)
    requires var s := FileBinding.Run(exclusive, key, steps);
      ShowsMarker(f, s) && i < |s.processes| && FileBindingProofs.Succeeded(s.processes[i])
    requires p < |f.processes|
    ensures var id := FileBinding.Run(exclusive, key, steps).processes[i].id;
      ClaimAttempt(f, p, id, false, true) == SetPc(f, p, Rereading(id))
  {
    var s := FileBinding.Run(exclusive, key, steps);
    FileBindingProofs.SuccessIsDurable(exclusive, key, steps, i);
    FileBindingProofs.RunKeepsInv(exclusive, key, steps);
    assert FileBindingProofs.ProcessOk(exclusive, s, i, s.processes[i]);
    forall k | 0 <= k < |s.dirs| ensures s.dirs[k].marker.Some? {
      assert FileBinding.OwnerOf(s.inodes, s.dirs[k]) == Some(s.processes[i].id);
    }
  }

  /** A read of the marker reports the fleet's claim, or that it was made for another key. */
  lemma MarkerReadIsJustified(f: Fleet, exclusive: bool, s: FileBinding.State, publicKey: int)
    requires FileBindingProofs.Inv(exclusive, s) && ShowsMarker(f, s)
    ensures var outcome := FileBinding.ReadMarker(s.inodes, FileBinding.Current(s), publicKey);
      || outcome == ReadClaim(f.claim, true)
      || (outcome == Err(Corrupt)
          && FileBinding.RecordOf(s.inodes, FileBinding.Current(s)).Some?
          && FileBinding.RecordOf(s.inodes, FileBinding.Current(s)).value.publicKey != publicKey)
  {
    assert FileBindingProofs.DirOk(exclusive, s.inodes, FileBinding.Current(s));
  }
}
