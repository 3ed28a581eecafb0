/** Which claims and provisionings can be brought to an end, and which cannot. */
module FileBindingProgress {
  import opened Wrappers
  import opened Binding
  import opened FileBinding
  import opened FileBindingProofs
  import ClusterId

  // ---------------------------------------------------------------- continuing from a state

  lemma {:induction false} ContinueFurther(exclusive: bool, s: State, a: seq<Step>, b: seq<Step>)
    requires s.dirs != []
    ensures Continue(exclusive, s, a + b) == Continue(exclusive, Continue(exclusive, s, a), b)
    decreases |b|
  {
    if b == [] {
      assert a + b == a;
    } else {
      ContinueFurther(exclusive, s, a, b[..|b| - 1]);
      assert (a + b)[..|a + b| - 1] == a + b[..|b| - 1];
    }
  }

  /** One step as a continuation. */
  lemma OneStep(exclusive: bool, s: State, step: Step) returns (more: seq<Step>, t: State)
    requires s.dirs != []
    ensures t == Continue(exclusive, s, more) && t.dirs != []
    ensures t == Exec(exclusive, s, step)
  {
    more := [step];
    assert more[..0] == [];
    ExecKeepsDirs(exclusive, s, step);
    t := Exec(exclusive, s, step);
  }

  /** Two continuations as one. */
  lemma Joined(exclusive: bool, s: State, a: seq<Step>, t: State, b: seq<Step>) returns (more: seq<Step>)
    requires s.dirs != [] && t == Continue(exclusive, s, a)
    ensures more == a + b && Continue(exclusive, s, more) == Continue(exclusive, t, b)
  {
    more := a + b;
    ContinueFurther(exclusive, s, a, b);
  }

  // ---------------------------------------------------------------- provisioning

  /** The provisioner at process p is at work and holds the lock; all else is as in s. */
  function Providing(s: State, p: nat, k: int, overwrite: bool, work: ProvisionPc): State
    requires p < |s.processes|
  {
    SetProcess(s, p, Provisioner(k, overwrite, work)).(lock := Some(p))
  }

  /** Two steps of one process, between known states. */
  lemma TwoSteps(exclusive: bool, s: State, p: nat, t: State, u: State) returns (more: seq<Step>)
    requires s.dirs != [] && t.dirs != []
    requires Exec(exclusive, s, Go(p, true)) == t && Exec(exclusive, t, Go(p, true)) == u
    ensures Continue(exclusive, s, more) == u
  {
    var a, _ := OneStep(exclusive, s, Go(p, true));
    var b, _ := OneStep(exclusive, t, Go(p, true));
    more := Joined(exclusive, s, a, t, b);
  }

  /** The new key file, synced or not. */
  function WithKey(s: State, p: nat, k: int, synced: bool): State {
    s.(inodes := s.inodes + [Inode(KeyFile(k), synced, p)])
  }

  function Renamed(s: State, p: nat, k: int): State
    requires s.dirs != []
  {
    UpdateDir(WithKey(s, p, k, true), Current(s).(key := Some(|s.inodes|)))
  }

  lemma InspectSteps(exclusive: bool, s: State, p: nat, k: int, overwrite: bool)
    requires s.dirs != [] && s.lock.None? && Current(s).marker.None?
    requires p < |s.processes| && s.processes[p] == Provisioner(k, overwrite, Queued)
    ensures Exec(exclusive, s, Go(p, true)) == Providing(s, p, k, overwrite, Inspecting)
    ensures Exec(exclusive, Providing(s, p, k, overwrite, Inspecting), Go(p, true))
      == Providing(s, p, k, overwrite, Opening)
  {
  }

  lemma GenerateSteps(exclusive: bool, s: State, p: nat, k: int, overwrite: bool)
    requires s.dirs != [] && p < |s.processes| && (overwrite || Current(s).key.None?)
    ensures Exec(exclusive, Providing(s, p, k, overwrite, Opening), Go(p, true))
      == Providing(s, p, k, overwrite, Generating)
    ensures Exec(exclusive, Providing(s, p, k, overwrite, Generating), Go(p, true))
      == Providing(WithKey(s, p, k, false), p, k, overwrite, Flushing(|s.inodes|))
  {
  }

  lemma RenameSteps(exclusive: bool, s: State, p: nat, k: int, overwrite: bool)
    requires s.dirs != [] && p < |s.processes|
    ensures Exec(exclusive, Providing(WithKey(s, p, k, false), p, k, overwrite, Flushing(|s.inodes|)), Go(p, true))
      == Providing(WithKey(s, p, k, true), p, k, overwrite, Renaming(|s.inodes|))
    ensures Exec(exclusive, Providing(WithKey(s, p, k, true), p, k, overwrite, Renaming(|s.inodes|)), Go(p, true))
      == Providing(Renamed(s, p, k), p, k, overwrite, SyncingKeyDir)
  {
  }

  /** What a finished provisioning leaves. */
  predicate Provided(s: State, t: State, p: nat, k: int, overwrite: bool) {
    && s.dirs != [] && t.dirs != [] && p < |s.processes|
    && t.lock.None? && Current(t).marker == Current(s).marker && KeyOf(t.inodes, Current(t)) == Some(k)
    && t.processes == s.processes[p := Provisioner(k, overwrite, Finished(true))]
  }

  lemma DirSynced(exclusive: bool, s: State, p: nat, k: int, overwrite: bool) returns (more: seq<Step>, t: State)
    requires s.dirs != [] && p < |s.processes|
    ensures t == Continue(exclusive, Providing(Renamed(s, p, k), p, k, overwrite, SyncingKeyDir), more)
    ensures Provided(s, t, p, k, overwrite)
  {
    more, t := OneStep(exclusive, Providing(Renamed(s, p, k), p, k, overwrite, SyncingKeyDir), Go(p, true));
  }

  lemma ReachesKeyDirSync(exclusive: bool, s: State, p: nat, k: int, overwrite: bool) returns (more: seq<Step>)
    requires s.dirs != [] && s.lock.None? && Current(s).marker.None? && (overwrite || Current(s).key.None?)
    requires p < |s.processes| && s.processes[p] == Provisioner(k, overwrite, Queued)
    ensures Continue(exclusive, s, more) == Providing(Renamed(s, p, k), p, k, overwrite, SyncingKeyDir)
  {
    var opening := Providing(s, p, k, overwrite, Opening);
    var flushing := Providing(WithKey(s, p, k, false), p, k, overwrite, Flushing(|s.inodes|));
    InspectSteps(exclusive, s, p, k, overwrite);
    GenerateSteps(exclusive, s, p, k, overwrite);
    RenameSteps(exclusive, s, p, k, overwrite);
    var a := TwoSteps(exclusive, s, p, Providing(s, p, k, overwrite, Inspecting), opening);
    var b := TwoSteps(exclusive, opening, p, Providing(s, p, k, overwrite, Generating), flushing);
    var c := TwoSteps(
      exclusive, flushing, p, Providing(WithKey(s, p, k, true), p, k, overwrite, Renaming(|s.inodes|)),
      Providing(Renamed(s, p, k), p, k, overwrite, SyncingKeyDir));
    more := Joined(exclusive, opening, b, flushing, c);
    more := Joined(exclusive, s, a, opening, more);
  }

  /**
    Where there is no marker and the lock is free, a provisioning that may overwrite, or finds no key, puts
    its key on disk.
   */
  lemma ProvisionSucceeds(exclusive: bool, s: State, k: int, overwrite: bool) returns (more: seq<Step>, t: State)
    requires s.dirs != [] && s.lock.None? && Current(s).marker.None? && (overwrite || Current(s).key.None?)
    ensures t == Continue(exclusive, s, more) && t.dirs != []
    ensures t.lock.None? && Current(t).marker.None? && KeyOf(t.inodes, Current(t)) == Some(k)
    ensures t.processes == s.processes + [Provisioner(k, overwrite, Finished(true))]
  {
    var p := |s.processes|;
    var arrive, s1 := OneStep(exclusive, s, ArriveProvision(k, overwrite));
    var work := ReachesKeyDirSync(exclusive, s1, p, k, overwrite);
    var sync;
    sync, t := DirSynced(exclusive, s1, p, k, overwrite);
    more := Joined(exclusive, s1, work, Providing(Renamed(s1, p, k), p, k, overwrite, SyncingKeyDir), sync);
    more := Joined(exclusive, s, arrive, s1, more);
  }

  /** A provisioning that finds a marker, or a key it may not overwrite, ends without touching the disk. */
  lemma ProvisionRefused(exclusive: bool, s: State, p: nat)
    requires s.dirs != [] && p < |s.processes| && s.processes[p].Provisioner?
    requires var c := s.processes[p];
      || (c.work.Inspecting? && Current(s).marker.Some?)
      || (c.work.Opening? && Current(s).key.Some? && !c.overwrite)
    ensures var t := Exec(exclusive, s, Go(p, true));
      t.processes[p].work == Finished(false) && t.dirs == s.dirs && t.inodes == s.inodes
  {
  }

  // ---------------------------------------------------------------- claims

  lemma OpenSteps(exclusive: bool, s: State, p: nat, id: string, k: int)
    requires s.dirs != [] && s.lock.None? && KeyOf(s.inodes, Current(s)) == Some(k)
    requires p < |s.processes| && s.processes[p] == Claimer(id, k, Waiting)
    ensures Exec(exclusive, s, Go(p, true)) == Working(s, p, id, k, Prechecking)
    ensures Exec(exclusive, Working(s, p, id, k, Prechecking), Go(p, true)) == Working(s, p, id, k, Reading)
  {
  }

  lemma CreateSteps(exclusive: bool, s: State, p: nat, id: string, k: int)
    requires s.dirs != [] && p < |s.processes| && Current(s).marker.None?
    ensures Exec(exclusive, Working(s, p, id, k, Reading), Go(p, true)) == Working(s, p, id, k, Creating)
    ensures Exec(exclusive, Working(s, p, id, k, Creating), Go(p, true))
      == Working(NewFile(s, p), p, id, k, Writing(|s.inodes|))
  {
  }

  lemma WriteSteps(exclusive: bool, s: State, p: nat, id: string, k: int)
    requires s.dirs != [] && p < |s.processes|
    ensures Exec(exclusive, Working(NewFile(s, p), p, id, k, Writing(|s.inodes|)), Go(p, true))
      == Working(WithTemp(s, p, id, k, false), p, id, k, Syncing(|s.inodes|))
    ensures Exec(exclusive, Working(WithTemp(s, p, id, k, false), p, id, k, Syncing(|s.inodes|)), Go(p, true))
      == Working(WithTemp(s, p, id, k, true), p, id, k, Linking(|s.inodes|))
  {
  }

  /** The state with the marker linked. */
  function Linked(s: State, p: nat, id: string, k: int): State
    requires s.dirs != []
  {
    UpdateDir(WithTemp(s, p, id, k, true), Current(s).(marker := Some(|s.inodes|)))
  }

  lemma LinkSteps(exclusive: bool, s: State, p: nat, id: string, k: int)
    requires s.dirs != [] && p < |s.processes| && Current(s).marker.None?
    ensures Exec(exclusive, Working(WithTemp(s, p, id, k, true), p, id, k, Linking(|s.inodes|)), Go(p, true))
      == Working(Linked(s, p, id, k), p, id, k, Removing(|s.inodes|, true))
    ensures Exec(exclusive, Working(Linked(s, p, id, k), p, id, k, Removing(|s.inodes|, true)), Go(p, true))
      == Working(Linked(s, p, id, k), p, id, k, SyncingDir(id, true))
  {
  }

  lemma LastStep(exclusive: bool, s: State, p: nat, id: string, k: int) returns (more: seq<Step>)
    requires s.dirs != [] && p < |s.processes| && s.processes[p] == Claimer(id, k, SyncingDir(id, true))
    ensures SucceedsAt(Continue(exclusive, s, more), p, id)
  {
    var t;
    more, t := OneStep(exclusive, s, Go(p, true));
  }

  /** From the read to the created file, and on to the linked marker. */
  lemma ReachesWriting(exclusive: bool, s: State, p: nat, id: string, k: int) returns (more: seq<Step>)
    requires s.dirs != [] && s.lock.None? && Current(s).marker.None? && KeyOf(s.inodes, Current(s)) == Some(k)
    requires p < |s.processes| && s.processes[p] == Claimer(id, k, Waiting)
    ensures Continue(exclusive, s, more) == Working(NewFile(s, p), p, id, k, Writing(|s.inodes|))
  {
    var reading := Working(s, p, id, k, Reading);
    OpenSteps(exclusive, s, p, id, k);
    CreateSteps(exclusive, s, p, id, k);
    var a := TwoSteps(exclusive, s, p, Working(s, p, id, k, Prechecking), reading);
    var b := TwoSteps(
      exclusive, reading, p, Working(s, p, id, k, Creating), Working(NewFile(s, p), p, id, k, Writing(|s.inodes|)));
    more := Joined(exclusive, s, a, reading, b);
  }

  lemma ReachesDirSync(exclusive: bool, s: State, p: nat, id: string, k: int) returns (more: seq<Step>)
    requires s.dirs != [] && p < |s.processes| && Current(s).marker.None?
    ensures Continue(exclusive, Working(NewFile(s, p), p, id, k, Writing(|s.inodes|)), more)
      == Working(Linked(s, p, id, k), p, id, k, SyncingDir(id, true))
  {
    var writing := Working(NewFile(s, p), p, id, k, Writing(|s.inodes|));
    var linking := Working(WithTemp(s, p, id, k, true), p, id, k, Linking(|s.inodes|));
    WriteSteps(exclusive, s, p, id, k);
    LinkSteps(exclusive, s, p, id, k);
    var a := TwoSteps(
      exclusive, writing, p, Working(WithTemp(s, p, id, k, false), p, id, k, Syncing(|s.inodes|)), linking);
    var b := TwoSteps(
      exclusive, linking, p, Working(Linked(s, p, id, k), p, id, k, Removing(|s.inodes|, true)),
      Working(Linked(s, p, id, k), p, id, k, SyncingDir(id, true)));
    more := Joined(exclusive, writing, a, linking, b);
  }

  /** Where there is no marker, a waiting claimer whose key is on disk succeeds. */
  lemma FirstSucceeds(exclusive: bool, s: State, p: nat, id: string, k: int) returns (more: seq<Step>)
    requires s.dirs != [] && s.lock.None? && Current(s).marker.None? && KeyOf(s.inodes, Current(s)) == Some(k)
    requires p < |s.processes| && s.processes[p] == Claimer(id, k, Waiting)
    ensures SucceedsAt(Continue(exclusive, s, more), p, id)
  {
    var writing := Working(NewFile(s, p), p, id, k, Writing(|s.inodes|));
    var syncing := Working(Linked(s, p, id, k), p, id, k, SyncingDir(id, true));
    var a := ReachesWriting(exclusive, s, p, id, k);
    var b := ReachesDirSync(exclusive, s, p, id, k);
    var c := LastStep(exclusive, syncing, p, id, k);
    more := Joined(exclusive, writing, b, syncing, c);
    more := Joined(exclusive, s, a, writing, more);
  }

  lemma ConfirmSteps(exclusive: bool, s: State, p: nat, id: string, k: int)
    requires s.dirs != [] && p < |s.processes| && ClusterId.Valid(id)
    requires Current(s).marker.Some? && RecordOf(s.inodes, Current(s)) == Some(Record(id, k))
    ensures Exec(exclusive, Working(s, p, id, k, Reading), Go(p, true)) == Working(s, p, id, k, SyncingFile(id, true))
    ensures Exec(exclusive, Working(s, p, id, k, SyncingFile(id, true)), Go(p, true))
      == Working(SyncFile(s, Current(s).marker.value), p, id, k, SyncingDir(id, true))
  {
  }

  /** Where the marker is already this cluster's, a waiting claimer succeeds again. */
  lemma OwnerSucceeds(exclusive: bool, s: State, p: nat, id: string, k: int) returns (more: seq<Step>)
    requires s.dirs != [] && s.lock.None? && KeyOf(s.inodes, Current(s)) == Some(k) && ClusterId.Valid(id)
    requires Current(s).marker.Some? && RecordOf(s.inodes, Current(s)) == Some(Record(id, k))
    requires p < |s.processes| && s.processes[p] == Claimer(id, k, Waiting)
    ensures SucceedsAt(Continue(exclusive, s, more), p, id)
  {
    var reading := Working(s, p, id, k, Reading);
    var syncing := Working(SyncFile(s, Current(s).marker.value), p, id, k, SyncingDir(id, true));
    OpenSteps(exclusive, s, p, id, k);
    ConfirmSteps(exclusive, s, p, id, k);
    var a := TwoSteps(exclusive, s, p, Working(s, p, id, k, Prechecking), reading);
    var b := TwoSteps(exclusive, reading, p, Working(s, p, id, k, SyncingFile(id, true)), syncing);
    var c := LastStep(exclusive, syncing, p, id, k);
    more := Joined(exclusive, reading, b, syncing, c);
    more := Joined(exclusive, s, a, reading, more);
  }

  predicate SucceedsAt(s: State, p: nat, id: string) {
    p < |s.processes| && Succeeded(s.processes[p]) && s.processes[p].id == id
  }

  // ---------------------------------------------------------------- which claims can succeed

  /** Whoever holds the lock is a process. */
  lemma {:induction false} LockIsHeld(exclusive: bool, key: Option<int>, steps: seq<Step>)
    ensures var s := Run(exclusive, key, steps); s.lock.Some? ==> s.lock.value < |s.processes|
  {
    if steps != [] {
      LockIsHeld(exclusive, key, steps[..|steps| - 1]);
      LockStaysHeld(exclusive, Run(exclusive, key, steps[..|steps| - 1]), steps[|steps| - 1]);
    }
  }

  lemma LockStaysHeld(exclusive: bool, s: State, step: Step)
    requires s.dirs != [] && (s.lock.Some? ==> s.lock.value < |s.processes|)
    ensures var t := Exec(exclusive, s, step); t.lock.Some? ==> t.lock.value < |t.processes|
  {
    if step.Go? && step.process < |s.processes| {
      if s.processes[step.process].Claimer? {
        ClaimStepIsLocal(exclusive, s, step.process, step.ok);
      } else {
        ProvisionStepIsLocal(exclusive, s, step.process, step.ok);
      }
    }
  }

  /** The lock comes free when its holder is killed; nothing else changes. */
  lemma LockFreed(exclusive: bool, s: State) returns (more: seq<Step>, t: State)
    requires s.dirs != [] && (s.lock.Some? ==> s.lock.value < |s.processes|)
    ensures t == Continue(exclusive, s, more) && t.lock.None?
    ensures t.dirs == s.dirs && t.inodes == s.inodes && |t.processes| == |s.processes|
    ensures forall p :: 0 <= p < |s.processes| && s.lock != Some(p) ==> t.processes[p] == s.processes[p]
  {
    if s.lock.Some? {
      more, t := OneStep(exclusive, s, Kill(s.lock.value));
    } else {
      more, t := [], s;
    }
  }

  /** The marker's record in the current directory. */
  function RecordNow(s: State): Option<Record>
    requires s.dirs != []
  {
    RecordOf(s.inodes, Current(s))
  }

  /** The resource is free for this cluster and key: unclaimed, or claimed for just them. */
  predicate Open(s: State, id: string, k: int)
    requires s.dirs != []
  {
    RecordNow(s).None? || RecordNow(s) == Some(Record(id, k))
  }

  lemma ClaimReachesSuccess(s: State, p: nat, id: string, k: int) returns (more: seq<Step>)
    requires Inv(true, s) && Open(s, id, k) && ClusterId.Valid(id)
    requires (s.lock.Some? ==> s.lock.value < |s.processes|) && s.lock != Some(p)
    requires p < |s.processes| && s.processes[p] == Claimer(id, k, Waiting)
    ensures SucceedsAt(Continue(true, s, more), p, id)
  {
    assert DirOk(true, s.inodes, Current(s));
    var free, s1 := LockFreed(true, s);
    var rest;
    if RecordNow(s).Some? {
      rest := OwnerSucceeds(true, s1, p, id, k);
    } else {
      var provision, s2 := ProvisionSucceeds(true, s1, k, true);
      rest := FirstSucceeds(true, s2, p, id, k);
      rest := Joined(true, s1, provision, s2, rest);
    }
    more := Joined(true, s, free, s1, rest);
  }

  /** A record stays through every step that is not a crash of the host. */
  lemma RecordSurvives(s: State, step: Step)
    requires Inv(true, s) && RecordNow(s).Some? && !HostCrashes(s, step)
    ensures var t := Exec(true, s, step); t.dirs != [] && RecordNow(t) == RecordNow(s)
  {
    if step.Go? && step.process < |s.processes| {
      var p := step.process;
      if s.processes[p].Claimer? {
        ClaimFrame(true, s, p, step.ok);
        RecordStable(s, ClaimStep(true, s, p, step.ok), p);
      } else {
        ProvisionFrame(true, s, p, step.ok);
        RecordStable(s, ProvisionStep(true, s, p, step.ok), p);
      }
    }
  }

  lemma RecordStable(s: State, t: State, p: nat)
    requires DirsOk(true, s.inodes, s.dirs) && FilesFrom(s.inodes, t.inodes, p) && DirsFrom(s.dirs, t.dirs)
    requires RecordNow(s).Some?
    ensures t.dirs != [] && RecordNow(t) == RecordNow(s)
  {
    DirStable(true, s.inodes, t.inodes, p, Current(s));
  }

  /** The claimer has failed, or waits for its precheck while the marker is not for its cluster and key. */
  predicate ShutOut(s: State, p: nat, id: string, k: int)
    requires s.dirs != []
  {
    && p < |s.processes| && s.processes[p].Claimer? && s.processes[p].id == id && s.processes[p].publicKey == k
    && (|| (s.processes[p].pc.Done? && s.processes[p].pc.error.Some?)
        || (&& RecordNow(s).Some? && RecordNow(s) != Some(Record(id, k))
            && (RecordNow(s).value.clusterId == id ==> s.processes[p].pc.Waiting? || s.processes[p].pc.Prechecking?)
            && !Succeeded(s.processes[p])))
  }

  /** What the claimer's own next step does while the marker is for another key. */
  lemma OwnStepShutOut(s: State, p: nat, id: string, k: int, ok: bool)
    requires Inv(true, s) && ShutOut(s, p, id, k)
    ensures var t := ClaimStep(true, s, p, ok);
      && p < |t.processes| && t.processes[p].Claimer? && t.processes[p].id == id && t.processes[p].publicKey == k
      && ((t.processes[p].pc.Done? && t.processes[p].pc.error.Some?)
          || (RecordNow(s).Some? && RecordNow(s) != Some(Record(id, k))
              && (RecordNow(s).value.clusterId == id ==>
                    t.processes[p].pc.Waiting? || t.processes[p].pc.Prechecking?)))
  {
    assert DirOk(true, s.inodes, Current(s));
  }

  lemma StepKeepsShutOut(s: State, step: Step, p: nat, id: string, k: int)
    requires Inv(true, s) && ShutOut(s, p, id, k)
    ensures var t := Exec(true, s, step); t.dirs != [] && ShutOut(t, p, id, k)
  {
    var t := Exec(true, s, step);
    StepKeepsInv(true, s, step);
    assert ProcessOk(true, s, p, s.processes[p]);
    if HostCrashes(s, step) {
      assert t.processes[p] == Dead(s.processes[p]);
    } else {
      if RecordNow(s).Some? { RecordSurvives(s, step); }
      if step.Go? && step.process == p { OwnStepShutOut(s, p, id, k, step.ok); }
      else { OthersLeaveIt(s, step, p); }
      assert ProcessOk(true, t, p, t.processes[p]);
    }
  }

  /** Another's step leaves a claimer as it is, unless it is killed. */
  lemma OthersLeaveIt(s: State, step: Step, p: nat)
    requires s.dirs != [] && p < |s.processes| && !HostCrashes(s, step) && !(step.Go? && step.process == p)
    ensures var t := Exec(true, s, step);
      p < |t.processes| && (t.processes[p] == s.processes[p] || t.processes[p] == Dead(s.processes[p]))
  {
    if step.Go? && step.process < |s.processes| {
      if s.processes[step.process].Claimer? {
        ClaimStepIsLocal(true, s, step.process, step.ok);
      } else {
        ProvisionStepIsLocal(true, s, step.process, step.ok);
      }
    }
  }

  lemma {:induction false} ShutOutForever(s: State, more: seq<Step>, p: nat, id: string, k: int)
    requires Inv(true, s) && ShutOut(s, p, id, k)
    ensures Inv(true, Continue(true, s, more)) && ShutOut(Continue(true, s, more), p, id, k)
  {
    if more != [] {
      ShutOutForever(s, more[..|more| - 1], p, id, k);
      var t := Continue(true, s, more[..|more| - 1]);
      StepKeepsInv(true, t, more[|more| - 1]);
      StepKeepsShutOut(t, more[|more| - 1], p, id, k);
    }
  }

  /**
    In every reachable state of a host with the lock, a new claim can be brought to success if and only if
    its ID is valid and the key is unclaimed, or claimed for just this cluster and key.
   */
  lemma ClaimSucceedsIff(key: Option<int>, steps: seq<Step>, id: string, k: int)
    ensures var s := Run(true, key, steps);
      (exists more :: SucceedsAt(Run(true, key, steps + [ArriveClaim(id, k)] + more), |s.processes|, id))
      <==> ClusterId.Valid(id) && Open(s, id, k)
  {
    var s := Run(true, key, steps);
    var p := |s.processes|;
    RunKeepsInv(true, key, steps);
    LockIsHeld(true, key, steps);
    RunSnoc(true, key, steps, ArriveClaim(id, k));
    var s1 := Exec(true, s, ArriveClaim(id, k));
    StepKeepsInv(true, s, ArriveClaim(id, k));
    if ClusterId.Valid(id) && Open(s, id, k) {
      var more := ClaimReachesSuccess(s1, p, id, k);
      RunContinues(true, key, steps + [ArriveClaim(id, k)], more);
      assert SucceedsAt(Run(true, key, steps + [ArriveClaim(id, k)] + more), p, id);
    } else {
      forall more ensures !SucceedsAt(Run(true, key, steps + [ArriveClaim(id, k)] + more), p, id) {
        RunContinues(true, key, steps + [ArriveClaim(id, k)], more);
        ShutOutForever(s1, more, p, id, k);
      }
    }
  }

  /** A claim that ends at the directory sync ends in success for the owner and in a mismatch for all others. */
  lemma DecidedClaim(exclusive: bool, s: State, p: nat)
    requires s.dirs != [] && p < |s.processes| && s.processes[p].Claimer? && s.processes[p].pc.SyncingDir?
    requires s.processes[p].pc.clean
    ensures var t := Exec(exclusive, s, Go(p, true));
      t.processes[p].pc == Done(if s.processes[p].pc.owner == s.processes[p].id then None else Some(Mismatch))
  {
  }
}
