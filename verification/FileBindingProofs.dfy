/** What claims and provisionings keep over every run, crashes included. */
module FileBindingProofs {
  import opened Wrappers
  import opened Binding
  import opened FileBinding
  import ClusterId

  // ---------------------------------------------------------------- the invariant

  /** An existing marker is a complete record on disk; with the lock it names the key beside it. */
  predicate DirOk(exclusive: bool, inodes: seq<Inode>, d: Dir) {
    && (d.marker.Some? ==>
          && d.marker.value < |inodes| && inodes[d.marker.value].synced
          && RecordOf(inodes, d).Some? && ClusterId.Valid(RecordOf(inodes, d).value.clusterId))
    && (d.key.Some? ==> d.key.value < |inodes| && inodes[d.key.value].synced && KeyOf(inodes, d).Some?)
    && (exclusive && d.marker.Some? ==> KeyOf(inodes, d) == Some(RecordOf(inodes, d).value.publicKey))
  }

  predicate DirsOk(exclusive: bool, inodes: seq<Inode>, dirs: seq<Dir>) {
    && dirs != []
    && (forall k :: 0 <= k < |dirs| ==> DirOk(exclusive, inodes, dirs[k]))
    && (forall k :: 0 <= k < |dirs| ==> dirs[k].marker.None? || dirs[k].marker == dirs[|dirs| - 1].marker)
  }

  predicate Critical(proc: Process) {
    match proc
    case Claimer(_, _, pc) => !pc.Waiting? && !pc.Done?
    case Provisioner(_, _, work) => !work.Queued? && !work.Finished?
  }

  predicate Unwritten(inodes: seq<Inode>, t: nat, p: nat) {
    t < |inodes| && inodes[t].writer == p && !inodes[t].synced
  }

  predicate ClaimOk(inodes: seq<Inode>, dirs: seq<Dir>, p: nat, c: Process)
    requires c.Claimer? && dirs != []
  {
    var cur := dirs[|dirs| - 1];
    && (!c.pc.Done? ==> ClusterId.Valid(c.id))
    && match c.pc
       case Writing(t) => Unwritten(inodes, t, p)
       case Syncing(t) => Unwritten(inodes, t, p) && inodes[t].content == Marker(Record(c.id, c.publicKey))
       case Linking(t) => t < |inodes| && inodes[t].synced && inodes[t].content == Marker(Record(c.id, c.publicKey))
       case Removing(t, published) => published ==> OwnerOf(inodes, cur) == Some(c.id)
       case SyncingFile(owner, _) => OwnerOf(inodes, cur) == Some(owner)
       case SyncingDir(owner, _) => OwnerOf(inodes, cur) == Some(owner)
       case Done(error) => error.None? ==> forall k :: 0 <= k < |dirs| ==> OwnerOf(inodes, dirs[k]) == Some(c.id)
       case _ => true
  }

  predicate ProvisionOk(inodes: seq<Inode>, p: nat, c: Process)
    requires c.Provisioner?
  {
    match c.work
    case Flushing(t) => Unwritten(inodes, t, p) && inodes[t].content == KeyFile(c.newKey)
    case Renaming(t) => t < |inodes| && inodes[t].synced && inodes[t].content == KeyFile(c.newKey)
    case _ => true
  }

  /** What the lock buys: the key a claimer checked stays, and no marker appears under a provisioner. */
  predicate LockOk(inodes: seq<Inode>, dirs: seq<Dir>, lock: Option<nat>, p: nat, c: Process)
    requires dirs != []
  {
    var cur := dirs[|dirs| - 1];
    Critical(c) ==>
      && lock == Some(p)
      && match c
         case Claimer(_, k, pc) =>
           pc.Reading? || pc.Creating? || pc.Writing? || pc.Syncing? || pc.Linking? ==> KeyOf(inodes, cur) == Some(k)
         case Provisioner(_, _, work) =>
           work.Opening? || work.Generating? || work.Flushing? || work.Renaming? ==> cur.marker.None?
  }

  predicate ProcessOk(exclusive: bool, s: State, p: nat, c: Process)
    requires s.dirs != []
  {
    && (c.Claimer? ==> ClaimOk(s.inodes, s.dirs, p, c))
    && (c.Provisioner? ==> ProvisionOk(s.inodes, p, c))
    && (exclusive ==> LockOk(s.inodes, s.dirs, s.lock, p, c))
  }

  predicate Inv(exclusive: bool, s: State) {
    && DirsOk(exclusive, s.inodes, s.dirs)
    && forall p :: 0 <= p < |s.processes| ==> ProcessOk(exclusive, s, p, s.processes[p])
  }

  // ---------------------------------------------------------------- frames

  /** Only unsynced files of process p may differ; new files may appear. */
  predicate FilesFrom(a: seq<Inode>, b: seq<Inode>, p: nat) {
    && |a| <= |b|
    && forall i :: 0 <= i < |a| ==> a[i] == b[i] || (a[i].writer == p && !a[i].synced)
  }

  /** Directory updates of one step: none, a sync, or one new state that keeps an existing marker. */
  predicate DirsFrom(a: seq<Dir>, b: seq<Dir>)
    requires a != []
  {
    var cur := a[|a| - 1];
    || b == a
    || b == [cur]
    || (|b| == |a| + 1 && b[..|a|] == a && (cur.marker.Some? ==> b[|a|].marker == cur.marker))
  }

  lemma DirStable(exclusive: bool, a: seq<Inode>, b: seq<Inode>, p: nat, d: Dir)
    requires DirOk(exclusive, a, d) && FilesFrom(a, b, p)
    ensures RecordOf(b, d) == RecordOf(a, d) && KeyOf(b, d) == KeyOf(a, d) && DirOk(exclusive, b, d)
  {
  }

  /** Success of a claimer survives every step that is not its own. */
  lemma OwnersStable(exclusive: bool, s: State, t: State, p: nat, id: string)
    requires DirsOk(exclusive, s.inodes, s.dirs) && FilesFrom(s.inodes, t.inodes, p) && DirsFrom(s.dirs, t.dirs)
    requires forall k :: 0 <= k < |s.dirs| ==> OwnerOf(s.inodes, s.dirs[k]) == Some(id)
    ensures forall k :: 0 <= k < |t.dirs| ==> OwnerOf(t.inodes, t.dirs[k]) == Some(id)
  {
    var cur := s.dirs[|s.dirs| - 1];
    assert OwnerOf(s.inodes, cur) == Some(id);
    forall k | 0 <= k < |t.dirs| ensures OwnerOf(t.inodes, t.dirs[k]) == Some(id) {
      if t.dirs == s.dirs {
        DirStable(exclusive, s.inodes, t.inodes, p, s.dirs[k]);
      } else if t.dirs == [cur] {
        DirStable(exclusive, s.inodes, t.inodes, p, cur);
      } else if k < |s.dirs| {
        assert t.dirs[k] == t.dirs[..|s.dirs|][k] == s.dirs[k];
        DirStable(exclusive, s.inodes, t.inodes, p, s.dirs[k]);
      } else {
        DirStable(exclusive, s.inodes, t.inodes, p, cur);
      }
    }
  }

  /** The current owner survives every step of this kind. */
  lemma OwnerStable(exclusive: bool, s: State, t: State, p: nat)
    requires DirsOk(exclusive, s.inodes, s.dirs) && FilesFrom(s.inodes, t.inodes, p) && DirsFrom(s.dirs, t.dirs)
    ensures t.dirs != []
    ensures OwnerOf(s.inodes, Current(s)).Some? ==> OwnerOf(t.inodes, Current(t)) == OwnerOf(s.inodes, Current(s))
  {
    DirStable(exclusive, s.inodes, t.inodes, p, Current(s));
  }

  /** A process that did not move is still justified. */
  lemma OtherProcessOk(exclusive: bool, s: State, t: State, p: nat, q: nat, c: Process)
    requires DirsOk(exclusive, s.inodes, s.dirs) && FilesFrom(s.inodes, t.inodes, p) && DirsFrom(s.dirs, t.dirs)
    requires q != p && ProcessOk(exclusive, s, q, c)
    requires exclusive && Critical(c) ==> t.lock == s.lock && t.dirs == s.dirs
    ensures t.dirs != [] && ProcessOk(exclusive, t, q, c)
  {
    OwnerStable(exclusive, s, t, p);
    DirStable(exclusive, s.inodes, t.inodes, p, Current(s));
    if c.Claimer? && c.pc.Done? && c.pc.error.None? {
      OwnersStable(exclusive, s, t, p, c.id);
    }
  }

  /** A step of process p that is justified for p and for the directory keeps the invariant. */
  lemma StepOfKeepsInv(exclusive: bool, s: State, t: State, p: nat)
    requires Inv(exclusive, s) && p < |s.processes| && |t.processes| == |s.processes|
    requires forall q :: 0 <= q < |s.processes| && q != p ==> t.processes[q] == s.processes[q]
    requires FilesFrom(s.inodes, t.inodes, p) && DirsFrom(s.dirs, t.dirs) && DirsOk(exclusive, t.inodes, t.dirs)
    requires ProcessOk(exclusive, t, p, t.processes[p])
    requires exclusive && !Critical(s.processes[p]) && s.lock.Some? ==> t.lock == s.lock && t.dirs == s.dirs
    ensures Inv(exclusive, t)
  {
    forall q | 0 <= q < |t.processes| ensures ProcessOk(exclusive, t, q, t.processes[q]) {
      if q != p {
        assert ProcessOk(exclusive, s, q, s.processes[q]) && ProcessOk(exclusive, s, p, s.processes[p]);
        OtherProcessOk(exclusive, s, t, p, q, s.processes[q]);
      }
    }
  }

  lemma SameDirs(exclusive: bool, s: State, t: State, p: nat)
    requires DirsOk(exclusive, s.inodes, s.dirs) && FilesFrom(s.inodes, t.inodes, p)
    requires t.dirs == s.dirs || t.dirs == [Current(s)]
    ensures DirsOk(exclusive, t.inodes, t.dirs) && DirsFrom(s.dirs, t.dirs)
  {
    forall k | 0 <= k < |s.dirs| ensures DirOk(exclusive, t.inodes, s.dirs[k]) {
      DirStable(exclusive, s.inodes, t.inodes, p, s.dirs[k]);
    }
  }

  lemma NewDir(exclusive: bool, s: State, d: Dir)
    requires DirsOk(exclusive, s.inodes, s.dirs) && DirOk(exclusive, s.inodes, d)
    requires Current(s).marker.Some? ==> d.marker == Current(s).marker
    ensures DirsOk(exclusive, s.inodes, s.dirs + [d]) && DirsFrom(s.dirs, s.dirs + [d])
  {
    assert (s.dirs + [d])[..|s.dirs|] == s.dirs;
  }

  // ---------------------------------------------------------------- claims

  lemma ClaimMoves(exclusive: bool, s: State, p: nat, ok: bool)
    requires Inv(exclusive, s) && p < |s.processes| && s.processes[p].Claimer?
    requires var pc := s.processes[p].pc;
      pc.Waiting? || pc.Prechecking? || pc.Reading? || pc.Done? || pc.SyncingFile? || (!ok && !pc.Removing?)
    ensures Inv(exclusive, ClaimStep(exclusive, s, p, ok))
  {
    var c := s.processes[p];
    var t := ClaimStep(exclusive, s, p, ok);
    assert ProcessOk(exclusive, s, p, c);
    assert DirOk(exclusive, s.inodes, Current(s));
    assert t.inodes == s.inodes;
    SameDirs(exclusive, s, t, p);
    StepOfKeepsInv(exclusive, s, t, p);
  }

  lemma ClaimWrites(exclusive: bool, s: State, p: nat)
    requires Inv(exclusive, s) && p < |s.processes| && s.processes[p].Claimer?
    requires var pc := s.processes[p].pc; pc.Creating? || pc.Writing? || pc.Syncing?
    ensures Inv(exclusive, ClaimStep(exclusive, s, p, true))
  {
    var c := s.processes[p];
    var t := ClaimStep(exclusive, s, p, true);
    assert ProcessOk(exclusive, s, p, c);
    assert FilesFrom(s.inodes, t.inodes, p);
    SameDirs(exclusive, s, t, p);
    DirStable(exclusive, s.inodes, t.inodes, p, Current(s));
    StepOfKeepsInv(exclusive, s, t, p);
  }

  lemma ClaimLinks(exclusive: bool, s: State, p: nat)
    requires Inv(exclusive, s) && p < |s.processes| && s.processes[p].Claimer? && s.processes[p].pc.Linking?
    ensures Inv(exclusive, ClaimStep(exclusive, s, p, true))
  {
    var c := s.processes[p];
    var t := ClaimStep(exclusive, s, p, true);
    assert ProcessOk(exclusive, s, p, c);
    if Current(s).marker.None? {
      assert DirOk(exclusive, s.inodes, Current(s));
      NewDir(exclusive, s, Current(s).(marker := Some(c.pc.temp)));
    } else {
      SameDirs(exclusive, s, t, p);
    }
    StepOfKeepsInv(exclusive, s, t, p);
  }

  lemma ClaimEnds(exclusive: bool, s: State, p: nat, ok: bool)
    requires Inv(exclusive, s) && p < |s.processes| && s.processes[p].Claimer?
    requires s.processes[p].pc.Removing? || (ok && s.processes[p].pc.SyncingDir?)
    ensures Inv(exclusive, ClaimStep(exclusive, s, p, ok))
  {
    var c := s.processes[p];
    var t := ClaimStep(exclusive, s, p, ok);
    assert ProcessOk(exclusive, s, p, c);
    assert DirOk(exclusive, s.inodes, Current(s));
    SameDirs(exclusive, s, t, p);
    StepOfKeepsInv(exclusive, s, t, p);
  }

  lemma ClaimStepKeepsInv(exclusive: bool, s: State, p: nat, ok: bool)
    requires Inv(exclusive, s) && p < |s.processes| && s.processes[p].Claimer?
    ensures Inv(exclusive, ClaimStep(exclusive, s, p, ok))
  {
    var pc := s.processes[p].pc;
    if pc.Removing? || (ok && pc.SyncingDir?) { ClaimEnds(exclusive, s, p, ok); }
    else if ok && pc.Linking? { ClaimLinks(exclusive, s, p); }
    else if ok && (pc.Creating? || pc.Writing? || pc.Syncing?) { ClaimWrites(exclusive, s, p); }
    else { ClaimMoves(exclusive, s, p, ok); }
  }

  // ---------------------------------------------------------------- provisioning

  lemma ProvisionStepKeepsInv(exclusive: bool, s: State, p: nat, ok: bool)
    requires Inv(exclusive, s) && p < |s.processes| && s.processes[p].Provisioner?
    ensures Inv(exclusive, ProvisionStep(exclusive, s, p, ok))
  {
    if ok && s.processes[p].work.Renaming? {
      ProvisionRenames(exclusive, s, p);
    } else {
      ProvisionMoves(exclusive, s, p, ok);
    }
  }

  lemma ProvisionRenames(exclusive: bool, s: State, p: nat)
    requires Inv(exclusive, s) && p < |s.processes| && s.processes[p].Provisioner? && s.processes[p].work.Renaming?
    ensures Inv(exclusive, ProvisionStep(exclusive, s, p, true))
  {
    var c := s.processes[p];
    assert ProcessOk(exclusive, s, p, c);
    assert DirOk(exclusive, s.inodes, Current(s));
    NewDir(exclusive, s, Current(s).(key := Some(c.work.temp)));
    StepOfKeepsInv(exclusive, s, ProvisionStep(exclusive, s, p, true), p);
  }

  lemma ProvisionMoves(exclusive: bool, s: State, p: nat, ok: bool)
    requires Inv(exclusive, s) && p < |s.processes| && s.processes[p].Provisioner?
    requires !(ok && s.processes[p].work.Renaming?)
    ensures Inv(exclusive, ProvisionStep(exclusive, s, p, ok))
  {
    var t := ProvisionStep(exclusive, s, p, ok);
    assert ProcessOk(exclusive, s, p, s.processes[p]);
    assert FilesFrom(s.inodes, t.inodes, p);
    SameDirs(exclusive, s, t, p);
    StepOfKeepsInv(exclusive, s, t, p);
  }

  // ---------------------------------------------------------------- arrivals, kills and crashes

  lemma ArriveKeepsInv(exclusive: bool, s: State, step: Step)
    requires Inv(exclusive, s) && (step.ArriveClaim? || step.ArriveProvision?)
    ensures Inv(exclusive, Exec(exclusive, s, step))
  {
    var t := Exec(exclusive, s, step);
    forall p | 0 <= p < |t.processes| ensures ProcessOk(exclusive, t, p, t.processes[p]) {
      if p < |s.processes| {
        assert ProcessOk(exclusive, s, p, s.processes[p]);
      }
    }
  }

  lemma KillKeepsInv(exclusive: bool, s: State, p: nat)
    requires Inv(exclusive, s) && p < |s.processes|
    ensures Inv(exclusive, End(s, p, Dead(s.processes[p])))
  {
    var t := End(s, p, Dead(s.processes[p]));
    assert ProcessOk(exclusive, s, p, s.processes[p]);
    SameDirs(exclusive, s, t, p);
    if !Critical(s.processes[p]) && s.lock == Some(p) {
      LockHolderCritical(exclusive, s, t, p);
    } else {
      StepOfKeepsInv(exclusive, s, t, p);
    }
  }

  /** A free lock harms nobody when its holder is past its critical part. */
  lemma LockHolderCritical(exclusive: bool, s: State, t: State, p: nat)
    requires Inv(exclusive, s) && p < |s.processes| && !Critical(s.processes[p]) && s.lock == Some(p)
    requires t == End(s, p, Dead(s.processes[p]))
    ensures Inv(exclusive, t)
  {
    forall q | 0 <= q < |t.processes| ensures ProcessOk(exclusive, t, q, t.processes[q]) {
      assert ProcessOk(exclusive, s, q, s.processes[q]);
    }
  }

  lemma CrashKeepsInv(exclusive: bool, s: State, back: nat, kept: set<nat>)
    requires Inv(exclusive, s) && back < |s.dirs|
    ensures Inv(exclusive, Crashed(s, back, kept))
  {
    var t := Crashed(s, back, kept);
    var d := s.dirs[back];
    assert DirOk(exclusive, s.inodes, d);
    assert RecordOf(t.inodes, d) == RecordOf(s.inodes, d) && KeyOf(t.inodes, d) == KeyOf(s.inodes, d);
    forall p | 0 <= p < |t.processes| ensures ProcessOk(exclusive, t, p, t.processes[p]) {
      assert ProcessOk(exclusive, s, p, s.processes[p]);
    }
  }

  lemma StepKeepsInv(exclusive: bool, s: State, step: Step)
    requires Inv(exclusive, s)
    ensures Inv(exclusive, Exec(exclusive, s, step))
  {
    match step
    case ArriveClaim(_, _) => ArriveKeepsInv(exclusive, s, step);
    case ArriveProvision(_, _) => ArriveKeepsInv(exclusive, s, step);
    case Go(p, ok) =>
      if p < |s.processes| {
        if s.processes[p].Claimer? { ClaimStepKeepsInv(exclusive, s, p, ok); }
        else { ProvisionStepKeepsInv(exclusive, s, p, ok); }
      }
    case Kill(p) => if p < |s.processes| { KillKeepsInv(exclusive, s, p); }
    case Crash(back, kept) => if back < |s.dirs| { CrashKeepsInv(exclusive, s, back, kept); }
  }

  lemma {:induction false} RunKeepsInv(exclusive: bool, key: Option<int>, steps: seq<Step>)
    ensures Inv(exclusive, Run(exclusive, key, steps))
  {
    if steps != [] {
      RunKeepsInv(exclusive, key, steps[..|steps| - 1]);
      StepKeepsInv(exclusive, Run(exclusive, key, steps[..|steps| - 1]), steps[|steps| - 1]);
    }
  }

  // ---------------------------------------------------------------- what every run guarantees

  /** The owner a reader would find now. */
  function OwnerNow(s: State): Option<string>
    requires s.dirs != []
  {
    OwnerOf(s.inodes, Current(s))
  }

  predicate Succeeded(c: Process) { c.Claimer? && c.pc.Done? && c.pc.error.None? }

  /**
    The marker is always absent or a complete record: in the current directory and in every state a
    crash could bring back, whoever holds the lock.
   */
  lemma MarkerIsComplete(exclusive: bool, key: Option<int>, steps: seq<Step>, k: nat)
    requires k < |Run(exclusive, key, steps).dirs| && Run(exclusive, key, steps).dirs[k].marker.Some?
    ensures var s := Run(exclusive, key, steps);
      var r := RecordOf(s.inodes, s.dirs[k]);
      && r.Some? && ClusterId.Valid(r.value.clusterId)
      && ReadMarker(s.inodes, s.dirs[k], r.value.publicKey) == Ok(r.value.clusterId)
  {
    var s := Run(exclusive, key, steps);
    RunKeepsInv(exclusive, key, steps);
    assert DirOk(exclusive, s.inodes, s.dirs[k]);
  }

  /** Once a claim succeeds, its owner is read now and after a crash to any state of the disk. */
  lemma SuccessIsDurable(exclusive: bool, key: Option<int>, steps: seq<Step>, p: nat)
    requires p < |Run(exclusive, key, steps).processes| && Succeeded(Run(exclusive, key, steps).processes[p])
    ensures var s := Run(exclusive, key, steps);
      && OwnerNow(s) == Some(s.processes[p].id)
      && forall back, kept :: 0 <= back < |s.dirs| ==> OwnerNow(Crashed(s, back, kept)) == Some(s.processes[p].id)
  {
    var s := Run(exclusive, key, steps);
    RunKeepsInv(exclusive, key, steps);
    assert ProcessOk(exclusive, s, p, s.processes[p]);
    assert OwnerOf(s.inodes, Current(s)) == Some(s.processes[p].id);
    forall back, kept: set<nat> | 0 <= back < |s.dirs|
      ensures OwnerNow(Crashed(s, back, kept)) == Some(s.processes[p].id)
    {
      assert DirOk(exclusive, s.inodes, s.dirs[back]);
      assert OwnerOf(s.inodes, s.dirs[back]) == Some(s.processes[p].id);
    }
  }

  /** An operation of one process leaves the others alone, and one that is done does nothing. */
  lemma ClaimStepIsLocal(exclusive: bool, s: State, q: nat, ok: bool)
    requires s.dirs != [] && q < |s.processes| && s.processes[q].Claimer?
    ensures var t := ClaimStep(exclusive, s, q, ok);
      && |t.processes| == |s.processes|
      && (forall p :: 0 <= p < |s.processes| && p != q ==> t.processes[p] == s.processes[p])
      && (s.processes[q].pc.Done? ==> t == s)
  {
  }

  lemma ProvisionStepIsLocal(exclusive: bool, s: State, q: nat, ok: bool)
    requires s.dirs != [] && q < |s.processes| && s.processes[q].Provisioner?
    ensures var t := ProvisionStep(exclusive, s, q, ok);
      && |t.processes| == |s.processes|
      && forall p :: 0 <= p < |s.processes| && p != q ==> t.processes[p] == s.processes[p]
  {
  }

  lemma SuccessKept(exclusive: bool, s: State, step: Step, p: nat)
    requires s.dirs != [] && p < |s.processes| && Succeeded(s.processes[p])
    ensures p < |Exec(exclusive, s, step).processes| && Exec(exclusive, s, step).processes[p] == s.processes[p]
  {
    if step.Go? && step.process < |s.processes| {
      if s.processes[step.process].Claimer? {
        ClaimStepIsLocal(exclusive, s, step.process, step.ok);
      } else {
        ProvisionStepIsLocal(exclusive, s, step.process, step.ok);
      }
    }
  }

  lemma RunSnoc(exclusive: bool, key: Option<int>, steps: seq<Step>, last: Step)
    ensures Run(exclusive, key, steps + [last]) == Exec(exclusive, Run(exclusive, key, steps), last)
  {
    assert (steps + [last])[..|steps|] == steps;
  }

  /** One step more, from a known state to a known state. */
  lemma Longer(exclusive: bool, key: Option<int>, steps: seq<Step>, last: Step, s: State, t: State)
    returns (longer: seq<Step>)
    requires Run(exclusive, key, steps) == s && s.dirs != [] && Exec(exclusive, s, last) == t
    ensures longer == steps + [last] && Run(exclusive, key, longer) == t
  {
    longer := steps + [last];
    RunSnoc(exclusive, key, steps, last);
  }

  lemma {:induction false} SuccessLasts(exclusive: bool, s: State, more: seq<Step>, p: nat)
    requires s.dirs != [] && p < |s.processes| && Succeeded(s.processes[p])
    ensures var t := Continue(exclusive, s, more); p < |t.processes| && t.processes[p] == s.processes[p]
  {
    if more != [] {
      SuccessLasts(exclusive, s, more[..|more| - 1], p);
      SuccessKept(exclusive, Continue(exclusive, s, more[..|more| - 1]), more[|more| - 1], p);
    }
  }

  /**
    After a claim succeeded, whatever happens next, crashes included, the marker is readable and names
    that owner; so two claims that both succeed are for the same cluster.
   */
  lemma OwnerForeverAfterSuccess(exclusive: bool, key: Option<int>, steps: seq<Step>, more: seq<Step>, p: nat)
    requires p < |Run(exclusive, key, steps).processes| && Succeeded(Run(exclusive, key, steps).processes[p])
    ensures OwnerNow(Run(exclusive, key, steps + more)) == Some(Run(exclusive, key, steps).processes[p].id)
  {
    RunContinues(exclusive, key, steps, more);
    SuccessLasts(exclusive, Run(exclusive, key, steps), more, p);
    SuccessIsDurable(exclusive, key, steps + more, p);
  }

  lemma OneOwner(exclusive: bool, key: Option<int>, steps: seq<Step>, p: nat, q: nat)
    requires var s := Run(exclusive, key, steps);
      && p < |s.processes| && q < |s.processes| && Succeeded(s.processes[p]) && Succeeded(s.processes[q])
    ensures var s := Run(exclusive, key, steps); s.processes[p].id == s.processes[q].id
  {
    SuccessIsDurable(exclusive, key, steps, p);
    SuccessIsDurable(exclusive, key, steps, q);
  }

  /** With the lock, an existing marker names the public key on disk, also in any state a crash restores. */
  lemma MarkerNamesKey(key: Option<int>, steps: seq<Step>, k: nat)
    requires k < |Run(true, key, steps).dirs| && Run(true, key, steps).dirs[k].marker.Some?
    ensures var s := Run(true, key, steps);
      && RecordOf(s.inodes, s.dirs[k]).Some?
      && KeyOf(s.inodes, s.dirs[k]) == Some(RecordOf(s.inodes, s.dirs[k]).value.publicKey)
  {
    var s := Run(true, key, steps);
    RunKeepsInv(true, key, steps);
    assert DirOk(true, s.inodes, s.dirs[k]);
  }

  // ---------------------------------------------------------------- when an owner can be lost

  /** Every directory state the disk could come back to has the marker. */
  predicate Durable(s: State) {
    forall k :: 0 <= k < |s.dirs| ==> s.dirs[k].marker.Some?
  }

  /** No step of a process, arrival or kill takes the owner away. */
  lemma OnlyCrashesLoseOwner(exclusive: bool, s: State, step: Step)
    requires Inv(exclusive, s) && OwnerNow(s).Some? && !step.Crash?
    ensures Exec(exclusive, s, step).dirs != [] && OwnerNow(Exec(exclusive, s, step)) == OwnerNow(s)
    ensures Durable(s) ==> Durable(Exec(exclusive, s, step))
  {
    if step.Go? && step.process < |s.processes| {
      if s.processes[step.process].Claimer? {
        ClaimFrame(exclusive, s, step.process, step.ok);
        OwnerSurvives(exclusive, s, ClaimStep(exclusive, s, step.process, step.ok), step.process);
      } else {
        ProvisionFrame(exclusive, s, step.process, step.ok);
        OwnerSurvives(exclusive, s, ProvisionStep(exclusive, s, step.process, step.ok), step.process);
      }
    }
  }

  /** What a claim step does to files and directories. */
  lemma ClaimFrame(exclusive: bool, s: State, p: nat, ok: bool)
    requires Inv(exclusive, s) && p < |s.processes| && s.processes[p].Claimer?
    ensures var t := ClaimStep(exclusive, s, p, ok); FilesFrom(s.inodes, t.inodes, p) && DirsFrom(s.dirs, t.dirs)
  {
    assert ProcessOk(exclusive, s, p, s.processes[p]);
    assert DirOk(exclusive, s.inodes, Current(s));
  }

  /** What a provisioning step does to files and directories. */
  lemma ProvisionFrame(exclusive: bool, s: State, p: nat, ok: bool)
    requires Inv(exclusive, s) && p < |s.processes| && s.processes[p].Provisioner?
    ensures var t := ProvisionStep(exclusive, s, p, ok); FilesFrom(s.inodes, t.inodes, p) && DirsFrom(s.dirs, t.dirs)
  {
    assert ProcessOk(exclusive, s, p, s.processes[p]);
  }

  lemma OwnerSurvives(exclusive: bool, s: State, t: State, p: nat)
    requires DirsOk(exclusive, s.inodes, s.dirs) && FilesFrom(s.inodes, t.inodes, p) && DirsFrom(s.dirs, t.dirs)
    requires OwnerNow(s).Some?
    ensures t.dirs != [] && OwnerNow(t) == OwnerNow(s) && (Durable(s) ==> Durable(t))
  {
    assert DirOk(exclusive, s.inodes, Current(s));
    OwnerStable(exclusive, s, t, p);
  }

  /** Exactly the crashes that go back behind the link of the marker lose the owner, and they leave none. */
  lemma CrashLosesOwnerIff(exclusive: bool, s: State, back: nat, kept: set<nat>)
    requires Inv(exclusive, s) && OwnerNow(s).Some? && back < |s.dirs|
    ensures OwnerNow(Crashed(s, back, kept)) != OwnerNow(s) <==> s.dirs[back].marker.None?
    ensures OwnerNow(Crashed(s, back, kept)) != OwnerNow(s) ==> OwnerNow(Crashed(s, back, kept)).None?
    ensures Durable(s) ==> Durable(Crashed(s, back, kept))
  {
    assert DirOk(exclusive, s.inodes, s.dirs[back]);
  }

  predicate HostCrashes(s: State, step: Step) { step.Crash? && step.back < |s.dirs| }

  /** Seen from outside, a marker is a create-only claim that only a crash before its sync can lose. */
  lemma MarkerMoves(exclusive: bool, s: State, step: Step)
    requires Inv(exclusive, s)
    ensures Exec(exclusive, s, step).dirs != []
    ensures var t := Exec(exclusive, s, step);
      ClaimMove(OwnerNow(s), Durable(s), OwnerNow(t), Durable(t), HostCrashes(s, step))
  {
    var t := Exec(exclusive, s, step);
    StepKeepsInv(exclusive, s, step);
    assert DirOk(exclusive, s.inodes, Current(s)) && DirOk(exclusive, t.inodes, Current(t));
    if HostCrashes(s, step) {
      assert t.dirs == [s.dirs[step.back]] && DirOk(exclusive, s.inodes, s.dirs[step.back]);
      if OwnerNow(s).Some? { CrashLosesOwnerIff(exclusive, s, step.back, step.kept); }
    } else if OwnerNow(s).Some? {
      if step.Crash? { assert t == s; } else { OnlyCrashesLoseOwner(exclusive, s, step); }
    }
    if Durable(t) { assert Current(t).marker.Some?; }
  }

  /** The state after more steps. */
  function Continue(exclusive: bool, s: State, more: seq<Step>): (t: State)
    requires s.dirs != []
    ensures t.dirs != []
  {
    if more == [] then s
    else
      var before := Continue(exclusive, s, more[..|more| - 1]);
      ExecKeepsDirs(exclusive, before, more[|more| - 1]);
      Exec(exclusive, before, more[|more| - 1])
  }

  lemma {:induction false} RunContinues(exclusive: bool, key: Option<int>, steps: seq<Step>, more: seq<Step>)
    ensures Run(exclusive, key, steps + more) == Continue(exclusive, Run(exclusive, key, steps), more)
    decreases |more|
  {
    if more == [] {
      assert steps + more == steps;
    } else {
      RunContinues(exclusive, key, steps, more[..|more| - 1]);
      assert (steps + more)[..|steps + more| - 1] == steps + more[..|more| - 1];
    }
  }

  lemma {:induction false} DurableLasts(exclusive: bool, s: State, more: seq<Step>)
    requires Inv(exclusive, s) && OwnerNow(s).Some? && Durable(s)
    ensures var t := Continue(exclusive, s, more);
      Inv(exclusive, t) && Durable(t) && OwnerNow(t) == OwnerNow(s)
  {
    if more != [] {
      DurableLasts(exclusive, s, more[..|more| - 1]);
      var t := DurableStep(exclusive, Continue(exclusive, s, more[..|more| - 1]), more[|more| - 1]);
    }
  }

  /** No step at all takes a durable owner away. */
  lemma DurableStep(exclusive: bool, s: State, step: Step) returns (t: State)
    requires Inv(exclusive, s) && OwnerNow(s).Some? && Durable(s)
    ensures t == Exec(exclusive, s, step) && t.dirs != [] && Inv(exclusive, t)
    ensures Durable(t) && OwnerNow(t) == OwnerNow(s)
  {
    t := Exec(exclusive, s, step);
    StepKeepsInv(exclusive, s, step);
    if HostCrashes(s, step) {
      CrashLosesOwnerIff(exclusive, s, step.back, step.kept);
    } else if !step.Crash? {
      OnlyCrashesLoseOwner(exclusive, s, step);
    }
  }

  /**
    The owner a reader finds is the owner for ever if and only if the directory has been synced since
    the marker was linked.
   */
  lemma OwnerForeverIffDurable(exclusive: bool, key: Option<int>, steps: seq<Step>)
    requires OwnerNow(Run(exclusive, key, steps)).Some?
    ensures (forall more :: OwnerNow(Run(exclusive, key, steps + more)) == OwnerNow(Run(exclusive, key, steps)))
            <==> Durable(Run(exclusive, key, steps))
  {
    var s := Run(exclusive, key, steps);
    if Durable(s) {
      forall more ensures OwnerNow(Run(exclusive, key, steps + more)) == OwnerNow(s) {
        RunContinues(exclusive, key, steps, more);
        RunKeepsInv(exclusive, key, steps);
        DurableLasts(exclusive, s, more);
      }
    } else {
      var back :| 0 <= back < |s.dirs| && s.dirs[back].marker.None?;
      var crash := Crash(back, {});
      RunKeepsInv(exclusive, key, steps);
      CrashLosesOwnerIff(exclusive, s, back, {});
      RunSnoc(exclusive, key, steps, crash);
      assert OwnerNow(Run(exclusive, key, steps + [crash])) != OwnerNow(s);
    }
  }

  /** An undisturbed claim, from its arrival to the link of its marker. */
  function ClaimToLink(id: string, k: int, p: nat): seq<Step> {
    [ArriveClaim(id, k), Go(p, true), Go(p, true), Go(p, true), Go(p, true), Go(p, true), Go(p, true), Go(p, true)]
  }

  /** No one is at work, no marker exists, and the key k is on disk. */
  predicate Quiet(s: State, k: int) {
    s.lock.None? && |s.dirs| == 1 && s.dirs[0].marker.None? && KeyOf(s.inodes, s.dirs[0]) == Some(k)
  }

  /** The claimer at process p is at pc and holds the lock; all else is as in s. */
  function Working(s: State, p: nat, id: string, k: int, pc: ClaimPc): State
    requires p < |s.processes|
  {
    SetProcess(s, p, Claimer(id, k, pc)).(lock := Some(p))
  }

  lemma OpensClaim(s: State, p: nat, id: string, k: int)
    requires Quiet(s, k) && p < |s.processes| && s.processes[p] == Claimer(id, k, Waiting)
    ensures Exec(true, s, Go(p, true)) == Working(s, p, id, k, Prechecking)
    ensures Exec(true, Working(s, p, id, k, Prechecking), Go(p, true)) == Working(s, p, id, k, Reading)
    ensures Exec(true, Working(s, p, id, k, Reading), Go(p, true)) == Working(s, p, id, k, Creating)
  {
  }

  lemma WritesTemp(s: State, p: nat, id: string, k: int, t: nat)
    requires p < |s.processes| && s.dirs != [] && t == |s.inodes|
    ensures Exec(true, Working(s, p, id, k, Creating), Go(p, true)) == Working(NewFile(s, p), p, id, k, Writing(t))
    ensures Exec(true, Working(NewFile(s, p), p, id, k, Writing(t)), Go(p, true))
      == Working(s.(inodes := s.inodes + [Inode(Marker(Record(id, k)), false, p)]), p, id, k, Syncing(t))
  {
  }

  lemma SyncsAndLinks(s: State, p: nat, id: string, k: int, t: nat)
    requires p < |s.processes| && s.dirs != [] && t == |s.inodes| && Current(s).marker.None?
    ensures var u := s.(inodes := s.inodes + [Inode(Marker(Record(id, k)), false, p)]);
      var v := s.(inodes := s.inodes + [Inode(Marker(Record(id, k)), true, p)]);
      && Exec(true, Working(u, p, id, k, Syncing(t)), Go(p, true)) == Working(v, p, id, k, Linking(t))
      && Exec(true, Working(v, p, id, k, Linking(t)), Go(p, true))
         == Working(UpdateDir(v, Current(s).(marker := Some(t))), p, id, k, Removing(t, true))
  {
  }

  /** The temporary marker with its content, synced or not. */
  function WithTemp(s: State, p: nat, id: string, k: int, synced: bool): State {
    s.(inodes := s.inodes + [Inode(Marker(Record(id, k)), synced, p)])
  }

  /** From the temporary file to the link. */
  lemma ReachesLink(key: Option<int>, steps: seq<Step>, s: State, p: nat, id: string, k: int)
    requires p < |s.processes| && s.dirs != [] && Current(s).marker.None?
    requires Run(true, key, steps) == Working(s, p, id, k, Creating)
    ensures var go := Go(p, true);
      var t := |s.inodes|;
      Run(true, key, steps + [go, go, go] + [go])
        == Working(UpdateDir(WithTemp(s, p, id, k, true), Current(s).(marker := Some(t))), p, id, k, Removing(t, true))
  {
    var t, go := |s.inodes|, Go(p, true);
    WritesTemp(s, p, id, k, t);
    SyncsAndLinks(s, p, id, k, t);
    RunThree(key, steps, go, Working(s, p, id, k, Creating), Working(NewFile(s, p), p, id, k, Writing(t)),
      Working(WithTemp(s, p, id, k, false), p, id, k, Syncing(t)),
      Working(WithTemp(s, p, id, k, true), p, id, k, Linking(t)));
    RunSnoc(true, key, steps + [go, go, go], go);
  }

  lemma ClaimReachesLink(key: Option<int>, steps: seq<Step>, id: string, k: int)
    requires Quiet(Run(true, key, steps), k) && ClusterId.Valid(id)
    ensures var s := Run(true, key, steps);
      var p := |s.processes|;
      var s1 := s.(processes := s.processes + [Claimer(id, k, Waiting)]);
      Run(true, key, steps + ClaimToLink(id, k, p))
        == Working(UpdateDir(WithTemp(s1, p, id, k, true), s.dirs[0].(marker := Some(|s.inodes|))),
                   p, id, k, Removing(|s.inodes|, true))
  {
    var s := Run(true, key, steps);
    var p := |s.processes|;
    var s1 := s.(processes := s.processes + [Claimer(id, k, Waiting)]);
    ReachesCreating(key, steps, s, s1, p, id, k);
    var go := Go(p, true);
    var r4 := steps + [ArriveClaim(id, k), go, go, go];
    ReachesLink(key, r4, s1, p, id, k);
    assert steps + ClaimToLink(id, k, p) == r4 + [go, go, go] + [go];
  }

  lemma ReachesCreating(key: Option<int>, steps: seq<Step>, s: State, s1: State, p: nat, id: string, k: int)
    requires s == Run(true, key, steps) && Quiet(s, k) && ClusterId.Valid(id) && p == |s.processes|
    requires s1 == s.(processes := s.processes + [Claimer(id, k, Waiting)])
    ensures var go := Go(p, true);
      Run(true, key, steps + [ArriveClaim(id, k), go, go, go]) == Working(s1, p, id, k, Creating)
  {
    var go := Go(p, true);
    var r1 := steps + [ArriveClaim(id, k)];
    RunSnoc(true, key, steps, ArriveClaim(id, k));
    OpensClaim(s1, p, id, k);
    RunThree(key, r1, go, s1, Working(s1, p, id, k, Prechecking), Working(s1, p, id, k, Reading),
      Working(s1, p, id, k, Creating));
    assert steps + [ArriveClaim(id, k), go, go, go] == r1 + [go, go, go];
  }

  lemma RunThree(key: Option<int>, steps: seq<Step>, go: Step, a: State, b: State, c: State, d: State)
    requires Run(true, key, steps) == a && a.dirs != [] && b.dirs != [] && c.dirs != []
    requires Exec(true, a, go) == b && Exec(true, b, go) == c && Exec(true, c, go) == d
    ensures Run(true, key, steps + [go, go, go]) == d
  {
    var one := Longer(true, key, steps, go, a, b);
    var two := Longer(true, key, one, go, b, c);
    var three := Longer(true, key, two, go, c, d);
    assert steps + [go, go, go] == three;
  }

  /** The linked claim names its owner, and a crash to the state before the link is quiet again. */
  lemma LinkedThenLost(key: Option<int>, steps: seq<Step>, id: string, k: int)
    requires Quiet(Run(true, key, steps), k) && ClusterId.Valid(id)
    ensures var t := Run(true, key, steps + ClaimToLink(id, k, |Run(true, key, steps).processes|));
      OwnerNow(t) == Some(id) && t.dirs != [] && Quiet(Crashed(t, 0, {}), k)
  {
    var s := Run(true, key, steps);
    RunKeepsInv(true, key, steps);
    assert DirOk(true, s.inodes, s.dirs[0]);
    ClaimReachesLink(key, steps, id, k);
    var t := Run(true, key, steps + ClaimToLink(id, k, |s.processes|));
    assert t.dirs == [s.dirs[0], s.dirs[0].(marker := Some(|s.inodes|))];
    var c := Crashed(t, 0, {});
    assert c.inodes[s.dirs[0].key.value].content == s.inodes[s.dirs[0].key.value].content;
  }

  /**
    A reader can find one owner and, after a crash before the directory sync, another: the marker
    linked by the first claim is gone and a second claim links its own.
   */
  lemma OwnerCanChange(a: string, b: string, k: int) returns (before: seq<Step>, after: seq<Step>)
    requires ClusterId.Valid(a) && ClusterId.Valid(b) && a != b
    ensures OwnerNow(Run(true, Some(k), before)) == Some(a)
    ensures OwnerNow(Run(true, Some(k), before + after)) == Some(b)
  {
    assert Run(true, Some(k), []) == Init(Some(k));
    var first := ClaimToLink(a, k, 0);
    LinkedThenLost(Some(k), [], a, k);
    assert [] + first == first;
    before := first;
    var s := Run(true, Some(k), before);
    var crash := Crash(0, {});
    RunSnoc(true, Some(k), before, crash);
    var crashed := Run(true, Some(k), before + [crash]);
    assert crashed == Crashed(s, 0, {});
    LinkedThenLost(Some(k), before + [crash], b, k);
    var second := ClaimToLink(b, k, |crashed.processes|);
    after := [crash] + second;
    assert before + after == before + [crash] + second;
  }
}
