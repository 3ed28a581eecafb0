/**
  Cluster claims kept as a marker file, and the provisioning that shares its lock.

  Memory and disk differ until a sync: file content that was never synced may be
  torn by a crash, and a crash rolls the directory back to any of its states since
  the last directory sync (directory updates reach the disk in the order they were
  made).  Each operation of a claim or of a provisioning is one step; any of them
  may fail, the process may be killed between any two, and the host may crash.
 */
module FileBinding {
  import opened Wrappers
  import opened Binding
  import ClusterId

  /** The marker: version 1, the owner, and the public key it was made for. */
  datatype Record = Record(clusterId: string, publicKey: int)

  datatype Content = Torn | Marker(record: Record) | KeyFile(publicKey: int)

  /** A file: what it holds, whether that is on disk, and which process writes it. */
  datatype Inode = Inode(content: Content, synced: bool, writer: nat)

  /** The two directory entries that matter. */
  datatype Dir = Dir(marker: Option<nat>, key: Option<nat>)

  datatype ClaimPc =
    | Waiting
    | Prechecking
    | Reading
    | Creating
    | Writing(temp: nat)
    | Syncing(temp: nat)
    | Linking(temp: nat)
    | Removing(temp: nat, published: bool)
    | SyncingFile(owner: string, clean: bool)
    | SyncingDir(owner: string, clean: bool)
    | Done(error: Option<BindingError>)

  datatype ProvisionPc =
    | Queued
    | Inspecting
    | Opening
    | Generating
    | Flushing(temp: nat)
    | Renaming(temp: nat)
    | SyncingKeyDir
    | Finished(ok: bool)

  datatype Process =
    | Claimer(id: string, publicKey: int, pc: ClaimPc)
    | Provisioner(newKey: int, overwrite: bool, work: ProvisionPc)

  /** dirs lists the directory states since the last sync: the first is on disk, the last is current. */
  datatype State = State(inodes: seq<Inode>, dirs: seq<Dir>, lock: Option<nat>, processes: seq<Process>)

  datatype Step =
    | ArriveClaim(id: string, publicKey: int)
    | ArriveProvision(newKey: int, overwrite: bool)
    | Go(process: nat, ok: bool)
    | Kill(process: nat)
    | Crash(back: nat, kept: set<nat>)

  /** A key may already be on disk. */
  function Init(key: Option<int>): State {
    match key
    case None => State([], [Dir(None, None)], None, [])
    case Some(k) => State([Inode(KeyFile(k), true, 0)], [Dir(None, Some(0))], None, [])
  }

  function Current(s: State): Dir
    requires s.dirs != []
  {
    s.dirs[|s.dirs| - 1]
  }

  function RecordOf(inodes: seq<Inode>, d: Dir): Option<Record> {
    if d.marker.Some? && d.marker.value < |inodes| && inodes[d.marker.value].content.Marker?
    then Some(inodes[d.marker.value].content.record) else None
  }

  function KeyOf(inodes: seq<Inode>, d: Dir): Option<int> {
    if d.key.Some? && d.key.value < |inodes| && inodes[d.key.value].content.KeyFile?
    then Some(inodes[d.key.value].content.publicKey) else None
  }

  /** What reading the marker with a given key reports. */
  function ReadMarker(inodes: seq<Inode>, d: Dir, publicKey: int): Result<string, BindingError> {
    if d.marker.None? then Err(Unclaimed)
    else match RecordOf(inodes, d)
         case None => Err(Corrupt)
         case Some(r) =>
           if !ClusterId.Valid(r.clusterId) || r.publicKey != publicKey then Err(Corrupt) else Ok(r.clusterId)
  }

  // ---------------------------------------------------------------- steps

  function SetProcess(s: State, p: nat, proc: Process): State
    requires p < |s.processes|
  {
    s.(processes := s.processes[p := proc])
  }

  /** Ends a process and frees the lock if it held it. */
  function End(s: State, p: nat, proc: Process): State
    requires p < |s.processes|
  {
    SetProcess(s, p, proc).(lock := if s.lock == Some(p) then None else s.lock)
  }

  function NewFile(s: State, p: nat): State {
    s.(inodes := s.inodes + [Inode(Torn, false, p)])
  }

  function WriteFile(s: State, t: nat, c: Content): State
    requires t < |s.inodes|
  {
    s.(inodes := s.inodes[t := s.inodes[t].(content := c)])
  }

  function SyncFile(s: State, t: nat): State
    requires t < |s.inodes|
  {
    s.(inodes := s.inodes[t := s.inodes[t].(synced := true)])
  }

  function UpdateDir(s: State, d: Dir): State { s.(dirs := s.dirs + [d]) }

  function SyncDirectory(s: State): State
    requires s.dirs != []
  {
    s.(dirs := [Current(s)])
  }

  function FinishClaim(s: State, p: nat, c: Process, error: Option<BindingError>): State
    requires p < |s.processes| && c.Claimer?
  {
    End(s, p, c.(pc := Done(error)))
  }

  /** One operation of a claim.  With an exclusive lock, Waiting waits for it. */
  function ClaimStep(exclusive: bool, s: State, p: nat, ok: bool): State
    requires p < |s.processes| && s.processes[p].Claimer? && s.dirs != []
  {
    var c := s.processes[p];
    if c.pc.Done? then s
    else if c.pc.Waiting? then
      if exclusive && s.lock.Some? then s
      else if !ok then FinishClaim(s, p, c, Some(OperationFailed))
      else SetProcess(s, p, c.(pc := Prechecking)).(lock := Some(p))
    else if !ok && !c.pc.Removing? then
      // A failed write leaves the temporary file torn; a failed sync leaves it unsynced.
      FinishClaim(s, p, c, Some(OperationFailed))
    else match c.pc
      case Prechecking =>
        if KeyOf(s.inodes, Current(s)) == Some(c.publicKey) then SetProcess(s, p, c.(pc := Reading))
        else FinishClaim(s, p, c, Some(Corrupt))
      case Reading =>
        (match ReadMarker(s.inodes, Current(s), c.publicKey)
         case Ok(owner) => SetProcess(s, p, c.(pc := SyncingFile(owner, true)))
         case Err(e) => if e == Unclaimed then SetProcess(s, p, c.(pc := Creating)) else FinishClaim(s, p, c, Some(e)))
      case Creating =>
        SetProcess(NewFile(s, p), p, c.(pc := Writing(|s.inodes|)))
      case Writing(t) =>
        if t >= |s.inodes| then s
        else SetProcess(WriteFile(s, t, Marker(Record(c.id, c.publicKey))), p, c.(pc := Syncing(t)))
      case Syncing(t) =>
        if t >= |s.inodes| then s else SetProcess(SyncFile(s, t), p, c.(pc := Linking(t)))
      case Linking(t) =>
        if Current(s).marker.None?
        then SetProcess(UpdateDir(s, Current(s).(marker := Some(t))), p, c.(pc := Removing(t, true)))
        else SetProcess(s, p, c.(pc := Removing(t, false)))
      case Removing(t, published) =>
        if published then SetProcess(s, p, c.(pc := SyncingDir(c.id, ok)))
        else (match ReadMarker(s.inodes, Current(s), c.publicKey)
              case Err(e) => FinishClaim(s, p, c, Some(e))
              case Ok(owner) => SetProcess(s, p, c.(pc := SyncingFile(owner, ok))))
      case SyncingFile(owner, clean) =>
        var m := Current(s).marker;
        SetProcess(if m.Some? && m.value < |s.inodes| then SyncFile(s, m.value) else s, p,
                   c.(pc := SyncingDir(owner, clean)))
      case SyncingDir(owner, clean) =>
        FinishClaim(SyncDirectory(s), p, c,
          if !clean then Some(OperationFailed) else RequireClaimOwner(c.id, owner))
      case _ => s
  }

  function FinishProvision(s: State, p: nat, c: Process, ok: bool): State
    requires p < |s.processes| && c.Provisioner?
  {
    End(s, p, c.(work := Finished(ok)))
  }

  /** One operation of a provisioning. */
  function ProvisionStep(exclusive: bool, s: State, p: nat, ok: bool): State
    requires p < |s.processes| && s.processes[p].Provisioner? && s.dirs != []
  {
    var c := s.processes[p];
    if c.work.Finished? then s
    else if c.work.Queued? then
      if exclusive && s.lock.Some? then s
      else if !ok then FinishProvision(s, p, c, false)
      else SetProcess(s, p, c.(work := Inspecting)).(lock := Some(p))
    else if !ok then FinishProvision(s, p, c, false)
    else match c.work
      case Inspecting =>
        if Current(s).marker.Some? then FinishProvision(s, p, c, false) else SetProcess(s, p, c.(work := Opening))
      case Opening =>
        if Current(s).key.Some? && !c.overwrite then FinishProvision(s, p, c, false)
        else SetProcess(s, p, c.(work := Generating))
      case Generating =>
        SetProcess(s.(inodes := s.inodes + [Inode(KeyFile(c.newKey), false, p)]), p, c.(work := Flushing(|s.inodes|)))
      case Flushing(t) =>
        if t >= |s.inodes| then s else SetProcess(SyncFile(s, t), p, c.(work := Renaming(t)))
      case Renaming(t) =>
        SetProcess(UpdateDir(s, Current(s).(key := Some(t))), p, c.(work := SyncingKeyDir))
      case SyncingKeyDir => FinishProvision(SyncDirectory(s), p, c, true)
      case _ => s
  }

  function Dead(proc: Process): Process {
    match proc
    case Claimer(_, _, pc) => if pc.Done? then proc else proc.(pc := Done(Some(OperationFailed)))
    case Provisioner(_, _, work) => if work.Finished? then proc else proc.(work := Finished(false))
  }

  /** What a crash leaves of a file. */
  function Survives(f: Inode, kept: bool): Inode {
    if f.synced || kept then f.(synced := true) else f.(content := Torn, synced := true)
  }

  function Crashed(s: State, back: nat, kept: set<nat>): State
    requires back < |s.dirs|
  {
    State(
      seq(|s.inodes|, i requires 0 <= i < |s.inodes| => Survives(s.inodes[i], i in kept)),
      [s.dirs[back]], None,
      seq(|s.processes|, i requires 0 <= i < |s.processes| => Dead(s.processes[i])))
  }

  function Exec(exclusive: bool, s: State, step: Step): State
    requires s.dirs != []
  {
    match step
    case ArriveClaim(id, k) =>
      s.(processes := s.processes + [Claimer(id, k, if ClusterId.Valid(id) then Waiting else Done(Some(InvalidId)))])
    case ArriveProvision(k, overwrite) => s.(processes := s.processes + [Provisioner(k, overwrite, Queued)])
    case Go(p, ok) =>
      if p >= |s.processes| then s
      else if s.processes[p].Claimer? then ClaimStep(exclusive, s, p, ok) else ProvisionStep(exclusive, s, p, ok)
    case Kill(p) => if p < |s.processes| then End(s, p, Dead(s.processes[p])) else s
    case Crash(back, kept) => if back < |s.dirs| then Crashed(s, back, kept) else s
  }

  lemma ExecKeepsDirs(exclusive: bool, s: State, step: Step)
    requires s.dirs != []
    ensures Exec(exclusive, s, step).dirs != []
  {
  }

  function Run(exclusive: bool, key: Option<int>, steps: seq<Step>): (s: State)
    ensures s.dirs != []
  {
    if steps == [] then Init(key)
    else
      var before := Run(exclusive, key, steps[..|steps| - 1]);
      ExecKeepsDirs(exclusive, before, steps[|steps| - 1]);
      Exec(exclusive, before, steps[|steps| - 1])
  }

  /** The owner a directory state names. */
  function OwnerOf(inodes: seq<Inode>, d: Dir): Option<string> {
    match RecordOf(inodes, d)
    case None => None
    case Some(r) => Some(r.clusterId)
  }
}
