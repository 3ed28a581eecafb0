/**
  The process-wide pool of loaded PKCS#11 modules.  Backends that name the same file
  share one loaded module; it is finalised and unloaded when the last of them is done.
 */
module Pkcs11Modules {
  import opened Wrappers

  type FileId = int

  /** What inspecting a path finds: the file there, nothing, or an error. */
  datatype Stat = Found(file: FileId) | Missing | StatFailed

  datatype PoolError = ResolveFailed | InspectFailed | LoadFailed | InitializeFailed

  /** How initialising a freshly loaded module ends. */
  datatype InitOutcome = Initialized | AlreadyInitialized | InitFailed

  /** A loaded module with its users. */
  class Entry {
    const path: string
    const file: FileId
    const owned: bool           // initialised by this process
    var refs: nat
    ghost var users: set<nat>   // who acquired it and has not released it yet
    ghost var finalized: bool
    ghost var destroyed: bool

    constructor (path: string, file: FileId, owned: bool)
      ensures this.path == path && this.file == file && this.owned == owned
      ensures refs == 0 && users == {} && !finalized && !destroyed
    {
      this.path := path;
      this.file := file;
      this.owned := owned;
      refs := 0;
      users := {};
      finalized := false;
      destroyed := false;
    }
  }

  class Pool {
    var entries: map<string, Entry>
    var files: map<string, FileId>
    ghost var loaded: set<Entry>       // every module ever loaded

    /**
      A module is in the pool exactly while it has users, and it is destroyed exactly when it has
      left; it was finalised if and only if this process had initialised it.  Known files are told
      apart, so no file has two live modules.
     */
    ghost predicate Valid()
      reads this, loaded
    {
      Live() && Ended() && Told()
    }

    ghost predicate Live()
      reads this, loaded
    {
      && (forall p :: p in entries ==> entries[p] in loaded && entries[p].path == p)
      && (forall e :: e in loaded ==> (e.destroyed <==> !(e.path in entries && entries[e.path] == e)))
    }

    ghost predicate Ended()
      reads this, loaded
    {
      forall e :: e in loaded ==>
        && e.refs == |e.users|
        && (e.destroyed <==> e.users == {})
        && (e.finalized <==> e.destroyed && e.owned)
    }

    ghost predicate Told()
      reads this, loaded
    {
      && (forall p :: p in entries ==> p in files && files[p] == entries[p].file)
      && (forall p, q :: p in files && q in files && files[p] == files[q] ==> p == q)
    }

    constructor ()
      ensures Valid() && entries == map[] && loaded == {}
    {
      entries := map[];
      files := map[];
      loaded := {};
    }

    /** No file ever has two live modules. */
    lemma OneModulePerFile(x: Entry, y: Entry)
      requires Valid() && x in loaded && y in loaded && !x.destroyed && !y.destroyed && x.file == y.file
      ensures x == y
    {
      assert files[x.path] == files[y.path];
    }

    /**
      The path under which the file is known, forgetting unloaded paths that no longer name it.  An
      inspection error of such a path is reported.
     */
    method KnownPath(path: string, file: FileId, statOf: string -> Stat) returns (r: Result<string, PoolError>)
      requires Valid()
      modifies this`files
      ensures Valid()
      ensures forall p :: p in files ==> p in old(files) && files[p] == old(files)[p]
      ensures r.Ok? ==> forall p :: p in files && files[p] == file ==> p == r.value
      ensures r.Ok? ==> r.value == path || (r.value in files && files[r.value] == file)
      ensures r.Ok? && r.value in entries ==> r.value == path || entries[r.value].file == file
      ensures r.Err? ==> r.error == InspectFailed
      ensures r.Err? ==> exists p :: p in files && files[p] == file && p !in entries && statOf(p).StatFailed?
    {
      var todo := files.Keys;
      while todo != {}
        invariant Valid() && todo <= files.Keys
        invariant forall p :: p in files ==> p in old(files) && files[p] == old(files)[p]
        invariant forall p :: p in files && p !in todo ==> files[p] != file
        decreases |todo|
      {
        var known :| known in todo;
        if files[known] == file {
          if known !in entries {
            var now := statOf(known);
            if now.Missing? || (now.Found? && now.file != files[known]) {
              files := files - {known};
              todo := todo - {known};
              continue;
            }
            if now.StatFailed? {
              return Err(InspectFailed);
            }
          }
          return Ok(known);
        }
        todo := todo - {known};
      }
      return Ok(path);
    }

    /** Loads and initialises the module of a file that has none. */
    method Load(path: string, file: FileId, loads: bool, outcome: InitOutcome, ghost user: nat)
      returns (r: Result<Entry, PoolError>)
      requires Valid() && path !in entries
      requires forall p :: p in files && files[p] == file ==> p == path
      modifies this`entries, this`files, this`loaded
      ensures r.Err? ==> Valid() && entries == old(entries) && loaded == old(loaded)
      ensures r == Err(LoadFailed) <==> !loads
      ensures r == Err(InitializeFailed) <==> loads && outcome.InitFailed?
      ensures r.Err? <==> !loads || outcome.InitFailed?
      ensures r.Ok? ==>
        && fresh(r.value) && r.value.path == path && r.value.file == file && r.value.users == {user}
        && r.value.owned == outcome.Initialized?
        && entries == old(entries)[path := r.value] && loaded == old(loaded) + {r.value} && Valid()
    {
      if !loads {
        return Err(LoadFailed);
      }
      if outcome.InitFailed? {
        return Err(InitializeFailed);
      }
      var entry := new Entry(path, file, outcome.Initialized?);
      entry.refs := 1;
      entry.users := {user};
      loaded := loaded + {entry};
      entries := entries[path := entry];
      files := files[path := file];
      return Ok(entry);
    }

    /** One more user of a live module. */
    method Share(entry: Entry, ghost user: nat)
      requires Valid() && entry in loaded && !entry.destroyed && user !in entry.users
      modifies entry`refs, entry`users
      ensures Valid() && entry.users == old(entry.users) + {user}
    {
      entry.refs := entry.refs + 1;
      entry.users := entry.users + {user};
    }

    /**
      One more user of the module at a path: the live module of that file if there is one, else a new
      one.  Whoever gets it holds one reference until Release.
     */
    method Acquire(path: string, stat: Stat, statOf: string -> Stat, loads: bool, outcome: InitOutcome, ghost user: nat)
      returns (r: Result<Entry, PoolError>)
      requires Valid() && forall e :: e in loaded ==> user !in e.users
      modifies this`entries, this`files, this`loaded, loaded`refs, loaded`users
      ensures Valid() && old(loaded) <= loaded
      ensures r.Err? ==> loaded == old(loaded) && forall e :: e in loaded ==> e.users == old(e.users)
      ensures r == Err(ResolveFailed) <==> !stat.Found?
      ensures r == Err(InspectFailed) ==> exists p :: p in files && files[p] == stat.file && statOf(p).StatFailed?
      ensures r.Err? ==> r.error == ResolveFailed || r.error == InspectFailed || !loads || outcome.InitFailed?
      ensures r.Ok? ==> r.value in loaded && !r.value.destroyed && loaded == old(loaded) + {r.value}
      ensures fresh(loaded - old(loaded))
      ensures r.Ok? ==> r.value.users == (if r.value in old(loaded) then old(r.value.users) else {}) + {user}
      ensures r.Ok? ==> forall e :: e in old(loaded) && e != r.value ==> e.users == old(e.users)
      ensures r.Ok? ==> stat.Found? && (r.value.path == path || r.value.file == stat.file)
      ensures r.Ok? ==> forall e :: e in old(loaded) && !old(e.destroyed) && e.file == stat.file ==> r.value == e
      ensures r.Ok? && r.value !in old(loaded) ==>
        stat.Found? && r.value.file == stat.file && forall e :: e in old(loaded) && e.file == stat.file ==> e.destroyed
    {
      if !stat.Found? {
        return Err(ResolveFailed);
      }
      var known := KnownPath(path, stat.file, statOf);
      if known.Err? {
        return Err(known.error);
      }
      var p := known.value;
      if p in entries {
        Share(entries[p], user);
        return Ok(entries[p]);
      }
      NoLiveModule(stat.file, p);
      r := Load(p, stat.file, loads, outcome, user);
    }

    /** A file whose only known path is unloaded has no live module. */
    lemma NoLiveModule(file: FileId, p: string)
      requires Valid() && p !in entries
      requires forall q :: q in files && files[q] == file ==> q == p
      ensures forall e :: e in loaded && e.file == file ==> e.destroyed
    {
    }

    /** One user less: the last one finalises what this process initialised and unloads the module. */
    method Release(entry: Entry, ghost user: nat)
      requires Valid() && entry in loaded && user in entry.users
      modifies this`entries, entry
      ensures Valid() && loaded == old(loaded) && files == old(files)
      ensures entry.users == old(entry.users) - {user}
      ensures entry.destroyed <==> old(entry.users) == {user}
      ensures entry.finalized <==> old(entry.users) == {user} && entry.owned
    {
      entry.refs := entry.refs - 1;
      entry.users := entry.users - {user};
      if entry.refs != 0 {
        return;
      }
      assert old(entry.users) == entry.users + {user};
      if entry.owned {
        entry.finalized := true;
      }
      entry.destroyed := true;
      entries := entries - {entry.path};
    }
  }
}
