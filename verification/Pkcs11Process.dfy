/**
  A process with any number of PKCS#11 backends.  Each backend that is not closed is
  one user of the loaded module it was made with, and all logins share one PIN latch.
 */
module Pkcs11Process {
  import opened Wrappers
  import opened Pkcs11
  import opened Pkcs11Modules

  /** What the environment answers while a backend is made. */
  datatype Making = Making(
    cfg: Config, path: string, stat: Stat, statOf: string -> Stat, loads: bool, outcome: InitOutcome,
    configOk: bool, pathOk: bool, pinText: Option<string>)

  /** A call that makes a backend, or a call on one; the PIN file is read anew each time. */
  datatype ProcessCall = MakeBackend(making: Making) | OnBackend(index: nat, call: Call, pinText: Option<string>)

  datatype MakeError = BadConfig | NoModule(poolError: PoolError) | NoBackend(backendError: BackendError)

  class Process {
    const native: Module
    const pool: Pool
    const verify: (Bytes, Bytes, Bytes) -> bool
    var backends: seq<Backend>      // every backend ever made, those that failed included
    var entries: seq<Entry>         // the module each of them was made with
    ghost var holding: set<nat>     // which of them still hold their module

    /** The backend holds this module. */
    ghost predicate Holds(i: nat, e: Entry)
      reads this`entries, this`holding
    {
      i in holding && i < |entries| && entries[i] == e
    }

    ghost predicate PoolOk()
      reads this`entries, this`holding, pool, pool.loaded
    {
      && pool.Valid()
      && (forall i :: 0 <= i < |entries| ==> entries[i] in pool.loaded)
      && (forall i :: i in holding ==> i < |entries|)
      && (forall e, i :: e in pool.loaded ==> (i in e.users <==> Holds(i, e)))
    }

    ghost predicate BackendsOk()
      reads this`backends, backends, native.latch
    {
      && native.latch.Valid()
      && (forall i :: 0 <= i < |backends| ==> backends[i].module_ == native && backends[i].Valid())
      && (forall i, j :: 0 <= i < j < |backends| ==> backends[i] != backends[j])
    }

    /** A backend holds its module exactly until it is closed. */
    ghost predicate HoldingOk()
      reads this, backends
    {
      |entries| == |backends| && forall i :: 0 <= i < |backends| ==> (i in holding <==> !backends[i].closed)
    }

    ghost predicate Valid()
      reads this, backends, native.latch, pool, pool.loaded
    {
      BackendsOk() && PoolOk() && HoldingOk()
    }

    constructor (verify: (Bytes, Bytes, Bytes) -> bool)
      ensures Valid() && backends == [] && pool.loaded == {}
      ensures fresh(native.latch) && fresh(pool)
    {
      var latch := new PinLatch();
      native := new Module(latch);
      pool := new Pool();
      this.verify := verify;
      backends := [];
      entries := [];
      holding := {};
    }

    /**
      Sessions and modules together: a module is destroyed exactly when the last backend made with it is
      closed, and finalised exactly if, besides, this process had initialised it.
     */
    lemma ModuleLifetime(e: Entry)
      requires Valid() && e in pool.loaded
      ensures e.destroyed <==> forall i :: 0 <= i < |backends| && entries[i] == e ==> backends[i].closed
      ensures e.finalized <==> e.destroyed && e.owned
    {
      if e.destroyed {
        forall i | 0 <= i < |backends| && entries[i] == e ensures backends[i].closed {
          assert i !in e.users;
        }
      } else {
        var i :| i in e.users;
        assert Holds(i, e);
      }
    }

    // -------------------------------------------------------------- modules

    method AcquireModule(m: Making) returns (r: Result<Entry, PoolError>)
      requires Valid()
      modifies this`entries, this`holding, pool, pool.loaded
      ensures BackendsOk() && PoolOk() && if r.Ok? then OneToMake() else Valid()
      ensures old(pool.loaded) <= pool.loaded && fresh(pool.loaded - old(pool.loaded))
      ensures r.Ok? ==> entries[|backends|] in old(pool.loaded) || fresh(entries[|backends|])
    {
      r := AcquireInPool(m);
    }

    method AcquireInPool(m: Making) returns (r: Result<Entry, PoolError>)
      requires PoolOk()
      modifies this`entries, this`holding, pool, pool.loaded
      ensures PoolOk() && old(pool.loaded) <= pool.loaded && fresh(pool.loaded - old(pool.loaded))
      ensures r.Err? ==> entries == old(entries) && holding == old(holding)
      ensures r.Ok? ==> entries == old(entries) + [r.value] && holding == old(holding) + {|old(entries)|}
    {
      ghost var user := |entries|;
      assert forall e :: e in pool.loaded ==> !Holds(user, e);
      r := pool.Acquire(m.path, m.stat, m.statOf, m.loads, m.outcome, user);
      if r.Ok? {
        AddHolder(r.value);
      }
    }

    /** A module has been acquired for the next backend, which is still to be made. */
    ghost predicate OneToMake()
      reads this, backends
    {
      && |entries| == |backends| + 1 && |backends| in holding
      && forall i :: 0 <= i < |backends| ==> (i in holding <==> !backends[i].closed)
    }

    method AddHolder(e: Entry)
      requires pool.Valid() && e in pool.loaded
      requires forall i :: 0 <= i < |entries| ==> entries[i] in pool.loaded
      requires forall i :: i in holding ==> i < |entries|
      requires forall x, i :: x in pool.loaded ==> (i in x.users <==> Holds(i, x) || (x == e && i == |entries|))
      modifies this`entries, this`holding
      ensures PoolOk() && entries == old(entries) + [e] && holding == old(holding) + {|old(entries)|}
    {
      holding := holding + {|entries|};
      entries := entries + [e];
    }

    method DropHolder(i: nat)
      requires pool.Valid() && i in holding
      requires forall k :: 0 <= k < |entries| ==> entries[k] in pool.loaded
      requires forall k :: k in holding ==> k < |entries|
      requires forall x, k :: x in pool.loaded ==> (k in x.users <==> Holds(k, x) && k != i)
      modifies this`holding
      ensures PoolOk() && holding == old(holding) - {i}
    {
      holding := holding - {i};
    }

    /** Only the backend i is closed and has its module still. */
    ghost predicate HoldingBut(i: nat)
      reads this, backends
    {
      && |entries| == |backends| && i < |backends| && backends[i].closed
      && forall k :: 0 <= k < |backends| && k != i ==> (k in holding <==> !backends[k].closed)
    }

    method ReleaseModule(i: nat)
      requires PoolOk() && BackendsOk() && i in holding && HoldingBut(i)
      modifies this`holding, pool, entries[i]
      ensures Valid() && forall k :: 0 <= k < |backends| ==> unchanged(backends[k])
      ensures holding == old(holding) - {i} && pool.loaded == old(pool.loaded)
      ensures entries[i].users == old(entries[i].users) - {i}
    {
      ReleaseInPool(i);
    }

    method ReleaseInPool(i: nat)
      requires PoolOk() && i in holding
      modifies this`holding, pool, entries[i]
      ensures PoolOk() && holding == old(holding) - {i} && pool.loaded == old(pool.loaded)
      ensures entries[i].users == old(entries[i].users) - {i}
    {
      assert Holds(i, entries[i]);
      pool.Release(entries[i], i);
      DropHolder(i);
    }

    // -------------------------------------------------------------- calls

    /** A call on one backend leaves the others as they are. */
    twostate lemma OthersStay(i: nat)
      requires i < |backends| && backends == old(backends) && old(BackendsOk())
      requires native.latch.Valid() && backends[i].Valid()
      requires forall k :: 0 <= k < |backends| && k != i ==> unchanged(backends[k])
      ensures BackendsOk()
    {
      forall k | 0 <= k < |backends| ensures backends[k].module_ == native && backends[k].Valid() {
        if k != i {
          assert old(backends[k].Valid());
        }
      }
    }

    /** What a call leaves of a backend that was there before. */
    twostate predicate Later(b: Backend)
      reads b
    {
      && old(b.trace) <= b.trace
      && (old(b.pub).Some? ==> b.pub == old(b.pub))
      && (old(b.closed) ==> b.closed)
      && (old(b.pinFailure).Some? ==> b.pinFailure == old(b.pinFailure))
      && (old(b.closed) || old(b.pinFailure).Some? ==> b.trace == old(b.trace))
    }

    /** A call on one backend, apart from what its close means for the pool. */
    method PerformOn(i: nat, call: Call, pinText: Option<string>)
      requires Valid() && i < |backends|
      modifies backends[i], native.latch
      ensures BackendsOk() && PoolOk() && Later(backends[i])
      ensures old(native.latch.attempts) <= native.latch.attempts
      ensures backends[i].closed <==> old(backends[i].closed) || call.CloseCall?
      ensures forall k :: 0 <= k < |backends| && k != i ==> backends[k].closed == old(backends[k].closed)
    {
      Perform(backends[i], call, pinText);
      OthersStay(i);
    }

    /** A call on one backend; if it is the close that counts, its module loses this user. */
    method CallBackend(i: nat, call: Call, pinText: Option<string>)
      requires Valid() && i < |backends|
      modifies this`holding, backends[i], native.latch, pool, entries[i]
      ensures Valid() && old(native.latch.attempts) <= native.latch.attempts && pool.loaded == old(pool.loaded)
      ensures Later(backends[i])
      ensures backends[i].closed <==> old(backends[i].closed) || call.CloseCall?
      ensures entries[i].users == if call.CloseCall? then old(entries[i].users) - {i} else old(entries[i].users)
    {
      var wasClosed := backends[i].closed;
      assert i in entries[i].users <==> Holds(i, entries[i]);
      PerformOn(i, call, pinText);
      if call.CloseCall? && !wasClosed {
        assert HoldingBut(i);
        ReleaseModule(i);
      }
    }

    /** Makes a backend with a module it has just acquired, and gives that back if construction fails. */
    method MakeWith(m: Making) returns (error: Option<BackendError>)
      requires BackendsOk() && PoolOk() && OneToMake()
      modifies this`backends, this`holding, native.latch, pool, entries[|backends|]
      ensures Valid() && old(native.latch.attempts) <= native.latch.attempts && pool.loaded == old(pool.loaded)
      ensures |backends| == |old(backends)| + 1 && old(backends) <= backends && fresh(backends[|old(backends)|])
      ensures var b := backends[|old(backends)|];
        if error.None? then b.sessionOpen && b.pub.Some? && !b.closed else b.closed && b.releases == 1
    {
      error := AppendHolder(m);
      if error.Some? {
        ReleaseModule(|backends| - 1);
      }
    }

    /** The new backend with the module acquired for it, which a failed one has still to give back. */
    method AppendHolder(m: Making) returns (error: Option<BackendError>)
      requires BackendsOk() && PoolOk() && OneToMake()
      modifies this`backends, native.latch
      ensures BackendsOk() && PoolOk() && old(native.latch.attempts) <= native.latch.attempts
      ensures |backends| == |old(backends)| + 1 && old(backends) <= backends && fresh(backends[|old(backends)|])
      ensures var b := backends[|old(backends)|];
        if error.None? then b.sessionOpen && b.pub.Some? && !b.closed else b.closed && b.releases == 1
      ensures if error.None? then HoldingOk() else HoldingBut(|backends| - 1) && |backends| - 1 in holding
    {
      error := AppendBackend(m);
    }

    method AppendBackend(m: Making) returns (error: Option<BackendError>)
      requires BackendsOk() && PoolOk()
      modifies this`backends, native.latch
      ensures PoolOk() && forall k :: 0 <= k < |old(backends)| ==> unchanged(old(backends)[k])
      ensures BackendsOk() && old(native.latch.attempts) <= native.latch.attempts
      ensures |backends| == |old(backends)| + 1 && old(backends) <= backends && fresh(backends[|old(backends)|])
      ensures var b := backends[|old(backends)|];
        if error.None? then b.sessionOpen && b.pub.Some? && !b.closed else b.closed && b.releases == 1
    {
      var b;
      b, error := NewBackend(m.cfg, native, verify, m.configOk, m.pathOk, m.pinText);
      AllStay();
      backends := backends + [b];
    }

    twostate lemma AllStay()
      requires old(BackendsOk()) && native.latch.Valid() && backends == old(backends)
      requires forall k :: 0 <= k < |backends| ==> unchanged(backends[k])
      ensures BackendsOk()
    {
      forall k | 0 <= k < |backends| ensures backends[k].module_ == native && backends[k].Valid() {
        assert old(backends[k].Valid());
      }
    }

    /** What making a backend, or failing to, leaves of the process. */
    twostate predicate Made(new r: Result<nat, MakeError>)
      reads this, backends
    {
      var n := |old(backends)|;
      && old(backends) <= backends
      && if r.Ok?
         then |backends| == n + 1 && r.value == n && fresh(backends[n]) && Working(backends[n])
         else backends == old(backends) || (|backends| == n + 1 && fresh(backends[n]) && backends[n].closed)
    }

    /** A backend with a session and a pinned key. */
    ghost predicate Working(b: Backend)
      reads b
    {
      b.pub.Some? && b.sessionOpen && !b.closed
    }

    /** Makes a backend: after a look at the configuration its module is acquired. */
    method Make(m: Making) returns (r: Result<nat, MakeError>)
      requires Valid()
      modifies this, native.latch, pool, pool.loaded
      ensures !m.configOk ==> r == Err(BadConfig)
      ensures Valid() && old(native.latch.attempts) <= native.latch.attempts && Made(r)
      ensures old(pool.loaded) <= pool.loaded && fresh(pool.loaded - old(pool.loaded))
    {
      if m.configOk {
        r := MakeChecked(m);
      } else {
        r := Err(BadConfig);
      }
    }

    method MakeChecked(m: Making) returns (r: Result<nat, MakeError>)
      requires Valid()
      modifies this, native.latch, pool, pool.loaded
      ensures Valid() && old(native.latch.attempts) <= native.latch.attempts && Made(r)
      ensures old(pool.loaded) <= pool.loaded && fresh(pool.loaded - old(pool.loaded))
    {
      var entry := AcquireModule(m);
      if entry.Err? {
        return Err(NoModule(entry.error));
      }
      r := MakeAcquired(m);
    }

    /** The backend for a module just acquired, as the result of making it. */
    method MakeAcquired(m: Making) returns (r: Result<nat, MakeError>)
      requires BackendsOk() && PoolOk() && OneToMake()
      modifies this`backends, this`holding, native.latch, pool, entries[|backends|]
      ensures Valid() && old(native.latch.attempts) <= native.latch.attempts && Made(r)
      ensures pool.loaded == old(pool.loaded)
    {
      var error := MakeWith(m);
      return if error.None? then Ok(|backends| - 1) else Err(NoBackend(error.value));
    }

    /** One call of a script: it makes a backend, or it is made on one that exists. */
    method Step(call: ProcessCall)
      requires Valid()
      modifies this, backends, native.latch, pool, pool.loaded
      ensures Valid() && old(native.latch.attempts) <= native.latch.attempts
      ensures old(pool.loaded) <= pool.loaded && fresh(pool.loaded - old(pool.loaded))
      ensures old(backends) <= backends && forall k :: |old(backends)| <= k < |backends| ==> fresh(backends[k])
      ensures forall k :: 0 <= k < |old(backends)| ==> Later(backends[k])
    {
      match call {
        case MakeBackend(m) => var r := Make(m);
        case OnBackend(i, c, pinText) =>
          if i < |backends| {
            CallBackend(i, c, pinText);
          }
      }
    }

    /**
      Any sequence of calls, on any backends made at any time, each with whatever the PIN file holds then:
      pinned keys stay, closed or latched backends do nothing more at all, and logins only ever grow
      under the latch's rule.
     */
    method Run(script: seq<ProcessCall>)
      requires Valid()
      modifies this, backends, native.latch, pool, pool.loaded
      ensures Valid() && old(native.latch.attempts) <= native.latch.attempts
      ensures old(backends) <= backends
      ensures forall k :: 0 <= k < |old(backends)| ==> Later(backends[k])
    {
      ghost var before := backends;
      var i := 0;
      while i < |script|
        invariant 0 <= i <= |script| && Valid() && old(native.latch.attempts) <= native.latch.attempts
        invariant before <= backends && forall k :: |before| <= k < |backends| ==> fresh(backends[k])
        invariant old(pool.loaded) <= pool.loaded && fresh(pool.loaded - old(pool.loaded))
        invariant forall k :: 0 <= k < |before| ==> Later(before[k])
      {
        label Now:
        Step(script[i]);
        assert forall k :: 0 <= k < |before| ==> Later@Now(before[k]);
        i := i + 1;
      }
    }
  }
}
