/**
  The serving set: which node connections this replica holds, how a reconcile pass
  changes them, and the order of a graceful shutdown.
 */
module Lifecycle {
  import opened Wrappers
  import Connector

  /** What a pass finds: leadership, the resolved targets, the state of each endpoint, failing starts. */
  datatype View = View(
    leader: bool,
    targets: Option<seq<string>>,
    isConnected: string -> bool,
    silent: string -> bool,
    startFails: string -> bool)

  /** What wakes the run loop; a health scan and the pass it asks for look at different moments. */
  datatype Tick = Reconcile(view: View) | Watch(pending: bool, scan: View, view: View)

  class NodeServer {
    const addr: string
    var connected: bool
    var conn: Connector.State              // flag, mutex, sockets and service loop
    ghost var steps: seq<Connector.Step>   // the interleaving that led there

    ghost predicate Valid()
      reads this
    {
      conn == Connector.Run(steps)
    }

    predicate Live()
      reads this
    {
      conn.retirement.NotRetired?
    }

    predicate Retired()
      reads this
    {
      conn.retirement.Retired?
    }

    constructor (addr: string)
      ensures this.addr == addr && Valid() && Live() && !connected
    {
      this.addr := addr;
      connected := false;
      conn := Connector.START;
      steps := [];
    }

    method Do(step: Connector.Step)
      requires Valid()
      modifies this`conn, this`steps
      ensures Valid() && steps == old(steps) + [step] && conn == Connector.Exec(old(conn), step)
    {
      conn := Connector.Exec(conn, step);
      steps := steps + [step];
      assert steps[..|steps| - 1] == old(steps);
    }

    /** The service loop and the asynchronous stop run for a while. */
    method Serve()
      requires Valid()
      modifies this`conn, this`steps
      ensures Valid() && old(steps) <= steps && conn.retirement == old(conn.retirement)
    {
      var moves: nat := *;
      while moves > 0
        invariant Valid() && old(steps) <= steps && conn.retirement == old(conn.retirement)
      {
        var step: Connector.Step := *;
        if !step.RetirementMoves? {
          Connector.OnlyRetirementRetires(conn, step);
          Do(step);
        }
        moves := moves - 1;
      }
    }

    /** Waits for the mutex, which the service loop cannot keep, and takes it. */
    method LockForRetirement()
      requires Valid() && conn.retirement.Cancelled?
      modifies this`conn, this`steps
      ensures Valid() && old(steps) <= steps && conn.retirement.Closing?
    {
      Connector.RunKeepsInv(steps);
      while conn.mutex.ByService?
        invariant Valid() && old(steps) <= steps && conn.retirement.Cancelled? && Connector.Inv(conn)
        decreases Connector.MovesLocked(conn.service)
      {
        var good: bool := *;
        Connector.MutexIsReleased(conn, good);
        Do(Connector.ServiceMoves(good));
        Connector.RunKeepsInv(steps);
      }
      Do(Connector.RetirementMoves);
    }

    /** Sets the flag, cancels the dial and closes the socket, while the service loop goes on. */
    method Retire()
      requires Valid() && Live()
      modifies this`conn, this`steps
      ensures Valid() && old(steps) <= steps && Retired()
    {
      FlagAndCancel();
      LockForRetirement();
      Serve();
      Do(Connector.RetirementMoves);
    }

    method FlagAndCancel()
      requires Valid() && Live()
      modifies this`conn, this`steps
      ensures Valid() && old(steps) <= steps && conn.retirement.Cancelled?
    {
      Do(Connector.RetirementMoves);
      Serve();
      Do(Connector.RetirementMoves);
      Serve();
    }

    /** Latches the connection state; true when a live connection has gone silent. */
    method Observe(isConnected: bool, silent: bool) returns (retire: bool)
      requires Valid()
      modifies this`connected, this`conn, this`steps
      ensures Valid() && old(steps) <= steps && conn.retirement == old(conn.retirement)
      ensures connected == isConnected
      ensures retire <==> isConnected && old(connected) && silent
    {
      Serve();
      if isConnected {
        if !connected {
          connected := true;
          return false;
        }
        return silent;
      }
      connected := false;
      return false;
    }
  }

  function Wanted(targets: seq<string>): set<string> {
    set a | a in targets
  }

  /** The served addresses a pass must leave: every target, less those whose needed start failed. */
  ghost function Served(kept: set<string>, want: set<string>, startFails: string -> bool): (r: set<string>)
    requires kept <= want
    ensures forall a :: a in r <==> a in want && (a in kept || !startFails(a))
  {
    set a | a in want && (a in kept || !startFails(a))
  }

  /** What a pass makes of the served addresses. */
  ghost predicate PassOk(before: set<string>, view: View, after: set<string>) {
    && (!view.leader ==> after == {})
    && (view.leader && view.targets.None? ==> after == before)
    && (view.leader && view.targets.Some? ==>
          var want := Wanted(view.targets.value);
          && after <= want
          && (forall a :: a in want && !view.startFails(a) ==> a in after)
          && (forall a :: a in after && view.startFails(a) ==> a in before)
          && (forall a :: a in before && a in want && !view.silent(a) ==> a in after))
  }

  /** What a tick makes of them: a pass, or for a watch that finds all well nothing. */
  ghost predicate TickOk(before: set<string>, tick: Tick, after: set<string>) {
    match tick
    case Reconcile(view) => PassOk(before, view, after)
    case Watch(pending, scan, view) =>
      && (after == before || PassOk(before, view, after))
      && (pending || (exists a :: a in before && !scan.isConnected(a)) ==> PassOk(before, view, after))
      && (!pending && (forall a :: a in before ==> scan.isConnected(a) && !scan.silent(a)) ==> after == before)
  }

  class Manager {
    var servers: map<string, NodeServer>
    ghost var created: set<NodeServer>           // every connector ever started
    ghost var handoff: Option<set<NodeServer>>   // the connectors that existed when the handoff began

    ghost predicate Serves(ns: NodeServer)
      reads this
    {
      ns.addr in servers && servers[ns.addr] == ns
    }

    /** A connector is live while it is in the map, and its retirement is over once it has left it. */
    ghost predicate Valid()
      reads this, created
    {
      && (forall a :: a in servers ==> servers[a] in created && servers[a].addr == a)
      && (forall ns :: ns in created ==> ns.Valid() && if Serves(ns) then ns.Live() else ns.Retired())
    }

    ghost predicate AllRetired()
      reads this, created
    {
      forall ns :: ns in created ==> ns.Retired()
    }

    /** Each address has at most one connector that is not retired. */
    lemma OneLiveConnector(x: NodeServer, y: NodeServer)
      requires Valid() && x in created && y in created && !x.Retired() && !y.Retired() && x.addr == y.addr
      ensures x == y
    {
    }

    /**
      A connector that has left the map refuses everything from then on: whatever its service loop still
      does, each socket it ever opened is closed once it has no dial attempt under way.
     */
    lemma RetiredConnectorsClose(ns: NodeServer, more: seq<Connector.Step>, sock: nat)
      requires Valid() && ns in created && !Serves(ns)
      requires var s := Connector.Run(ns.steps + more); Connector.DialAttemptOver(s) && sock < |s.open|
      ensures !Connector.Run(ns.steps + more).open[sock]
    {
      Connector.RetiredForGood(ns.steps, more);
      Connector.AllSocketsClosed(ns.steps + more, sock);
    }

    constructor ()
      ensures Valid() && servers == map[] && created == {} && handoff.None?
    {
      servers := map[];
      created := {};
      handoff := None;
    }

    method Retire(addr: string)
      requires Valid() && addr in servers
      modifies this`servers, {servers[addr]}`conn, {servers[addr]}`steps
      ensures Valid() && servers == old(servers) - {addr}
      ensures old(servers)[addr].Retired()
    {
      servers[addr].Retire();
      servers := servers - {addr};
    }

    method StopAll()
      requires Valid()
      modifies this`servers, created`conn, created`steps
      ensures Valid() && servers == map[] && AllRetired()
    {
      while servers != map[]
        invariant Valid()
        decreases |servers.Keys|
      {
        var addr :| addr in servers;
        Retire(addr);
      }
    }

    /** The connectors a pass keeps: wanted, and not a connection that went silent. */
    ghost function Kept(view: View): set<string>
      requires view.targets.Some?
      reads this, servers.Values
    {
      set a | a in servers && Keeps(a, servers[a].connected, view)
    }

    predicate Keeps(addr: string, connected: bool, view: View)
      requires view.targets.Some?
    {
      addr in view.targets.value && !(view.isConnected(addr) && connected && view.silent(addr))
    }

    /** Looks at one connector and retires it if it is not to be kept. */
    method Inspect(addr: string, view: View)
      requires Valid() && view.targets.Some? && addr in servers
      modifies this`servers, {servers[addr]}
      ensures Valid()
      ensures old(Keeps(addr, servers[addr].connected, view)) ==>
        servers == old(servers) && servers[addr].connected == view.isConnected(addr)
      ensures !old(Keeps(addr, servers[addr].connected, view)) ==> servers == old(servers) - {addr}
      ensures forall a :: a in servers && a != addr ==> servers[a].connected == old(servers[a].connected)
    {
      if addr !in view.targets.value {
        Retire(addr);
      } else {
        var silent := servers[addr].Observe(view.isConnected(addr), view.silent(addr));
        if silent {
          Retire(addr);
        }
      }
    }

    /** Retires what is no longer wanted or has gone silent. */
    method Prune(view: View)
      requires Valid() && view.targets.Some?
      modifies this`servers, created
      ensures Valid() && servers.Keys == old(Kept(view))
      ensures forall a :: a in servers ==> servers[a] == old(servers)[a] && servers[a].connected == view.isConnected(a)
    {
      var todo := servers.Keys;
      ghost var all := servers;
      ghost var keep := Kept(view);
      while todo != {}
        invariant Valid() && todo <= servers.Keys <= all.Keys
        invariant forall a :: a in servers ==> servers[a] == all[a]
        invariant forall a :: a in servers && a !in todo ==> a in keep && servers[a].connected == view.isConnected(a)
        invariant forall a :: a in todo ==> servers[a].connected == old(servers[a].connected)
        invariant keep <= servers.Keys
        decreases |todo|
      {
        var addr :| addr in todo;
        Inspect(addr, view);
        todo := todo - {addr};
      }
    }

    /** Starts a connector, unless the start fails. */
    method StartOne(addr: string, fails: bool)
      requires Valid() && addr !in servers
      modifies this`servers, this`created
      ensures Valid() && old(created) <= created && fresh(created - old(created))
      ensures fails ==> servers == old(servers) && created == old(created)
      ensures !fails ==> addr in servers && fresh(servers[addr]) && servers == old(servers)[addr := servers[addr]]
    {
      if fails {
        return;
      }
      var ns := new NodeServer(addr);
      created := created + {ns};
      servers := servers[addr := ns];
    }

    /** Starts every wanted connector that is missing. */
    method Fill(view: View)
      requires Valid() && view.targets.Some? && servers.Keys <= Wanted(view.targets.value)
      modifies this`servers, this`created
      ensures Valid() && old(created) <= created && fresh(created - old(created))
      ensures servers.Keys == Served(old(servers.Keys), Wanted(view.targets.value), view.startFails)
      ensures forall a :: a in old(servers) ==> servers[a] == old(servers)[a]
    {
      var want := Wanted(view.targets.value);
      ghost var kept := servers.Keys;
      var todo := want;
      while todo != {}
        invariant Valid() && old(created) <= created && fresh(created - old(created))
        invariant todo <= want && kept <= servers.Keys <= want
        invariant forall a :: a in old(servers) ==> servers[a] == old(servers)[a]
        invariant forall a :: a in servers ==> a in kept || !view.startFails(a)
        invariant forall a :: a in want && a !in todo && !view.startFails(a) ==> a in servers
        decreases |todo|
      {
        var addr :| addr in todo;
        if addr !in servers {
          StartOne(addr, view.startFails(addr));
        }
        todo := todo - {addr};
      }
    }

    /**
      One reconcile pass.  A non-leader serves nobody; an unknown target set changes nothing; otherwise
      the served addresses are the targets less the failed starts, and a kept connector is the same one.
     */
    method ReconcilePass(view: View)
      requires Valid()
      modifies this`servers, this`created, created
      ensures Valid() && old(created) <= created && fresh(created - old(created))
      ensures !view.leader ==> servers == map[] && AllRetired()
      ensures view.leader && view.targets.None? ==>
        servers == old(servers) && created == old(created)
        && forall ns :: ns in created ==> unchanged(ns)
      ensures view.leader && view.targets.Some? ==>
        && servers.Keys == Served(old(Kept(view)), Wanted(view.targets.value), view.startFails)
        && forall a :: a in old(Kept(view)) ==> servers[a] == old(servers)[a]
      ensures PassOk(old(servers.Keys), view, servers.Keys)
    {
      if !view.leader {
        StopAll();
        return;
      }
      if view.targets.None? {
        return;
      }
      Prune(view);
      Fill(view);
    }

    /** The health scan between ticks: is anything unconnected, silent, or recently retired? */
    method NeedsFastDiscovery(pending: bool, view: View) returns (fast: bool)
      requires Valid()
      modifies created
      ensures Valid()
      ensures fast <==>
        || pending
        || exists a :: a in servers && (!view.isConnected(a) || (old(servers[a].connected) && view.silent(a)))
    {
      if pending {
        return true;
      }
      var todo := servers.Keys;
      while todo != {}
        invariant Valid() && todo <= servers.Keys
        invariant forall a :: a in todo ==> servers[a].connected == old(servers[a].connected)
        invariant forall a :: a in servers && a !in todo ==>
          view.isConnected(a) && !(old(servers[a].connected) && view.silent(a))
        decreases |todo|
      {
        var addr :| addr in todo;
        var unwell := LookAt(addr, view);
        if unwell {
          return true;
        }
        todo := todo - {addr};
      }
      return false;
    }

    /** Is this connection unconnected or silent? */
    method LookAt(addr: string, view: View) returns (unwell: bool)
      requires Valid() && addr in servers
      modifies {servers[addr]}
      ensures Valid()
      ensures unwell <==> !view.isConnected(addr) || (old(servers[addr].connected) && view.silent(addr))
    {
      var ns := servers[addr];
      var silent := ns.Observe(view.isConnected(addr), view.silent(addr));
      return silent || !ns.connected;
    }

    /** One turn of the run loop. */
    method HandleTick(tick: Tick)
      requires Valid() && handoff.None?
      modifies this`servers, this`created, created
      ensures Valid() && handoff.None? && old(created) <= created && fresh(created - old(created))
      ensures TickOk(old(servers.Keys), tick, servers.Keys)
    {
      match tick {
        case Reconcile(view) => ReconcilePass(view);
        case Watch(pending, scan, view) =>
          var fast := NeedsFastDiscovery(pending, scan);
          if fast {
            ReconcilePass(view);
          }
      }
    }

    /** The handoff of leadership; it may begin only when nothing is served any more. */
    method TransferLeadership(leader: bool)
      requires Valid() && servers == map[] && AllRetired()
      modifies this`handoff
      ensures Valid() && AllRetired() && servers == map[]
      ensures leader ==> handoff == Some(created)
      ensures !leader ==> handoff == old(handoff)
    {
      if leader {
        handoff := Some(created);
      }
    }

    /**
      The run loop: passes for each tick until the context is cancelled, then the connections are
      retired, then leadership is handed off.  The served addresses after each tick are what the tick makes
      of those before it.  At the end every connector ever created is retired, and a handoff began with all
      of them retired and none created since.
     */
    method Run(first: View, ticks: seq<Tick>, leaderAtEnd: bool) returns (ghost served: seq<set<string>>)
      requires Valid() && handoff.None?
      modifies this, created
      ensures |served| == |ticks| + 1 && PassOk(old(servers.Keys), first, served[0])
      ensures forall i :: 0 <= i < |ticks| ==> TickOk(served[i], ticks[i], served[i + 1])
      ensures Valid() && AllRetired() && servers == map[]
      ensures handoff.Some? <==> leaderAtEnd
      ensures handoff.Some? ==> handoff.value == created
    {
      ReconcilePass(first);
      served := [servers.Keys];
      var i := 0;
      while i < |ticks|
        invariant Valid() && handoff.None? && 0 <= i <= |ticks|
        invariant old(created) <= created && fresh(created - old(created))
        invariant |served| == i + 1 && served[i] == servers.Keys && PassOk(old(servers.Keys), first, served[0])
        invariant forall k :: 0 <= k < i ==> TickOk(served[k], ticks[k], served[k + 1])
      {
        HandleTick(ticks[i]);
        served := served + [servers.Keys];
        i := i + 1;
      }
      StopAll();
      TransferLeadership(leaderAtEnd);
    }
  }
}
