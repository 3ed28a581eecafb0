/**
  One node connection: a service loop that dials, hands over, serves and drops
  sockets, and a retirement that flags the connector, cancels its dial and closes its
  socket.  The two run concurrently; the flag is atomic, the socket is behind a mutex,
  and every access of either is a step of its own.
 */
module Connector {
  import opened Wrappers

  /** Where the service loop is; a socket is named from the moment it is opened. */
  datatype Service =
    | Dialing                            // about to connect
    | TrackLock(sock: nat)               // track: about to lock
    | TrackCheck(sock: nat)              //   locked, about to load the flag
    | TrackSet(sock: nat)                //   saw the flag clear, about to record the socket and unlock
    | TrackRefuse(sock: nat)             //   saw the flag set, about to unlock
    | Handshaking(sock: nat)
    | OverLock(sock: nat)                // handOver: about to lock
    | OverCheck(sock: nat)               //   locked, about to load the flag
    | OverYes(sock: nat)                 //   saw it clear, about to unlock
    | OverNo(sock: nat)                  //   saw it set, about to unlock
    | ClosingOwn(sock: nat)              // an attempt that failed closes its own socket
    | DialFailed                         // about to look at the dial context
    | RetryWait                          // waiting for the context or the timer
    | Serving(sock: nat)                 // installed in the endpoint, waiting for a request
    | Handling(sock: nat)                // a request was read, about to load the flag
    | CloseLock(sock: nat)               // the refusing handler closes the socket: about to lock
    | CloseHeld(sock: nat)               //   locked
    | Replying(sock: nat, refusal: bool)
    | Dropping(sock: nat)                // the endpoint closes before it dials again
    | Exited(byDialer: bool)

  datatype Retirement = NotRetired | Flagged | Cancelled | Closing | Retired

  datatype Mutex = Free | ByService | ByRetirement

  /** What happened, in order. */
  datatype Event =
    | FlagSet
    | HandedOver(sock: nat, wasOpen: bool)
    | Accepted(sock: nat)                // a request passed the handler's check and may sign
    | Wrote(sock: nat, refusal: bool, wasOpen: bool)

  datatype State = State(
    retired: bool, cancelled: bool, stopped: bool, mutex: Mutex, conn: Option<nat>, open: seq<bool>,
    service: Service, retirement: Retirement, events: seq<Event>)

  /** The service loop moves (well or badly), retirement moves, or the asynchronous stop lands. */
  datatype Step = ServiceMoves(good: bool) | RetirementMoves | StopLands

  const START := State(false, false, false, Free, None, [], Dialing, NotRetired, [])

  function Close(s: State, sock: nat): State {
    if sock < |s.open| then s.(open := s.open[sock := false]) else s
  }

  function CloseTracked(s: State): State {
    if s.conn.Some? then Close(s, s.conn.value) else s
  }

  predicate IsOpen(s: State, sock: nat) { sock < |s.open| && s.open[sock] }

  /** Taking the mutex, if it is free. */
  function Lock(s: State, next: Service): State {
    if s.mutex.Free? then s.(mutex := ByService, service := next) else s
  }

  /** dialOnce up to the recorded socket. */
  function TrackStep(s: State, good: bool): (t: State)
    ensures t.retirement == s.retirement && |t.events| >= |s.events| && |t.open| >= |s.open|
  {
    match s.service
    case Dialing =>
      if good then s.(open := s.open + [true], service := TrackLock(|s.open|)) else s.(service := DialFailed)
    case TrackLock(k) => Lock(s, TrackCheck(k))
    case TrackCheck(k) => s.(service := if s.retired then TrackRefuse(k) else TrackSet(k))
    case TrackSet(k) => s.(conn := Some(k), mutex := Free, service := Handshaking(k))
    case TrackRefuse(k) => s.(mutex := Free, service := ClosingOwn(k))
    case _ => s
  }

  /** The handshake and the hand-over. */
  function HandOverStep(s: State, good: bool): (t: State)
    ensures t.retirement == s.retirement && |t.events| >= |s.events| && |t.open| >= |s.open|
  {
    match s.service
    case Handshaking(k) => s.(service := if good then OverLock(k) else ClosingOwn(k))
    case OverLock(k) => Lock(s, OverCheck(k))
    case OverCheck(k) =>
      if s.retired then s.(service := OverNo(k))
      else s.(service := OverYes(k), events := s.events + [HandedOver(k, IsOpen(s, k))])
    case OverYes(k) => s.(mutex := Free, service := Serving(k))
    case OverNo(k) => s.(mutex := Free, service := ClosingOwn(k))
    case _ => s
  }

  /** The end of a failed attempt and the wait for the next one. */
  function RetryStep(s: State, good: bool): (t: State)
    ensures t.retirement == s.retirement && |t.events| >= |s.events| && |t.open| >= |s.open|
  {
    match s.service
    case ClosingOwn(k) => Close(s, k).(service := DialFailed)
    case DialFailed => s.(service := if s.cancelled then Exited(true) else RetryWait)
    case RetryWait => if good then s.(service := Dialing) else if s.cancelled then s.(service := Exited(true)) else s
    case _ => s
  }

  /** Requests on the installed connection. */
  function ServeStep(s: State, good: bool): (t: State)
    ensures t.retirement == s.retirement && |t.events| >= |s.events| && |t.open| >= |s.open|
  {
    match s.service
    case Serving(k) => s.(service := if good then Handling(k) else Dropping(k))
    case Handling(k) =>
      if s.retired then s.(service := CloseLock(k))
      else s.(service := Replying(k, false), events := s.events + [Accepted(k)])
    case CloseLock(k) => Lock(s, CloseHeld(k))
    case CloseHeld(k) => CloseTracked(s).(mutex := Free, service := Replying(k, true))
    case Replying(k, refusal) => s.(service := Serving(k), events := s.events + [Wrote(k, refusal, IsOpen(s, k))])
    case Dropping(k) => Close(s, k).(service := if s.stopped then Exited(false) else Dialing)
    case _ => s
  }

  predicate InTrack(v: Service) { v.Dialing? || v.TrackLock? || v.TrackCheck? || v.TrackSet? || v.TrackRefuse? }

  predicate InHandOver(v: Service) { v.Handshaking? || v.OverLock? || v.OverCheck? || v.OverYes? || v.OverNo? }

  predicate InRetry(v: Service) { v.ClosingOwn? || v.DialFailed? || v.RetryWait? }

  function ServiceStep(s: State, good: bool): (t: State)
    ensures t.retirement == s.retirement && |t.events| >= |s.events| && |t.open| >= |s.open|
  {
    if InTrack(s.service) then TrackStep(s, good)
    else if InHandOver(s.service) then HandOverStep(s, good)
    else if InRetry(s.service) then RetryStep(s, good)
    else ServeStep(s, good)
  }

  function RetirementStep(s: State): State {
    match s.retirement
    case NotRetired => s.(retired := true, retirement := Flagged, events := s.events + [FlagSet])
    case Flagged => s.(cancelled := true, retirement := Cancelled)
    case Cancelled => if s.mutex.Free? then s.(mutex := ByRetirement, retirement := Closing) else s
    case Closing => CloseTracked(s).(mutex := Free, retirement := Retired)
    case Retired => s
  }

  /** The connection is in the endpoint's hands. */
  predicate Installed(v: Service) {
    v.Serving? || v.Handling? || v.CloseLock? || v.CloseHeld? || v.Replying? || v.Dropping?
  }

  /**
    The endpoint's own stop, which lands at any moment after retirement: it closes an installed connection,
    whatever the loop is doing with it, and the loop ends when it next drops a connection.
   */
  function StopStep(s: State): State {
    if !s.retirement.Retired? then s
    else if Installed(s.service) then Close(s, s.service.sock).(stopped := true)
    else s.(stopped := true)
  }

  function Exec(s: State, step: Step): State {
    match step
    case ServiceMoves(good) => ServiceStep(s, good)
    case RetirementMoves => RetirementStep(s)
    case StopLands => StopStep(s)
  }

  function Run(steps: seq<Step>): State {
    if steps == [] then START else Exec(Run(steps[..|steps| - 1]), steps[|steps| - 1])
  }

  // ---------------------------------------------------------------- the invariant

  /** The socket the service loop works with. */
  function Held(v: Service): Option<nat> {
    match v
    case Dialing => None
    case DialFailed => None
    case RetryWait => None
    case Exited(_) => None
    case _ => Some(v.sock)
  }

  /** The socket is opened but not yet recorded, so closing it is the dialer's own duty. */
  predicate Untracked(v: Service) {
    v.TrackLock? || v.TrackCheck? || v.TrackSet? || v.TrackRefuse?
  }

  predicate ServiceLocked(v: Service) {
    v.TrackCheck? || v.TrackSet? || v.TrackRefuse? || v.OverCheck? || v.OverYes? || v.OverNo? || v.CloseHeld?
  }

  predicate FlagsOk(s: State) {
    && (s.retired <==> !s.retirement.NotRetired?)
    && (s.cancelled <==> s.retirement.Cancelled? || s.retirement.Closing? || s.retirement.Retired?)
    && (s.mutex.ByService? <==> ServiceLocked(s.service))
    && (s.mutex.ByRetirement? <==> s.retirement.Closing?)
    && (s.service.Exited? ==> if s.service.byDialer then s.cancelled else s.stopped)
    && (s.stopped ==> s.retirement.Retired?)
  }

  predicate SocketsOk(s: State) {
    && (forall i :: 0 <= i < |s.open| && s.open[i] ==> Held(s.service) == Some(i))
    && (Held(s.service).Some? ==> Held(s.service).value < |s.open|)
    && (s.conn.Some? ==> s.conn.value < |s.open|)
    && (Held(s.service).Some? && !Untracked(s.service) && !s.service.ClosingOwn? ==> s.conn == Held(s.service))
    && (s.service.ClosingOwn? && !s.retired ==> s.conn == Held(s.service))
    && (Held(s.service).Some? && s.retirement.NotRetired? ==> s.open[Held(s.service).value])
  }

  predicate ProtocolOk(s: State) {
    && (s.service.TrackSet? || s.service.OverYes? ==> !s.retirement.Closing? && !s.retirement.Retired?)
    && (s.retirement.Retired? && Held(s.service).Some? && !Untracked(s.service) && !s.service.ClosingOwn? ==>
          !IsOpen(s, Held(s.service).value))
    && (s.service.TrackRefuse? || s.service.OverNo? || s.service.CloseLock? || s.service.CloseHeld? ==> s.retired)
    && (s.service.Replying? && s.service.refusal ==> s.retired && !IsOpen(s, s.service.sock))
  }

  predicate EventsOk(s: State) {
    && (forall i :: 0 <= i < |s.events| && s.events[i].Wrote? && s.events[i].refusal ==> !s.events[i].wasOpen)
    && (forall i :: 0 <= i < |s.events| && s.events[i].HandedOver? ==> s.events[i].wasOpen)
    && (forall i :: 0 <= i < |s.events| && s.events[i].FlagSet? ==> s.retired)
    && (forall i, j :: 0 <= i < j < |s.events| && s.events[i].FlagSet? ==>
          !s.events[j].Accepted? && !s.events[j].HandedOver?)
  }

  /** A socket that was handed over is in service until it is dropped. */
  predicate HandedOk(s: State) {
    forall i :: 0 <= i < |s.events| && s.events[i].HandedOver? ==>
      && s.events[i].sock < |s.open|
      && (Held(s.service) == Some(s.events[i].sock) ==> InService(s.service))
  }

  predicate InService(v: Service) {
    v.OverYes? || v.Serving? || v.Handling? || v.CloseLock? || v.CloseHeld? || v.Replying? || v.Dropping?
  }

  predicate Inv(s: State) {
    FlagsOk(s) && SocketsOk(s) && ProtocolOk(s) && EventsOk(s) && HandedOk(s)
  }

  /** One more event, if what it says is so. */
  lemma EventAdded(s: State, t: State, e: Event)
    requires EventsOk(s) && t.events == s.events + [e] && t.retired == s.retired
    requires s.retired ==> !e.Accepted? && !e.HandedOver?
    requires e.Wrote? && e.refusal ==> !e.wasOpen
    requires e.HandedOver? ==> e.wasOpen
    requires !e.FlagSet?
    ensures EventsOk(t)
  {
  }

  lemma DialingKeepsInv(s: State, good: bool)
    requires Inv(s) && s.service.Dialing?
    ensures Inv(TrackStep(s, good))
  {
  }

  lemma TrackKeepsInv(s: State, good: bool)
    requires Inv(s) && InTrack(s.service)
    ensures Inv(TrackStep(s, good))
  {
    if s.service.Dialing? {
      DialingKeepsInv(s, good);
    }
  }

  lemma HandOverChecked(s: State, good: bool)
    requires Inv(s) && s.service.OverCheck?
    ensures Inv(HandOverStep(s, good))
  {
    if !s.retired {
      EventAdded(s, HandOverStep(s, good), HandedOver(s.service.sock, true));
    }
  }

  lemma HandOverKeepsInv(s: State, good: bool)
    requires Inv(s) && InHandOver(s.service)
    ensures Inv(HandOverStep(s, good))
  {
    if s.service.OverCheck? {
      HandOverChecked(s, good);
    } else if s.service.Handshaking? {
      HandshakeKeepsInv(s, good);
    }
  }

  lemma HandshakeKeepsInv(s: State, good: bool)
    requires Inv(s) && s.service.Handshaking?
    ensures Inv(HandOverStep(s, good))
  {
  }

  lemma RetryKeepsInv(s: State, good: bool)
    requires Inv(s) && InRetry(s.service)
    ensures Inv(RetryStep(s, good))
  {
  }

  /** The serving moves that open and close nothing. */
  lemma RequestKeepsInv(s: State, good: bool)
    requires Inv(s) && (s.service.Serving? || s.service.Handling? || s.service.CloseLock?)
    ensures Inv(ServeStep(s, good))
  {
    if s.service.Handling? && !s.retired {
      EventAdded(s, ServeStep(s, good), Accepted(s.service.sock));
    }
  }

  lemma ReplyKeepsInv(s: State, good: bool)
    requires Inv(s) && s.service.Replying?
    ensures Inv(ServeStep(s, good))
  {
    EventAdded(s, ServeStep(s, good), Wrote(s.service.sock, s.service.refusal, IsOpen(s, s.service.sock)));
  }

  lemma ServeKeepsInv(s: State, good: bool)
    requires Inv(s) && !InTrack(s.service) && !InHandOver(s.service) && !InRetry(s.service)
    ensures Inv(ServeStep(s, good))
  {
    if s.service.Replying? {
      ReplyKeepsInv(s, good);
    } else if s.service.Serving? || s.service.Handling? || s.service.CloseLock? {
      RequestKeepsInv(s, good);
    }
  }

  lemma ServiceKeepsInv(s: State, good: bool)
    requires Inv(s)
    ensures Inv(ServiceStep(s, good))
  {
    if InTrack(s.service) { TrackKeepsInv(s, good); }
    else if InHandOver(s.service) { HandOverKeepsInv(s, good); }
    else if InRetry(s.service) { RetryKeepsInv(s, good); }
    else { ServeKeepsInv(s, good); }
  }

  lemma FlagKeepsInv(s: State)
    requires Inv(s) && s.retirement.NotRetired?
    ensures Inv(RetirementStep(s))
  {
  }

  lemma RetirementKeepsInv(s: State)
    requires Inv(s)
    ensures Inv(RetirementStep(s))
  {
    if s.retirement.NotRetired? { FlagKeepsInv(s); }
  }

  lemma StopKeepsInv(s: State)
    requires Inv(s)
    ensures Inv(StopStep(s))
  {
  }

  lemma StepKeepsInv(s: State, step: Step)
    requires Inv(s)
    ensures Inv(Exec(s, step))
  {
    match step
    case ServiceMoves(good) => ServiceKeepsInv(s, good);
    case RetirementMoves => RetirementKeepsInv(s);
    case StopLands => StopKeepsInv(s);
  }

  lemma {:induction false} RunKeepsInv(steps: seq<Step>)
    ensures Inv(Run(steps))
  {
    if steps != [] {
      RunKeepsInv(steps[..|steps| - 1]);
      StepKeepsInv(Run(steps[..|steps| - 1]), steps[|steps| - 1]);
    }
  }

  // ---------------------------------------------------------------- what every interleaving guarantees

  /** The dialer has not still to close a socket of its own. */
  predicate DialAttemptOver(s: State) {
    !Untracked(s.service) && !s.service.ClosingOwn?
  }

  /** Once retirement is done and no dial attempt is under way, every socket ever opened is closed. */
  lemma AllSocketsClosed(steps: seq<Step>, sock: nat)
    requires Run(steps).retirement.Retired? && DialAttemptOver(Run(steps)) && sock < |Run(steps).open|
    ensures !Run(steps).open[sock]
  {
    RunKeepsInv(steps);
  }

  /** A refusal is only ever written to a socket that is closed. */
  lemma RefusalsReachNobody(steps: seq<Step>, i: nat)
    requires i < |Run(steps).events| && Run(steps).events[i].Wrote? && Run(steps).events[i].refusal
    ensures !Run(steps).events[i].wasOpen
  {
    RunKeepsInv(steps);
  }

  /** Nothing is handed over, and no request is accepted, once the flag is set. */
  lemma NothingAfterFlag(steps: seq<Step>, i: nat, j: nat)
    requires i < j < |Run(steps).events| && Run(steps).events[i].FlagSet?
    ensures !Run(steps).events[j].HandedOver? && !Run(steps).events[j].Accepted?
  {
    RunKeepsInv(steps);
  }

  /** A handed-over connection was open when it was handed over, and any retirement that ends closes it. */
  lemma HandedOverIsClosedByRetirement(steps: seq<Step>, i: nat)
    requires i < |Run(steps).events| && Run(steps).events[i].HandedOver?
    ensures var s := Run(steps);
      && s.events[i].wasOpen
      && (s.retirement.Retired? ==> s.events[i].sock < |s.open| && !s.open[s.events[i].sock])
  {
    RunKeepsInv(steps);
  }

  /** The service loop and the stop have no part in retirement. */
  lemma OnlyRetirementRetires(s: State, step: Step)
    ensures !step.RetirementMoves? || s.retirement.Retired? ==> Exec(s, step).retirement == s.retirement
  {
  }

  /** A retirement that is done stays done. */
  lemma {:induction false} RetiredForGood(steps: seq<Step>, more: seq<Step>)
    requires Run(steps).retirement.Retired?
    ensures Run(steps + more).retirement.Retired?
    decreases |more|
  {
    if more == [] {
      assert steps + more == steps;
    } else {
      var front := steps + more[..|more| - 1];
      RetiredForGood(steps, more[..|more| - 1]);
      assert (steps + more)[..|steps + more| - 1] == front;
      OnlyRetirementRetires(Run(front), more[|more| - 1]);
    }
  }

  /** How many moves of its own keep the service loop from releasing the mutex it holds. */
  function MovesLocked(v: Service): nat {
    if v.TrackCheck? || v.OverCheck? then 2 else if ServiceLocked(v) then 1 else 0
  }

  /** The service loop holds the mutex for two moves at most, so retirement is never kept from it. */
  lemma MutexIsReleased(s: State, good: bool)
    requires Inv(s) && s.mutex.ByService?
    ensures MovesLocked(ServiceStep(s, good).service) < MovesLocked(s.service)
    ensures !ServiceStep(s, good).mutex.ByRetirement? && ServiceStep(s, good).retirement == s.retirement
  {
  }

  /**
    The service loop ends only for a connector that is retired: by the dialer's error once the dial is
    cancelled, or otherwise once the endpoint was stopped.
   */
  lemma DialerErrorMeansRetired(steps: seq<Step>)
    requires Run(steps).service.Exited?
    ensures Run(steps).retired
    ensures if Run(steps).service.byDialer then Run(steps).cancelled else Run(steps).stopped
  {
    RunKeepsInv(steps);
  }

  // ---------------------------------------------------------------- a live connector serves

  /** How far a live service loop is from its next dial. */
  function ToDial(v: Service): nat {
    match v
    case Dialing => 0
    case RetryWait => 1
    case DialFailed => 2
    case ClosingOwn(_) => 3
    case Handshaking(_) => 4
    case TrackSet(_) => 5
    case TrackCheck(_) => 6
    case TrackLock(_) => 7
    case Dropping(_) => 1
    case Serving(_) => 2
    case Replying(_, _) => 3
    case OverYes(_) => 3
    case Handling(_) => 4
    case OverCheck(_) => 4
    case OverLock(_) => 5
    case _ => 0
  }

  /** The move that leads there: a handshake or a connection that fails, and a wait that ends. */
  function Onward(v: Service): Step {
    ServiceMoves(!v.Handshaking? && !v.Serving?)
  }

  lemma NearsDial(s: State)
    requires Inv(s) && s.retirement.NotRetired? && !s.service.Dialing?
    ensures var t := Exec(s, Onward(s.service)); t.retirement.NotRetired? && ToDial(t.service) < ToDial(s.service)
  {
  }

  lemma RunSnoc(steps: seq<Step>, last: Step)
    ensures Run(steps + [last]) == Exec(Run(steps), last)
  {
    assert (steps + [last])[..|steps|] == steps;
  }

  /** One move more, from a known state to a known state. */
  lemma Longer(steps: seq<Step>, last: Step, s: State, t: State) returns (longer: seq<Step>)
    requires Run(steps) == s && Exec(s, last) == t
    ensures longer == steps + [last] && Run(longer) == t && steps <= longer
  {
    longer := steps + [last];
    RunSnoc(steps, last);
  }

  lemma {:induction false} ReachesDial(steps: seq<Step>) returns (longer: seq<Step>, s: State)
    requires Run(steps).retirement.NotRetired?
    ensures steps <= longer && s == Run(longer) && s.retirement.NotRetired? && s.service.Dialing?
    decreases ToDial(Run(steps).service)
  {
    longer, s := steps, Run(steps);
    if !s.service.Dialing? {
      RunKeepsInv(steps);
      NearsDial(s);
      longer := Longer(steps, Onward(s.service), s, Exec(s, Onward(s.service)));
      longer, s := ReachesDial(longer);
    }
  }

  /** From a live dial, the socket is opened, recorded and about to be handed over. */
  lemma Connects(s: State)
    requires Inv(s) && s.retirement.NotRetired? && s.service.Dialing?
    ensures var go, k := ServiceMoves(true), |s.open|;
      var t := Exec(Exec(Exec(Exec(Exec(s, go), go), go), go), go);
      t == s.(open := s.open + [true], conn := Some(k), service := OverLock(k))
  {
  }

  /** From there it is handed over, and the first request is accepted. */
  lemma HandsOver(s: State, k: nat)
    requires s.mutex.Free? && !s.retired && s.service == OverLock(k) && IsOpen(s, k)
    ensures var go := ServiceMoves(true);
      var t := Exec(Exec(Exec(Exec(Exec(s, go), go), go), go), go);
      t == s.(service := Replying(k, false), events := s.events + [HandedOver(k, true)] + [Accepted(k)])
  {
  }

  lemma FiveMoves(steps: seq<Step>, s: State, go: Step) returns (longer: seq<Step>, t: State)
    requires Run(steps) == s
    ensures steps <= longer && t == Run(longer) && t == Exec(Exec(Exec(Exec(Exec(s, go), go), go), go), go)
  {
    longer := Longer(steps, go, s, Exec(s, go));
    longer := Longer(longer, go, Exec(s, go), Exec(Exec(s, go), go));
    var s2 := Exec(Exec(s, go), go);
    longer := Longer(longer, go, s2, Exec(s2, go));
    longer := Longer(longer, go, Exec(s2, go), Exec(Exec(s2, go), go));
    t := Exec(Exec(Exec(s2, go), go), go);
    longer := Longer(longer, go, Exec(Exec(s2, go), go), t);
  }

  /**
    From every reachable state of a connector that is not retired, whatever failed before, some continuation
    opens a socket, hands it over while it is open, and accepts a request on it.
   */
  lemma LiveConnectorServes(steps: seq<Step>) returns (longer: seq<Step>, k: nat)
    requires Run(steps).retirement.NotRetired?
    ensures steps <= longer && Run(longer).retirement.NotRetired?
    ensures var s, t := Run(steps), Run(longer);
      && |t.events| >= |s.events| + 2 && k >= |s.open| && IsOpen(t, k)
      && t.events[|t.events| - 2..] == [HandedOver(k, true), Accepted(k)]
  {
    var dialing, s1 := ReachesDial(steps);
    RunKeepsInv(dialing);
    EventsGrow(steps, dialing);
    k := |s1.open|;
    var connected, s2 := ConnectsIn(dialing, s1);
    var s3;
    longer, s3 := HandsOverIn(connected, s2, k);
  }

  lemma ConnectsIn(steps: seq<Step>, s: State) returns (longer: seq<Step>, t: State)
    requires Run(steps) == s && Inv(s) && s.retirement.NotRetired? && s.service.Dialing?
    ensures steps <= longer && t == Run(longer)
    ensures t == s.(open := s.open + [true], conn := Some(|s.open|), service := OverLock(|s.open|))
  {
    Connects(s);
    longer, t := FiveMoves(steps, s, ServiceMoves(true));
  }

  lemma HandsOverIn(steps: seq<Step>, s: State, k: nat) returns (longer: seq<Step>, t: State)
    requires Run(steps) == s && s.mutex.Free? && !s.retired && s.service == OverLock(k) && IsOpen(s, k)
    ensures steps <= longer && t == Run(longer)
    ensures t == s.(service := Replying(k, false), events := s.events + [HandedOver(k, true)] + [Accepted(k)])
  {
    HandsOver(s, k);
    longer, t := FiveMoves(steps, s, ServiceMoves(true));
  }

  lemma OneGrows(s: State, step: Step)
    ensures |Exec(s, step).events| >= |s.events| && |Exec(s, step).open| >= |s.open|
  {
  }

  lemma {:induction false} EventsGrow(steps: seq<Step>, longer: seq<Step>)
    requires steps <= longer
    ensures |Run(longer).events| >= |Run(steps).events| && |Run(longer).open| >= |Run(steps).open|
    decreases |longer|
  {
    if steps != longer {
      EventsGrow(steps, longer[..|longer| - 1]);
      OneGrows(Run(longer[..|longer| - 1]), longer[|longer| - 1]);
    }
  }
}
