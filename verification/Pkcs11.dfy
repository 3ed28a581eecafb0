/**
  The PKCS#11 backend: one session with a pinned public key, recovery of a lost
  session, and the latch that stops all logins to a token after a wrong PIN.  The
  module and the token may answer anything at any call.
 */
module Pkcs11 {
  import opened Wrappers

  type Bytes = seq<int>

  // Return values of the Cryptoki calls that the code tells apart.
  const USER_ALREADY_LOGGED_IN := 0x100
  const PIN_INCORRECT := 0xa0
  const PIN_LOCKED := 0xa4
  const UNIDENTIFIED_TOKEN := -1   // a token without a serial number is refused before any login
  const SIGNATURE_SIZE := 64
  const PUBLIC_KEY_SIZE := 32
  const EDWARDS := 0x40
  const EDDSA := 0x1057
  const PARAMS_OID: Bytes := [6, 3, 43, 101, 112]
  const PARAMS_NAME: Bytes := [19, 12, 101, 100, 119, 97, 114, 100, 115, 50, 53, 53, 49, 57]

  predicate PinCode(code: int) { code == PIN_INCORRECT || code == PIN_LOCKED }

  /** The failures a new session can cure. */
  predicate Recoverable(code: int) {
    code == 0xb0 || code == 0xb3 || code == 0x32 || code == 0xe0 || code == 0x101
  }

  datatype Token = Token(slot: nat, name: string)
  datatype TokenResource = TokenResource(manufacturer: string, model: string, serial: string)
  datatype KeyAttributes = KeyAttributes(
    class_: int, keyType: int, sign: bool, sensitive: bool, nonExtractable: bool, params: Bytes, point: Bytes)
  datatype Config = Config(slot: Option<nat>, tokenLabel: string)

  datatype BackendError =
    | BackendClosed
    | PinFailure(code: int)
    | ModuleError(code: int)
    | BadToken
    | BadPinFile
    | BadKey
    | KeyChanged
    | BadSignature
    | NotDeterministic
    | Cancelled

  // ---------------------------------------------------------------- the process-wide PIN latch

  datatype Attempt = Attempt(resource: TokenResource, answer: Option<int>)

  class PinLatch {
    var failures: map<TokenResource, int>
    ghost var attempts: seq<Attempt>     // every login that reached a token

    /** No login reached a token after one that was answered with a wrong or locked PIN. */
    ghost predicate Valid()
      reads this
    {
      && (forall i, j :: 0 <= i < j < |attempts| && attempts[i].resource == attempts[j].resource ==>
            !(attempts[i].answer.Some? && PinCode(attempts[i].answer.value)))
      && (forall i :: 0 <= i < |attempts| && attempts[i].answer.Some? && PinCode(attempts[i].answer.value) ==>
            attempts[i].resource in failures)
      && (forall r :: r in failures ==> PinCode(failures[r]))
    }

    constructor ()
      ensures Valid() && failures == map[] && attempts == []
    {
      failures := map[];
      attempts := [];
    }

    /** Logs in, unless this token has already refused the PIN. */
    method Login(resource: TokenResource) returns (error: Option<int>)
      requires Valid()
      modifies this
      ensures Valid()
      ensures resource in old(failures) ==>
        error == Some(old(failures)[resource]) && attempts == old(attempts) && failures == old(failures)
      ensures resource !in old(failures) ==> attempts == old(attempts) + [Attempt(resource, error)]
      ensures error.Some? && PinCode(error.value) ==> resource in failures
      ensures forall r :: r in old(failures) ==> r in failures && failures[r] == old(failures)[r]
    {
      if resource in failures {
        return Some(failures[resource]);
      }
      error := *;
      attempts := attempts + [Attempt(resource, error)];
      if error.Some? && PinCode(error.value) {
        failures := failures[resource := error.value];
      }
    }
  }

  /** The loaded module; its answers are arbitrary. */
  class Module {
    const latch: PinLatch

    constructor (latch: PinLatch)
      ensures this.latch == latch
    {
      this.latch := latch;
    }

    method Tokens() returns (r: Result<seq<Token>, int>) { r := *; }

    method Mechanisms(slot: nat) returns (r: Result<seq<int>, int>) { r := *; }

    method Open(slot: nat) returns (r: Result<nat, int>) { r := *; }

    method Close(session: nat) returns (error: Option<int>) { error := *; }

    method Find(session: nat, isPrivate: bool) returns (r: Result<seq<nat>, int>) { r := *; }

    method Key(session: nat, object_: nat, isPrivate: bool) returns (r: Result<KeyAttributes, int>) { r := *; }

    method Sign(session: nat, handle: nat, msg: Bytes) returns (r: Result<Bytes, int>) { r := *; }

    method TokenInfo(session: nat) returns (r: Result<TokenResource, int>) { r := *; }

    /** Login of a session: the token must be identifiable, and its login goes through the latch. */
    method Login(session: nat) returns (error: Option<int>)
      requires latch.Valid()
      modifies latch
      ensures latch.Valid() && old(latch.attempts) <= latch.attempts
      ensures error.None? ==>
        |latch.attempts| == |old(latch.attempts)| + 1 && latch.attempts[|old(latch.attempts)|].answer.None?
    {
      var resource := TokenInfo(session);
      if resource.Err? {
        return Some(resource.error);
      }
      if resource.value.serial == "" {
        return Some(UNIDENTIFIED_TOKEN);
      }
      error := latch.Login(resource.value);
    }
  }

  // ---------------------------------------------------------------- what a backend did

  datatype Event =
    | Opened(session: nat)
    | Closed(session: nat)
    | LoggedIn(session: nat)
    | FoundPrivate(session: nat, handle: nat, key: KeyAttributes)
    | SignCalled(session: nat, handle: nat, msg: Bytes, answer: Result<Bytes, int>)

  /** The session in force and the handles of acceptable private keys found in it. */
  datatype Link = NoSession | Live(session: nat, handles: set<nat>)

  ghost function LinkAfter(trace: seq<Event>): Link {
    if trace == [] then NoSession
    else
      var before := LinkAfter(trace[..|trace| - 1]);
      match trace[|trace| - 1]
      case Opened(s) => Live(s, {})
      case Closed(_) => NoSession
      case FoundPrivate(s, h, key) =>
        if before.Live? && before.session == s && AcceptableKey(key, true)
        then Live(s, before.handles + {h}) else before
      case _ => before
  }

  ghost function Opens(trace: seq<Event>): nat {
    if trace == [] then 0 else Opens(trace[..|trace| - 1]) + if trace[|trace| - 1].Opened? then 1 else 0
  }

  ghost function Closes(trace: seq<Event>): nat {
    if trace == [] then 0 else Closes(trace[..|trace| - 1]) + if trace[|trace| - 1].Closed? then 1 else 0
  }

  /** The messages given to the module to sign, in order. */
  ghost function SignedMessages(trace: seq<Event>): seq<Bytes> {
    if trace == [] then []
    else
      var before := SignedMessages(trace[..|trace| - 1]);
      if trace[|trace| - 1].SignCalled? then before + [trace[|trace| - 1].msg] else before
  }

  /** Every sign call named the session in force and the handle of an acceptable key found in that session. */
  ghost predicate HandlesFromSession(trace: seq<Event>) {
    forall i :: 0 <= i < |trace| && trace[i].SignCalled? ==>
      var link := LinkAfter(trace[..i]);
      link.Live? && link.session == trace[i].session && trace[i].handle in link.handles
  }

  /** The effect of one more event on all that is read off a trace. */
  lemma OneMore(trace: seq<Event>, e: Event)
    ensures LinkAfter(trace + [e]) == match e
      case Opened(s) => Live(s, {})
      case Closed(_) => NoSession
      case FoundPrivate(s, h, key) =>
        if LinkAfter(trace).Live? && LinkAfter(trace).session == s && AcceptableKey(key, true)
        then Live(s, LinkAfter(trace).handles + {h}) else LinkAfter(trace)
      case _ => LinkAfter(trace)
    ensures Opens(trace + [e]) == Opens(trace) + if e.Opened? then 1 else 0
    ensures Closes(trace + [e]) == Closes(trace) + if e.Closed? then 1 else 0
    ensures SignedMessages(trace + [e]) == SignedMessages(trace) + if e.SignCalled? then [e.msg] else []
    ensures HandlesFromSession(trace) && (e.SignCalled? ==>
        var link := LinkAfter(trace); link.Live? && link.session == e.session && e.handle in link.handles)
      ==> HandlesFromSession(trace + [e])
  {
    var longer := trace + [e];
    assert longer[..|trace|] == trace;
    forall i | 0 <= i < |trace| ensures longer[..i] == trace[..i] && longer[i] == trace[i] {
    }
  }

  // ---------------------------------------------------------------- what the module answered

  datatype Answer =
    | Listed(tokens: Result<seq<Token>, int>)
    | Offered(slot: nat, mechanisms: Result<seq<int>, int>)
    | OpenedIn(slot: nat, session: Result<nat, int>)
    | LoginAnswered(code: Option<int>)
    | Searched(isPrivate: bool, objects: Result<seq<nat>, int>)
    | ReadKey(isPrivate: bool, key: Result<KeyAttributes, int>)
    | SignAnswered(msg: Bytes, signature: Result<Bytes, int>)

  /** The configuration selects this token: by its slot, or else by its label. */
  predicate Selects(cfg: Config, t: Token) {
    if cfg.slot.Some? then t.slot == cfg.slot.value else t.name == cfg.tokenLabel
  }

  /** The slot of the only token the configuration selects, if it is the only one. */
  function OnlyMatch(cfg: Config, tokens: seq<Token>): Option<nat> {
    var m := Matching(cfg, tokens);
    if |m| == 1 then Some(m[0].slot) else None
  }

  function Matching(cfg: Config, tokens: seq<Token>): seq<Token> {
    if tokens == [] then []
    else
      var front := Matching(cfg, tokens[..|tokens| - 1]);
      if Selects(cfg, tokens[|tokens| - 1]) then front + [tokens[|tokens| - 1]] else front
  }

  /** The public key an acceptable answer gives. */
  predicate GivesPoint(key: KeyAttributes, point: Bytes) {
    AcceptableKey(key, false) && RawPoint(key.point) == point && |point| == PUBLIC_KEY_SIZE
  }

  /** The token refused the PIN. */
  predicate TellsPin(a: Answer) {
    a.LoginAnswered? && a.code.Some? && PinCode(a.code.value)
  }

  predicate LoginOk(code: Option<int>) {
    code.None? || code.value == USER_ALREADY_LOGGED_IN
  }

  /** The answer gives no reason to fail, the public key being pinned or not. */
  predicate Good(cfg: Config, verify: (Bytes, Bytes, Bytes) -> bool, pub: Option<Bytes>, a: Answer) {
    match a
    case Listed(r) => r.Ok? && OnlyMatch(cfg, r.value).Some?
    case Offered(_, r) => r.Ok? && EDDSA in r.value
    case OpenedIn(_, r) => r.Ok?
    case LoginAnswered(code) => LoginOk(code)
    case Searched(_, r) => r.Ok? && |r.value| == 1
    case ReadKey(isPrivate, r) =>
      && r.Ok? && AcceptableKey(r.value, isPrivate)
      && (!isPrivate ==> |RawPoint(r.value.point)| == PUBLIC_KEY_SIZE
                         && (pub.Some? ==> RawPoint(r.value.point) == pub.value))
    case SignAnswered(msg, r) =>
      r.Ok? && |r.value| == SIGNATURE_SIZE && pub.Some? && verify(pub.value, msg, r.value)
  }

  /** The last of the new answers gives a reason to fail. */
  predicate Blamed(cfg: Config, verify: (Bytes, Bytes, Bytes) -> bool, pub: Option<Bytes>,
                   before: seq<Answer>, after: seq<Answer>) {
    |before| < |after| && before <= after && !Good(cfg, verify, pub, after[|after| - 1])
  }

  /** The answers that choose a token: the one match, and it offers EdDSA. */
  predicate Chooses(cfg: Config, a: seq<Answer>, slot: nat) {
    && |a| == 2
    && a[0].Listed? && a[0].tokens.Ok? && OnlyMatch(cfg, a[0].tokens.value) == Some(slot)
    && a[1].Offered? && a[1].slot == slot && a[1].mechanisms.Ok? && EDDSA in a[1].mechanisms.value
  }

  /** The answers that give a key pair. */
  predicate GivesKeys(a: seq<Answer>, point: Bytes) {
    |a| == 4 && GivesPrivate(a[..2]) && GivesPublic(a[2..], point)
  }

  predicate GivesPrivate(a: seq<Answer>) {
    && |a| == 2
    && a[0].Searched? && a[0].isPrivate && a[0].objects.Ok? && |a[0].objects.value| == 1
    && a[1].ReadKey? && a[1].isPrivate && a[1].key.Ok? && AcceptableKey(a[1].key.value, true)
  }

  predicate GivesPublic(a: seq<Answer>, point: Bytes) {
    && |a| == 2
    && a[0].Searched? && !a[0].isPrivate && a[0].objects.Ok? && |a[0].objects.value| == 1
    && a[1].ReadKey? && !a[1].isPrivate && a[1].key.Ok? && GivesPoint(a[1].key.value, point)
  }

  /** The answers that make a session: the chosen token opens it, the login holds, the keys are good. */
  predicate Opening(cfg: Config, a: seq<Answer>, session: nat, point: Bytes) {
    |a| == 8 && a[2].OpenedIn? && Chooses(cfg, a[..2], a[2].slot) && MakesSession(a[2..], a[2].slot, session, point)
  }

  /** The chosen slot opens the session, the login holds, the keys are good. */
  predicate MakesSession(a: seq<Answer>, slot: nat, session: nat, point: Bytes) {
    && |a| == 6
    && a[0] == OpenedIn(slot, Ok(session))
    && a[1].LoginAnswered? && LoginOk(a[1].code)
    && GivesKeys(a[2..], point)
  }

  /** The file gives no PIN. */
  predicate NoPin(pinText: Option<string>) {
    pinText.None? || pinText.value == ""
  }

  // ---------------------------------------------------------------- the backend

  class Backend {
    const cfg: Config
    const module_: Module
    const verify: (Bytes, Bytes, Bytes) -> bool
    var session: nat
    var sessionOpen: bool
    var handle: nat
    var pub: Option<Bytes>
    var pinFailure: Option<int>
    var closed: bool
    ghost var trace: seq<Event>
    ghost var answers: seq<Answer>
    ghost var releases: nat

    /** What holds between any two module calls. */
    ghost predicate Consistent()
      reads this, module_.latch
    {
      && module_.latch.Valid()
      && (if sessionOpen then LinkAfter(trace).Live? && LinkAfter(trace).session == session
          else LinkAfter(trace).NoSession?)
      && Opens(trace) == Closes(trace) + (if sessionOpen then 1 else 0)
      && HandlesFromSession(trace)
      && (closed ==> !sessionOpen)
      && releases == (if closed then 1 else 0)
    }

    /** What holds between any two calls of the backend. */
    ghost predicate Valid()
      reads this, module_.latch
    {
      && Consistent()
      && (sessionOpen ==> pub.Some? && handle in LinkAfter(trace).handles)
      && (pinFailure.Some? ==> !sessionOpen && PinCode(pinFailure.value))
      && Latched()
    }

    /** A wrong or locked PIN that the module ever answered is kept. */
    ghost predicate Latched()
      reads this`answers, this`pinFailure
    {
      forall i :: 0 <= i < |answers| && TellsPin(answers[i]) ==> pinFailure == answers[i].code
    }

    constructor (cfg: Config, module_: Module, verify: (Bytes, Bytes, Bytes) -> bool)
      requires module_.latch.Valid()
      ensures Valid() && !closed && !sessionOpen && pub.None? && pinFailure.None? && trace == [] && answers == []
      ensures this.cfg == cfg && this.module_ == module_ && this.verify == verify
    {
      this.cfg := cfg;
      this.module_ := module_;
      this.verify := verify;
      session := 0;
      sessionOpen := false;
      handle := 0;
      pub := None;
      pinFailure := None;
      closed := false;
      trace := [];
      answers := [];
      releases := 0;
    }

    ghost method Record(e: Event)
      modifies this`trace
      ensures trace == old(trace) + [e]
    {
      trace := trace + [e];
    }

    /** One more answer, which does not refuse the PIN. */
    ghost method Note(a: Answer)
      requires Latched() && !TellsPin(a)
      modifies this`answers
      ensures Latched() && answers == old(answers) + [a]
    {
      answers := answers + [a];
    }

    method DropSession()
      requires Consistent()
      modifies this`sessionOpen, this`handle, this`trace
      ensures Consistent() && !sessionOpen
      ensures SignedMessages(trace) == SignedMessages(old(trace)) && old(trace) <= trace
    {
      if sessionOpen {
        var ignored := module_.Close(session);
        OneMore(trace, Closed(session));
        Record(Closed(session));
        sessionOpen := false;
      }
      handle := 0;
    }

    /** The one present token the configuration selects, if it can sign with EdDSA. */
    method SelectToken() returns (r: Result<nat, BackendError>)
      requires Latched()
      modifies this`answers
      ensures Latched() && old(answers) <= answers
      ensures r.Ok? ==> Chooses(cfg, answers[|old(answers)|..], r.value)
      ensures r.Err? ==> Blamed(cfg, verify, pub, old(answers), answers)
    {
      var tokens := module_.Tokens();
      Note(Listed(tokens));
      if tokens.Err? {
        return Err(ModuleError(tokens.error));
      }
      var matches: seq<Token> := [];
      var i := 0;
      while i < |tokens.value|
        invariant 0 <= i <= |tokens.value|
        invariant matches == Matching(cfg, tokens.value[..i])
      {
        var t := tokens.value[i];
        if (cfg.slot.Some? && t.slot == cfg.slot.value) || (cfg.slot.None? && t.name == cfg.tokenLabel) {
          matches := matches + [t];
        }
        assert tokens.value[..i + 1][..i] == tokens.value[..i];
        i := i + 1;
      }
      assert tokens.value[..i] == tokens.value;
      if |matches| != 1 {
        return Err(BadToken);
      }
      var mechanisms := module_.Mechanisms(matches[0].slot);
      Note(Offered(matches[0].slot, mechanisms));
      if mechanisms.Err? {
        return Err(ModuleError(mechanisms.error));
      }
      if EDDSA !in mechanisms.value {
        return Err(BadToken);
      }
      return Ok(matches[0].slot);
    }

    /**
      Reads the two keys of the open session.  The private handle it returns was found in it, for a
      sensitive, non-extractable signing key; the point is that of an acceptable public key.
     */
    method Keys() returns (r: Result<(nat, Bytes), BackendError>)
      requires Consistent() && sessionOpen && Latched()
      modifies this`trace, this`answers
      ensures Consistent() && old(trace) <= trace && SignedMessages(trace) == SignedMessages(old(trace))
      ensures LinkAfter(old(trace)).handles <= LinkAfter(trace).handles
      ensures Latched() && old(answers) <= answers
      ensures r.Ok? ==> |r.value.1| == PUBLIC_KEY_SIZE && r.value.0 in LinkAfter(trace).handles
      ensures r.Ok? ==> GivesKeys(answers[|old(answers)|..], r.value.1)
      ensures r.Err? ==> Blamed(cfg, verify, pub, old(answers), answers)
    {
      var private_ := ReadPrivate();
      if private_.Err? {
        return Err(private_.error);
      }
      ghost var half := answers;
      var point := ReadPublic();
      if point.Err? {
        return Err(point.error);
      }
      assert answers[|old(answers)|..] == half[|old(answers)|..] + answers[|half|..];
      return Ok((private_.value, point.value));
    }

    /** The private key of the session, by its handle. */
    method ReadPrivate() returns (r: Result<nat, BackendError>)
      requires Consistent() && sessionOpen && Latched()
      modifies this`trace, this`answers
      ensures Consistent() && old(trace) <= trace && SignedMessages(trace) == SignedMessages(old(trace))
      ensures LinkAfter(old(trace)).handles <= LinkAfter(trace).handles
      ensures Latched() && old(answers) <= answers
      ensures r.Ok? ==> r.value in LinkAfter(trace).handles && GivesPrivate(answers[|old(answers)|..])
      ensures r.Err? ==> Blamed(cfg, verify, pub, old(answers), answers)
    {
      var found := FindKey(true);
      if found.Err? {
        return Err(found.error);
      }
      var (private_, key) := found.value;
      OneMore(trace, FoundPrivate(session, private_, key));
      Record(FoundPrivate(session, private_, key));
      return Ok(private_);
    }

    /** The point of the public key of the session. */
    method ReadPublic() returns (r: Result<Bytes, BackendError>)
      requires Latched()
      modifies this`answers
      ensures Latched() && old(answers) <= answers
      ensures r.Ok? ==> |r.value| == PUBLIC_KEY_SIZE && GivesPublic(answers[|old(answers)|..], r.value)
      ensures r.Err? ==> Blamed(cfg, verify, pub, old(answers), answers)
    {
      var found := FindKey(false);
      if found.Err? {
        return Err(found.error);
      }
      var point := RawPoint(found.value.1.point);
      if |point| != PUBLIC_KEY_SIZE {
        return Err(BadKey);
      }
      return Ok(point);
    }

    /** The one object the selector matches, if it is an acceptable key. */
    method FindKey(isPrivate: bool) returns (r: Result<(nat, KeyAttributes), BackendError>)
      requires Latched()
      modifies this`answers
      ensures Latched() && old(answers) <= answers
      ensures r.Ok? ==> AcceptableKey(r.value.1, isPrivate)
      ensures r.Ok? ==>
        answers == old(answers) + [Searched(isPrivate, Ok([r.value.0]))] + [ReadKey(isPrivate, Ok(r.value.1))]
      ensures r.Err? ==> Blamed(cfg, verify, pub, old(answers), answers)
    {
      var objects := module_.Find(session, isPrivate);
      Note(Searched(isPrivate, objects));
      if objects.Err? {
        return Err(ModuleError(objects.error));
      }
      if |objects.value| != 1 {
        return Err(BadKey);
      }
      var key := module_.Key(session, objects.value[0], isPrivate);
      Note(ReadKey(isPrivate, key));
      if key.Err? {
        return Err(ModuleError(key.error));
      }
      if !AcceptableKey(key.value, isPrivate) {
        return Err(BadKey);
      }
      assert objects.value == [objects.value[0]];
      return Ok((objects.value[0], key.value));
    }

    /** A new session with the pinned key; handles never survive a session change. */
    method Reopen(pinText: Option<string>) returns (error: Option<BackendError>)
      requires Consistent() && !closed && (pinFailure.Some? ==> !sessionOpen && PinCode(pinFailure.value))
      requires Latched()
      modifies this`session, this`sessionOpen, this`handle, this`pub, this`pinFailure, this`trace, this`answers
      modifies module_.latch
      ensures old(module_.latch.attempts) <= module_.latch.attempts
      ensures Valid() && old(trace) <= trace && SignedMessages(trace) == SignedMessages(old(trace))
      ensures error.None? <==> sessionOpen
      ensures old(pub).Some? ==> pub == old(pub)
      ensures old(pinFailure).Some? ==>
        && pinFailure == old(pinFailure) && trace == old(trace) && answers == old(answers)
        && error == Some(PinFailure(old(pinFailure).value))
      ensures error.None? ==> pinFailure.None?
      ensures old(answers) <= answers
      ensures error.None? ==> Opening(cfg, answers[|old(answers)|..], session, pub.value)
      ensures error.Some? ==>
        old(pinFailure).Some? || NoPin(pinText) || Blamed(cfg, verify, pub, old(answers), answers)
    {
      if pinFailure.Some? {
        return Some(PinFailure(pinFailure.value));
      }
      DropSession();
      var slot := SelectToken();
      if slot.Err? {
        return Some(slot.error);
      }
      if pinText.None? || pinText.value == "" {
        return Some(BadPinFile);
      }
      ghost var chosen := answers;
      error := OpenAndPin(slot.value);
      if error.None? {
        ghost var gained := answers[|old(answers)|..];
        assert gained[..2] == chosen[|old(answers)|..] && gained[2..] == answers[|chosen|..];
      }
    }

    /** A session in the chosen slot, logged in and with the pinned key. */
    method OpenAndPin(slot: nat) returns (error: Option<BackendError>)
      requires Consistent() && !closed && !sessionOpen && pinFailure.None? && Latched()
      modifies this`session, this`sessionOpen, this`handle, this`pub, this`pinFailure, this`trace, this`answers
      modifies module_.latch
      ensures old(module_.latch.attempts) <= module_.latch.attempts
      ensures Valid() && old(trace) <= trace && SignedMessages(trace) == SignedMessages(old(trace))
      ensures error.None? <==> sessionOpen
      ensures old(pub).Some? ==> pub == old(pub)
      ensures error.None? ==> pinFailure.None?
      ensures old(answers) <= answers
      ensures error.None? ==> MakesSession(answers[|old(answers)|..], slot, session, pub.value)
      ensures error.Some? ==> Blamed(cfg, verify, pub, old(answers), answers)
    {
      error := OpenSession(slot);
      if error.None? {
        ghost var soFar := answers;
        error := LoginAndPin();
        if error.None? {
          ghost var gained := answers[|old(answers)|..];
          assert gained[2..] == answers[|soFar| + 1..];
        }
      }
    }

    method OpenSession(slot: nat) returns (error: Option<BackendError>)
      requires Consistent() && !closed && !sessionOpen && Latched()
      modifies this`session, this`sessionOpen, this`trace, this`answers
      ensures Consistent() && old(trace) <= trace && SignedMessages(trace) == SignedMessages(old(trace))
      ensures error.None? <==> sessionOpen
      ensures Latched() && old(answers) <= answers && |answers| == |old(answers)| + 1
      ensures error.None? ==> answers[|old(answers)|] == OpenedIn(slot, Ok(session))
      ensures error.Some? ==> Blamed(cfg, verify, pub, old(answers), answers)
    {
      var newSession := module_.Open(slot);
      Note(OpenedIn(slot, newSession));
      if newSession.Err? {
        return Some(ModuleError(newSession.error));
      }
      EnterSession(newSession.value);
      return None;
    }

    method EnterSession(newSession: nat)
      requires Consistent() && !closed && !sessionOpen
      modifies this`session, this`sessionOpen, this`trace
      ensures Consistent() && sessionOpen && session == newSession
      ensures old(trace) <= trace && SignedMessages(trace) == SignedMessages(old(trace))
    {
      session := newSession;
      OneMore(trace, Opened(session));
      Record(Opened(session));
      sessionOpen := true;
    }

    /** Logs the new session in and checks its key against the pinned one. */
    method LoginAndPin() returns (error: Option<BackendError>)
      requires Consistent() && !closed && sessionOpen && pinFailure.None? && Latched()
      modifies this`sessionOpen, this`handle, this`pub, this`pinFailure, this`trace, this`answers, module_.latch
      ensures old(module_.latch.attempts) <= module_.latch.attempts
      ensures Valid() && old(trace) <= trace && SignedMessages(trace) == SignedMessages(old(trace))
      ensures error.None? <==> sessionOpen
      ensures old(pub).Some? ==> pub == old(pub)
      ensures error.None? ==> pinFailure.None?
      ensures old(answers) <= answers && |old(answers)| < |answers| && answers[|old(answers)|].LoginAnswered?
      ensures var code := answers[|old(answers)|].code;
        pinFailure == if code.Some? && PinCode(code.value) then code else None
      ensures error.None? ==> LoginOk(answers[|old(answers)|].code)
      ensures error.None? ==> GivesKeys(answers[|old(answers)| + 1..], pub.value)
      ensures error.Some? ==> Blamed(cfg, verify, pub, old(answers), answers)
    {
      error := Login();
      if error.Some? {
        DropSession();
        return;
      }
      ghost var before := answers;
      error := AdoptKeys();
      if error.None? {
        assert answers[|old(answers)| + 1..] == answers[|before|..];
      }
    }

    /** The login of the new session; a refused PIN is latched before anything else happens. */
    method Login() returns (error: Option<BackendError>)
      requires Consistent() && !closed && sessionOpen && pinFailure.None? && Latched()
      modifies this`pinFailure, this`trace, this`answers, module_.latch
      ensures old(module_.latch.attempts) <= module_.latch.attempts
      ensures Consistent() && Latched() && (pinFailure.Some? ==> PinCode(pinFailure.value))
      ensures old(trace) <= trace && SignedMessages(trace) == SignedMessages(old(trace))
      ensures old(answers) <= answers && |answers| == |old(answers)| + 1 && answers[|old(answers)|].LoginAnswered?
      ensures var code := answers[|old(answers)|].code;
        && pinFailure == (if code.Some? && PinCode(code.value) then code else None)
        && (error.None? <==> LoginOk(code))
    {
      var login := module_.Login(session);
      OneMore(trace, LoggedIn(session));
      Record(LoggedIn(session));
      if login.Some? && PinCode(login.value) {
        pinFailure := login;
        answers := answers + [LoginAnswered(login)];
        return Some(PinFailure(login.value));
      }
      Note(LoginAnswered(login));
      return if LoginOk(login) then None else Some(ModuleError(login.value));
    }

    /** Takes the keys of the session, if the public one is the pinned one or the first. */
    method AdoptKeys() returns (error: Option<BackendError>)
      requires Consistent() && !closed && sessionOpen && pinFailure.None? && Latched()
      modifies this`sessionOpen, this`handle, this`pub, this`trace, this`answers
      ensures Valid() && old(trace) <= trace && SignedMessages(trace) == SignedMessages(old(trace))
      ensures error.None? <==> sessionOpen
      ensures old(pub).Some? ==> pub == old(pub)
      ensures old(answers) <= answers
      ensures error.None? ==> GivesKeys(answers[|old(answers)|..], pub.value)
      ensures error.Some? ==> Blamed(cfg, verify, pub, old(answers), answers)
    {
      var keys := Keys();
      if keys.Err? {
        DropSession();
        return Some(keys.error);
      }
      if pub.Some? && pub.value != keys.value.1 {
        DropSession();
        return Some(KeyChanged);
      }
      handle := keys.value.0;
      if pub.None? {
        pub := Some(keys.value.1);
      }
      return None;
    }

    /** One sign call with the current handle. */
    method SignOnce(msg: Bytes) returns (r: Result<Bytes, int>)
      requires Valid() && sessionOpen
      modifies this`trace, this`answers
      ensures Valid() && SignedMessages(trace) == SignedMessages(old(trace)) + [msg]
      ensures trace == old(trace) + [SignCalled(session, handle, msg, r)]
      ensures answers == old(answers) + [SignAnswered(msg, r)]
    {
      r := module_.Sign(session, handle, msg);
      Note(SignAnswered(msg, r));
      OneMore(trace, SignCalled(session, handle, msg, r));
      Record(SignCalled(session, handle, msg, r));
    }

    /** A sign call, repeated once in a new session when the old one was lost. */
    method SignRecovering(msg: Bytes, pinText: Option<string>) returns (r: Result<Bytes, BackendError>)
      requires Valid() && sessionOpen && !closed
      modifies this`session, this`sessionOpen, this`handle, this`pub, this`pinFailure, this`trace, this`answers
      modifies module_.latch
      ensures old(module_.latch.attempts) <= module_.latch.attempts
      ensures Valid() && old(trace) <= trace
      ensures r.Ok? ==> sessionOpen && Ends(old(trace), trace, msg, r.value)
      ensures pub == old(pub)
      ensures SignedMessages(trace) == SignedMessages(old(trace)) + [msg]
        || SignedMessages(trace) == SignedMessages(old(trace)) + [msg, msg]
      ensures old(answers) <= answers && |old(answers)| < |answers|
      ensures r.Ok? ==> answers[|answers| - 1] == SignAnswered(msg, Ok(r.value))
      ensures r.Err? ==> NoPin(pinText) || Blamed(cfg, verify, pub, old(answers), answers)
    {
      var sig := SignOnce(msg);
      if sig.Err? && Recoverable(sig.error) {
        r := SignAgain(msg, pinText);
        assert SignedMessages(old(trace)) + [msg] + [msg] == SignedMessages(old(trace)) + [msg, msg];
        return;
      }
      if sig.Err? {
        DropSession();
        return Err(ModuleError(sig.error));
      }
      return Ok(sig.value);
    }

    /** The second and last attempt, in a new session. */
    method SignAgain(msg: Bytes, pinText: Option<string>) returns (r: Result<Bytes, BackendError>)
      requires Valid() && !closed
      modifies this`session, this`sessionOpen, this`handle, this`pub, this`pinFailure, this`trace, this`answers
      modifies module_.latch
      ensures old(module_.latch.attempts) <= module_.latch.attempts
      ensures Valid() && old(trace) <= trace
      ensures r.Ok? ==> sessionOpen && Ends(old(trace), trace, msg, r.value)
      ensures old(pub).Some? ==> pub == old(pub)
      ensures SignedMessages(trace) == SignedMessages(old(trace))
        || SignedMessages(trace) == SignedMessages(old(trace)) + [msg]
      ensures old(answers) <= answers
      ensures r.Ok? ==> |old(answers)| < |answers| && answers[|answers| - 1] == SignAnswered(msg, Ok(r.value))
      ensures r.Err? ==> old(pinFailure).Some? || NoPin(pinText) || Blamed(cfg, verify, pub, old(answers), answers)
    {
      var failed := Reopen(pinText);
      if failed.Some? {
        return Err(failed.value);
      }
      r := SignOrDrop(msg);
    }

    /** One sign call; the session does not survive its failure. */
    method SignOrDrop(msg: Bytes) returns (r: Result<Bytes, BackendError>)
      requires Valid() && sessionOpen && !closed
      modifies this`sessionOpen, this`handle, this`trace, this`answers
      ensures Valid() && old(trace) <= trace && SignedMessages(trace) == SignedMessages(old(trace)) + [msg]
      ensures old(answers) <= answers && |answers| == |old(answers)| + 1
      ensures r.Ok? ==> answers[|old(answers)|] == SignAnswered(msg, Ok(r.value))
      ensures r.Err? ==> Blamed(cfg, verify, pub, old(answers), answers)
      ensures r.Ok? <==> sessionOpen
      ensures r.Ok? ==> Ends(old(trace), trace, msg, r.value)
    {
      var sig := SignOnce(msg);
      if sig.Err? {
        DropSession();
        return Err(ModuleError(sig.error));
      }
      return Ok(sig.value);
    }

    /**
      Signs a message.  A returned signature has the right size and verifies under the pinned key;
      the module is asked at most twice, both times for this message.
     */
    method Sign(msg: Bytes, pinText: Option<string>) returns (r: Result<Bytes, BackendError>)
      requires Valid()
      modifies this`session, this`sessionOpen, this`handle, this`pub, this`pinFailure, this`trace, this`answers
      modifies module_.latch
      ensures old(module_.latch.attempts) <= module_.latch.attempts
      ensures Valid() && old(trace) <= trace
      ensures r.Ok? ==> sessionOpen && pub.Some? && |r.value| == SIGNATURE_SIZE && verify(pub.value, msg, r.value)
      ensures r.Ok? ==> Ends(old(trace), trace, msg, r.value)
      ensures old(pub).Some? ==> pub == old(pub)
      ensures SignedMessages(trace) == SignedMessages(old(trace))
        || SignedMessages(trace) == SignedMessages(old(trace)) + [msg]
        || SignedMessages(trace) == SignedMessages(old(trace)) + [msg, msg]
      ensures closed || old(pinFailure).Some? ==> r.Err? && trace == old(trace)
      ensures old(pinFailure).Some? ==> pinFailure == old(pinFailure)
      ensures old(answers) <= answers
      ensures r.Err? ==> Excused(old(closed), old(pinFailure), pinText, old(answers))
    {
      if closed {
        return Err(BackendClosed);
      }
      if pinFailure.Some? {
        return Err(PinFailure(pinFailure.value));
      }
      if !sessionOpen {
        var failed := Reopen(pinText);
        if failed.Some? {
          return Err(failed.value);
        }
      }
      var sig := SignRecovering(msg, pinText);
      if sig.Err? {
        return Err(sig.error);
      }
      if |sig.value| != SIGNATURE_SIZE || !verify(pub.value, msg, sig.value) {
        return Err(BadSignature);
      }
      return Ok(sig.value);
    }

    /** The preflight: two signatures of one probe must be the same. */
    method VerifyCanSign(probe: Bytes, pinText: Option<string>) returns (error: Option<BackendError>)
      requires Valid()
      modifies this`session, this`sessionOpen, this`handle, this`pub, this`pinFailure, this`trace, this`answers
      modifies module_.latch
      ensures old(module_.latch.attempts) <= module_.latch.attempts
      ensures Valid() && old(trace) <= trace && old(answers) <= answers
      ensures old(pub).Some? ==> pub == old(pub)
      ensures closed || old(pinFailure).Some? ==> error.Some? && trace == old(trace)
      ensures old(pinFailure).Some? ==> pinFailure == old(pinFailure)
      ensures error.None? ==> sessionOpen && pub.Some?
      ensures error.None? ==> exists i, sig :: |old(trace)| <= i < |trace| - 1 && Proves(i, probe, sig)
      ensures error.Some? ==>
        || error == Some(Cancelled) || Excused(old(closed), old(pinFailure), pinText, old(answers))
        || (error == Some(NotDeterministic) && exists i, a, b :: 0 <= i < |trace| && a != b && Differs(i, probe, a, b))
    {
      var cancelled: bool := *;
      if cancelled {
        return Some(Cancelled);
      }
      var first := Sign(probe, pinText);
      if first.Err? {
        return Some(first.error);
      }
      ghost var i := |trace| - 1;
      cancelled := *;
      if cancelled {
        return Some(Cancelled);
      }
      error := SecondProbe(probe, pinText, first.value, i);
    }

    /** The second probe, and the comparison with the first, which was the trace's entry i. */
    method SecondProbe(probe: Bytes, pinText: Option<string>, first: Bytes, ghost i: nat)
      returns (error: Option<BackendError>)
      requires Valid() && i < |trace| && Signs(trace[i], probe, first)
      modifies this`session, this`sessionOpen, this`handle, this`pub, this`pinFailure, this`trace, this`answers
      modifies module_.latch
      ensures old(module_.latch.attempts) <= module_.latch.attempts
      ensures Valid() && old(trace) <= trace && old(answers) <= answers
      ensures old(pub).Some? ==> pub == old(pub)
      ensures error.None? ==> sessionOpen && pub.Some? && i < |trace| - 1 && Proves(i, probe, first)
      ensures error.Some? ==>
        || error == Some(Cancelled) || Excused(old(closed), old(pinFailure), pinText, old(answers))
        || (error == Some(NotDeterministic) && exists b :: first != b && Differs(i, probe, first, b))
    {
      var second := Sign(probe, pinText);
      if second.Err? {
        return Some(second.error);
      }
      if first != second.value {
        assert Differs(i, probe, first, second.value);
        return Some(NotDeterministic);
      }
      var cancelled: bool := *;
      return if cancelled then Some(Cancelled) else None;
    }

    /** The module answered the probe twice with one signature, and it verifies. */
    ghost predicate Proves(i: nat, probe: Bytes, sig: Bytes)
      reads this
      requires i < |trace|
    {
      Twice(trace, i, probe, sig) && |sig| == SIGNATURE_SIZE && pub.Some? && verify(pub.value, probe, sig)
    }

    /** The module answered the probe with these two signatures. */
    ghost predicate Differs(i: nat, probe: Bytes, a: Bytes, b: Bytes)
      reads this
    {
      i < |trace| && Signs(trace[i], probe, a) && Signs(trace[|trace| - 1], probe, b)
    }

    /** The check made under the claim lock: the open session still holds the pinned key. */
    method ClaimPrecheck(pinText: Option<string>) returns (error: Option<BackendError>)
      requires Valid()
      modifies this`session, this`sessionOpen, this`handle, this`pub, this`pinFailure, this`trace, this`answers
      modifies module_.latch
      ensures old(module_.latch.attempts) <= module_.latch.attempts
      ensures Valid() && old(trace) <= trace && SignedMessages(trace) == SignedMessages(old(trace))
      ensures old(pub).Some? ==> pub == old(pub)
      ensures closed || old(pinFailure).Some? ==> error.Some? && trace == old(trace)
      ensures old(pinFailure).Some? ==> pinFailure == old(pinFailure)
      ensures error.None? ==> sessionOpen && pub.Some?
      ensures old(answers) <= answers
      ensures error.None? ==> |answers| >= 4 && GivesKeys(answers[|answers| - 4..], pub.value)
      ensures error.Some? ==> Excused(old(closed), old(pinFailure), pinText, old(answers))
    {
      if closed {
        return Some(BackendClosed);
      }
      if pinFailure.Some? {
        return Some(PinFailure(pinFailure.value));
      }
      if !sessionOpen {
        var failed := Reopen(pinText);
        if failed.Some? {
          return failed;
        }
      }
      var keys := Keys();
      if keys.Err? {
        return Some(keys.error);
      }
      if pub.value != keys.value.1 {
        return Some(KeyChanged);
      }
      return None;
    }

    /** A failure has a cause: the backend is closed or latched, there is no PIN, or the module's last answer. */
    ghost predicate Excused(wasClosed: bool, failure: Option<int>, pinText: Option<string>, before: seq<Answer>)
      reads this
    {
      wasClosed || failure.Some? || NoPin(pinText) || Blamed(cfg, verify, pub, before, answers)
    }

    /** Closes the session and releases the module, once. */
    method Close()
      requires Valid()
      modifies this`closed, this`sessionOpen, this`trace, this`releases
      ensures Valid() && closed && !sessionOpen && releases == 1
      ensures Opens(trace) == Closes(trace)
      ensures old(closed) || !old(sessionOpen) ==> trace == old(trace)
      ensures SignedMessages(trace) == SignedMessages(old(trace)) && old(trace) <= trace
    {
      if closed {
        return;
      }
      closed := true;
      if sessionOpen {
        var ignored := module_.Close(session);
        OneMore(trace, Closed(session));
        Record(Closed(session));
        sessionOpen := false;
      }
      releases := releases + 1;
    }
  }

  /** The module answered a sign call for the message with this signature. */
  predicate Signs(e: Event, msg: Bytes, sig: Bytes) {
    e.SignCalled? && e.msg == msg && e.answer == Ok(sig)
  }

  /** The last thing that happened is such an answer. */
  predicate Ends(before: seq<Event>, after: seq<Event>, msg: Bytes, sig: Bytes) {
    |before| < |after| && Signs(after[|after| - 1], msg, sig)
  }

  /** Entry i and the last entry are such answers, with one signature. */
  predicate Twice(trace: seq<Event>, i: nat, msg: Bytes, sig: Bytes)
    requires i < |trace|
  {
    Signs(trace[i], msg, sig) && Signs(trace[|trace| - 1], msg, sig)
  }

  predicate AcceptableKey(key: KeyAttributes, isPrivate: bool) {
    && key.class_ == (if isPrivate then 3 else 2)
    && key.keyType == EDWARDS
    && (isPrivate ==> key.sign)
    && (key.params == PARAMS_OID || key.params == PARAMS_NAME)
    && (isPrivate ==> key.sensitive && key.nonExtractable)
  }

  /** The raw point, out of its DER octet string when it is in one. */
  function RawPoint(point: Bytes): Bytes {
    if |point| == 34 && point[0] == 4 && point[1] == 32 then point[2..] else point
  }

  /** Construction: on any failure the backend is closed and the module released before the error is returned. */
  method NewBackend(cfg: Config, module_: Module, verify: (Bytes, Bytes, Bytes) -> bool,
                    configOk: bool, pathOk: bool, pinText: Option<string>)
    returns (b: Backend, error: Option<BackendError>)
    requires module_.latch.Valid()
    modifies module_.latch
    ensures b.Valid() && fresh(b) && b.module_ == module_ && module_.latch.Valid()
    ensures old(module_.latch.attempts) <= module_.latch.attempts
    ensures error.None? ==> b.sessionOpen && b.pub.Some? && !b.closed && b.releases == 0
    ensures error.Some? ==> b.closed && !b.sessionOpen && b.releases == 1
    ensures SignedMessages(b.trace) == []
    ensures b.cfg == cfg && b.verify == verify
    ensures error.None? ==> Opening(cfg, b.answers, b.session, b.pub.value)
    ensures error.Some? ==> !configOk || !pathOk || NoPin(pinText) || Blamed(cfg, verify, b.pub, [], b.answers)
  {
    b := new Backend(cfg, module_, verify);
    if !configOk || !pathOk {
      b.Close();
      return b, Some(BadToken);
    }
    error := b.Reopen(pinText);
    if error.Some? {
      b.Close();
    }
  }

  // ---------------------------------------------------------------- calls

  datatype Call = SignCall(msg: Bytes) | PreflightCall(probe: Bytes) | ClaimCall | CloseCall

  /** Any call: the pinned key stays, and a latched or closed backend does nothing more at all. */
  method Perform(b: Backend, call: Call, pinText: Option<string>)
    requires b.Valid()
    modifies b, b.module_.latch
    ensures b.Valid() && old(b.trace) <= b.trace && old(b.module_.latch.attempts) <= b.module_.latch.attempts
    ensures old(b.pub).Some? ==> b.pub == old(b.pub)
    ensures b.closed <==> old(b.closed) || call.CloseCall?
    ensures old(b.pinFailure).Some? ==> b.pinFailure == old(b.pinFailure)
    ensures old(b.closed) || old(b.pinFailure).Some? ==> b.trace == old(b.trace)
  {
    match call {
      case SignCall(msg) => var r := b.Sign(msg, pinText);
      case PreflightCall(probe) => var e := b.VerifyCanSign(probe, pinText);
      case ClaimCall => var e := b.ClaimPrecheck(pinText);
      case CloseCall => b.Close();
    }
  }
}
