/** The browser and device login protocol (internal/accounts/login_coordinator.go,
    oauth_server.go): every critical section of the coordinator's mutex as a function on
    the guarded state, and a step system that interleaves any number of Login and Complete
    calls, listener callbacks, cancellations and timeouts. */
module LoginProtocol {
  import opened Common
  import opened RedirectParse

  type Provider = int
  type LoginId = int
  type CallId = int

  const MAX_COMPLETE_ATTEMPTS := 5

  datatype Flow = Browser | Device

  /** A pendingLogin object. `paste` is the buffer of its capacity-1 channel. */
  datatype PendingLogin = PendingLogin(
    provider: Provider, state: string, flow: Flow,
    paste: seq<CallbackResult>, attempts: nat, resolved: bool, ended: bool)

  /** What the mutex guards. `logins` holds every pendingLogin object ever registered (a
      Complete may still hold one that left the map); login ids are fresh, so an id names
      its object. `pending` is the domain of the coordinator's map. */
  datatype Shared = Shared(inFlight: set<Provider>, pending: set<LoginId>, logins: map<LoginId, PendingLogin>)

  /** The answers of Complete; Accepted is Go's nil and carries the paste it delivered. */
  datatype CompleteResult =
    | Accepted(paste: CallbackResult)
    | LoginUnknown | WrongMethod | AttemptsExceeded | BadPaste | StateMismatch | AlreadyCompleted

  datatype Enter = Rejected(result: CompleteResult) | Entered(state: string)

  datatype Check = Refused(result: CompleteResult) | Passed(paste: CallbackResult)

  /** How await left its select, when not by the paste channel. */
  datatype Wake = ByListener(delivered: CallbackResult) | ByCancel | ByTimeout

  /** What await returned. */
  datatype Awaited = FromPaste(paste: CallbackResult) | FromWake(wake: Wake)

  /** What Login does with await's result. */
  datatype Verdict = Failed | Denied(code: string) | NoCode | ForeignState | Exchange(code: string, state: string)

  // ---------------------------------------------------------------- critical sections

  function Claim(s: Shared, p: Provider): (Shared, bool) {
    if p in s.inFlight then (s, false) else (s.(inFlight := s.inFlight + {p}), true)
  }

  function Release(s: Shared, p: Provider): Shared { s.(inFlight := s.inFlight - {p}) }

  function Register(s: Shared, id: LoginId, pl: PendingLogin): Shared {
    s.(pending := s.pending + {id}, logins := s.logins[id := pl])
  }

  function Unregister(s: Shared, id: LoginId): Shared { s.(pending := s.pending - {id}) }

  function NewLogin(provider: Provider, state: string, flow: Flow): PendingLogin {
    PendingLogin(provider, state, flow, [], 0, false, false)
  }

  /** Complete's first critical section. */
  function CompleteEnter(s: Shared, id: LoginId): (Shared, Enter)
    requires s.pending <= s.logins.Keys
  {
    if id !in s.pending then (s, Rejected(LoginUnknown))
    else
      var pl := s.logins[id];
      if pl.flow != Browser then (s, Rejected(WrongMethod))
      else if pl.attempts >= MAX_COMPLETE_ATTEMPTS then (s, Rejected(AttemptsExceeded))
      else (s.(logins := s.logins[id := pl.(attempts := pl.attempts + 1)]), Entered(pl.state))
  }

  /** What Complete does between its critical sections: parse, then compare the state. */
  function CheckPaste(text: string, state: string): Check {
    match ParsePastedRedirect(text)
    case BadRedirect => Refused(BadPaste)
    case Parsed(res) => if res.state != state then Refused(StateMismatch) else Passed(res)
  }

  /** Would Complete's second critical section block on the channel, holding the mutex? */
  predicate SendBlocks(pl: PendingLogin) { !pl.ended && !pl.resolved && |pl.paste| >= 1 }

  /** Complete's second critical section. */
  function CompleteDeliver(s: Shared, id: LoginId, res: CallbackResult): (Shared, CompleteResult)
    requires id in s.logins
  {
    var pl := s.logins[id];
    if pl.ended then (s, LoginUnknown)
    else if pl.resolved then (s, AlreadyCompleted)
    else (s.(logins := s.logins[id := pl.(resolved := true, paste := pl.paste + [res])]), Accepted(res))
  }

  /** The paste case of await's select. */
  function ReceivePaste(s: Shared, id: LoginId): (Shared, Awaited)
    requires id in s.logins && s.logins[id].paste != []
  {
    var pl := s.logins[id];
    (s.(logins := s.logins[id := pl.(paste := pl.paste[1..])]), FromPaste(pl.paste[0]))
  }

  /** Would await's critical section block on the channel, holding the mutex? */
  predicate ReceiveBlocks(pl: PendingLogin) { pl.resolved && pl.paste == [] }

  /** await's critical section, after any other case of its select. */
  function AwaitLocked(s: Shared, id: LoginId, wake: Wake): (Shared, Awaited)
    requires id in s.logins && !ReceiveBlocks(s.logins[id])
  {
    var pl := s.logins[id];
    if pl.resolved then ReceivePaste(s, id)
    else if wake.ByListener? then (s.(logins := s.logins[id := pl.(resolved := true)]), FromWake(wake))
    else (Shared(s.inFlight, s.pending - {id}, s.logins[id := pl.(resolved := true, ended := true)]), FromWake(wake))
  }

  /** Login after await: error code, then empty code, then the final state comparison. */
  function AfterAwait(a: Awaited, state: string): Verdict {
    if a.FromWake? && !a.wake.ByListener? then Failed
    else
      var res := if a.FromPaste? then a.paste else a.wake.delivered;
      if res.errCode != "" then Denied(SafeErrCode(res.errCode))
      else if res.code == "" then NoCode
      else if res.state != state then ForeignState
      else Exchange(res.code, res.state)
  }

  // ---------------------------------------------------------------- the coordinator object

  /** The coordinator's guarded fields with its critical sections as methods. */
  class LoginCoordinator {
    var inFlight: set<Provider>
    var pending: set<LoginId>
    var logins: map<LoginId, PendingLogin>

    ghost predicate Valid() reads this { pending <= logins.Keys }

    ghost function Guarded(): Shared reads this { Shared(inFlight, pending, logins) }

    constructor ()
      ensures Valid() && Guarded() == Shared({}, {}, map[])
    {
      inFlight, pending, logins := {}, {}, map[];
    }

    method ClaimProvider(p: Provider) returns (ok: bool)
      requires Valid()
      modifies this
      ensures Valid() && (Guarded(), ok) == Claim(old(Guarded()), p)
    {
      if p in inFlight { return false; }
      inFlight := inFlight + {p};
      return true;
    }

    method ReleaseProvider(p: Provider)
      requires Valid()
      modifies this
      ensures Valid() && Guarded() == Release(old(Guarded()), p)
    {
      inFlight := inFlight - {p};
    }

    method RegisterLogin(id: LoginId, provider: Provider, state: string, flow: Flow)
      requires Valid() && id !in logins
      modifies this
      ensures Valid() && Guarded() == Register(old(Guarded()), id, NewLogin(provider, state, flow))
    {
      logins := logins[id := NewLogin(provider, state, flow)];
      pending := pending + {id};
    }

    method UnregisterLogin(id: LoginId)
      requires Valid()
      modifies this
      ensures Valid() && Guarded() == Unregister(old(Guarded()), id)
    {
      pending := pending - {id};
    }

    method EnterComplete(id: LoginId) returns (r: Enter)
      requires Valid()
      modifies this
      ensures Valid() && (Guarded(), r) == CompleteEnter(old(Guarded()), id)
    {
      if id !in pending { return Rejected(LoginUnknown); }
      var pl := logins[id];
      if pl.flow != Browser { return Rejected(WrongMethod); }
      if pl.attempts >= MAX_COMPLETE_ATTEMPTS { return Rejected(AttemptsExceeded); }
      logins := logins[id := pl.(attempts := pl.attempts + 1)];
      r := Entered(pl.state);
    }

    method DeliverPaste(id: LoginId, res: CallbackResult) returns (r: CompleteResult)
      requires Valid() && id in logins && !SendBlocks(logins[id])
      modifies this
      ensures Valid() && (Guarded(), r) == CompleteDeliver(old(Guarded()), id, res)
    {
      var pl := logins[id];
      if pl.ended { return LoginUnknown; }
      if pl.resolved { return AlreadyCompleted; }
      pl := pl.(resolved := true);
      pl := pl.(paste := pl.paste + [res]);
      logins := logins[id := pl];
      r := Accepted(res);
    }

    method TakePaste(id: LoginId) returns (r: Awaited)
      requires Valid() && id in logins && logins[id].paste != []
      modifies this
      ensures Valid() && (Guarded(), r) == ReceivePaste(old(Guarded()), id)
    {
      var pl := logins[id];
      logins := logins[id := pl.(paste := pl.paste[1..])];
      r := FromPaste(pl.paste[0]);
    }

    method ResolveAwait(id: LoginId, wake: Wake) returns (r: Awaited)
      requires Valid() && id in logins && !ReceiveBlocks(logins[id])
      modifies this
      ensures Valid() && (Guarded(), r) == AwaitLocked(old(Guarded()), id, wake)
    {
      var pl := logins[id];
      if pl.resolved {
        logins := logins[id := pl.(paste := pl.paste[1..])];
        return FromPaste(pl.paste[0]);
      }
      pl := pl.(resolved := true);
      if !wake.ByListener? {
        pl := pl.(ended := true);
        pending := pending - {id};
      }
      logins := logins[id := pl];
      r := FromWake(wake);
    }
  }

  // ---------------------------------------------------------------- the step system

  /** Where a Login call is. */
  datatype LoginPc =
    | Claiming                       // before claim
    | Preparing                      // claim held; keys, id and listener being made
    | Waiting(id: LoginId)           // registered; in await's select
    | Woken(id: LoginId, wake: Wake) // left the select; about to take the mutex
    | Resolved(id: LoginId)          // await returned; exchange and persist run here
    | Polling(id: LoginId)           // a device login: polling, exchange and persist
    | Leaving                        // the deferred unregister ran
    | Finished                       // the deferred release ran (or the claim was refused)

  datatype LoginCall = LoginCall(provider: Provider, pc: LoginPc)

  /** Where a Complete call is. */
  datatype CompletePc =
    | Starting
    | Checking(state: string)          // between the critical sections
    | Delivering(paste: CallbackResult)
    | Returned(result: CompleteResult)

  datatype CompleteCall = CompleteCall(id: LoginId, text: string, pc: CompletePc)

  /** A callback listener: the expected state and its capacity-1 result channel. */
  datatype Listener = Listener(state: string, queue: seq<CallbackResult>)

  /** Which Complete call was accepted, with what paste. */
  datatype Acceptance = Acceptance(call: CallId, paste: CallbackResult)

  /** `owner`, `awaits` and `acceptor` record which call registered an id, what await returned
      for it, and which Complete was accepted for it; no step reads them. */
  datatype World = World(
    shared: Shared, listeners: map<LoginId, Listener>,
    calls: map<CallId, LoginCall>, completes: map<CallId, CompleteCall>,
    owner: map<LoginId, CallId>, awaits: map<LoginId, Awaited>, acceptor: map<LoginId, Acceptance>)

  datatype Action =
    | StartLogin(call: CallId, provider: Provider)
    | ClaimStep(call: CallId)
    | GiveUp(call: CallId)                              // key generation or the bind failed
    | RegisterBrowser(call: CallId, id: LoginId, state: string, listening: bool)
    | RegisterDevice(call: CallId, id: LoginId)
    | Callback(id: LoginId, request: CallbackResult)    // a request reaching the listener
    | SelectPaste(call: CallId)
    | SelectListener(call: CallId)
    | SelectCancel(call: CallId)
    | SelectTimeout(call: CallId)
    | LockAwait(call: CallId)
    | UnregisterStep(call: CallId)
    | ReleaseStep(call: CallId)
    | StartComplete(call: CallId, id: LoginId, text: string)
    | EnterStep(call: CallId)
    | CheckStep(call: CallId)
    | DeliverStep(call: CallId)

  const INITIAL := World(Shared({}, {}, map[]), map[], map[], map[], map[], map[], map[])

  predicate HasId(pc: LoginPc) { pc.Waiting? || pc.Woken? || pc.Resolved? || pc.Polling? }

  /** A call parked in await's select, with its pendingLogin object. */
  predicate InSelect(w: World, c: CallId) {
    c in w.calls && w.calls[c].pc.Waiting? && w.calls[c].pc.id in w.shared.logins
  }

  function Goto(w: World, c: CallId, pc: LoginPc): World
    requires c in w.calls
  {
    w.(calls := w.calls[c := w.calls[c].(pc := pc)])
  }

  function GotoComplete(w: World, c: CallId, pc: CompletePc): World
    requires c in w.completes
  {
    w.(completes := w.completes[c := w.completes[c].(pc := pc)])
  }

  function ClaimProvider(w: World, c: CallId): World
    requires c in w.calls
  {
    var (s, ok) := Claim(w.shared, w.calls[c].provider);
    Goto(w.(shared := s), c, if ok then Preparing else Finished)
  }

  function RegisterCall(w: World, c: CallId, id: LoginId, state: string, flow: Flow, listening: bool): World
    requires c in w.calls
  {
    var pl := NewLogin(w.calls[c].provider, state, flow);
    Goto(w.(shared := Register(w.shared, id, pl),
            listeners := if listening then w.listeners[id := Listener(state, [])] else w.listeners,
            owner := w.owner[id := c]),
         c, if flow.Browser? then Waiting(id) else Polling(id))
  }

  /** callbackServer.handleCallback: only a request carrying the login's state is delivered,
      and only into an empty channel. */
  function HandleCallback(l: Listener, req: CallbackResult): Listener {
    if l.state == "" || req.state != l.state then l
    else if |l.queue| < 1 then l.(queue := l.queue + [req])
    else l
  }

  function TakePaste(w: World, c: CallId): World
    requires InSelect(w, c) && w.shared.logins[w.calls[c].pc.id].paste != []
  {
    var id := w.calls[c].pc.id;
    var (s, out) := ReceivePaste(w.shared, id);
    Goto(w.(shared := s, awaits := w.awaits[id := out]), c, Resolved(id))
  }

  predicate ListenerReady(w: World, c: CallId) {
    && InSelect(w, c)
    && w.calls[c].pc.id in w.listeners && w.listeners[w.calls[c].pc.id].queue != []
  }

  function TakeCallback(w: World, c: CallId): World
    requires ListenerReady(w, c)
  {
    var id := w.calls[c].pc.id;
    var l := w.listeners[id];
    Goto(w.(listeners := w.listeners[id := l.(queue := l.queue[1..])]), c, Woken(id, ByListener(l.queue[0])))
  }

  predicate CanResolve(w: World, c: CallId) {
    && c in w.calls && w.calls[c].pc.Woken?
    && w.calls[c].pc.id in w.shared.logins && !ReceiveBlocks(w.shared.logins[w.calls[c].pc.id])
  }

  function ResolveAwait(w: World, c: CallId): World
    requires CanResolve(w, c)
  {
    var id := w.calls[c].pc.id;
    var (s, out) := AwaitLocked(w.shared, id, w.calls[c].pc.wake);
    Goto(w.(shared := s, awaits := w.awaits[id := out]), c, Resolved(id))
  }

  function UnregisterCall(w: World, c: CallId): World
    requires c in w.calls && HasId(w.calls[c].pc)
  {
    Goto(w.(shared := Unregister(w.shared, w.calls[c].pc.id)), c, Leaving)
  }

  function EnterCall(w: World, c: CallId): World
    requires c in w.completes && w.shared.pending <= w.shared.logins.Keys
  {
    var (s, r) := CompleteEnter(w.shared, w.completes[c].id);
    GotoComplete(w.(shared := s), c, if r.Rejected? then Returned(r.result) else Checking(r.state))
  }

  function CheckCall(w: World, c: CallId): World
    requires c in w.completes && w.completes[c].pc.Checking?
  {
    var r := CheckPaste(w.completes[c].text, w.completes[c].pc.state);
    GotoComplete(w, c, if r.Refused? then Returned(r.result) else Delivering(r.paste))
  }

  predicate CanDeliver(w: World, c: CallId) {
    && c in w.completes && w.completes[c].pc.Delivering?
    && w.completes[c].id in w.shared.logins && !SendBlocks(w.shared.logins[w.completes[c].id])
  }

  function DeliverCall(w: World, c: CallId): World
    requires CanDeliver(w, c)
  {
    var id := w.completes[c].id;
    var (s, r) := CompleteDeliver(w.shared, id, w.completes[c].pc.paste);
    var acceptor := if r.Accepted? then w.acceptor[id := Acceptance(c, r.paste)] else w.acceptor;
    GotoComplete(w.(shared := s, acceptor := acceptor), c, Returned(r))
  }

  /** May `a` happen in `w`? Ids are fresh and states non-empty, as random generation gives
      them; a channel operation done under the mutex is enabled only when it does not block. */
  predicate Enabled(w: World, a: Action) {
    match a
    case StartLogin(c, p) => c !in w.calls
    case ClaimStep(c) => c in w.calls && w.calls[c].pc.Claiming?
    case GiveUp(c) => c in w.calls && w.calls[c].pc.Preparing?
    case RegisterBrowser(c, id, state, listening) =>
      c in w.calls && w.calls[c].pc.Preparing? && id !in w.shared.logins && state != ""
    case RegisterDevice(c, id) => c in w.calls && w.calls[c].pc.Preparing? && id !in w.shared.logins
    case Callback(id, req) => id in w.listeners
    case SelectPaste(c) => InSelect(w, c) && w.shared.logins[w.calls[c].pc.id].paste != []
    case SelectListener(c) => ListenerReady(w, c)
    case SelectCancel(c) => InSelect(w, c)
    case SelectTimeout(c) => InSelect(w, c)
    case LockAwait(c) => CanResolve(w, c)
    case UnregisterStep(c) => c in w.calls && (w.calls[c].pc.Resolved? || w.calls[c].pc.Polling?)
    case ReleaseStep(c) => c in w.calls && w.calls[c].pc.Leaving?
    case StartComplete(c, id, text) => c !in w.completes
    case EnterStep(c) => c in w.completes && w.completes[c].pc.Starting? && w.shared.pending <= w.shared.logins.Keys
    case CheckStep(c) => c in w.completes && w.completes[c].pc.Checking?
    case DeliverStep(c) => CanDeliver(w, c)
  }

  function Step(w: World, a: Action): World
    requires Enabled(w, a)
  {
    match a
    case StartLogin(c, p) => w.(calls := w.calls[c := LoginCall(p, Claiming)])
    case ClaimStep(c) => ClaimProvider(w, c)
    case GiveUp(c) => Goto(w, c, Leaving)
    case RegisterBrowser(c, id, state, listening) => RegisterCall(w, c, id, state, Browser, listening)
    case RegisterDevice(c, id) => RegisterCall(w, c, id, "", Device, false)
    case Callback(id, req) => w.(listeners := w.listeners[id := HandleCallback(w.listeners[id], req)])
    case SelectPaste(c) => TakePaste(w, c)
    case SelectListener(c) => TakeCallback(w, c)
    case SelectCancel(c) => Goto(w, c, Woken(w.calls[c].pc.id, ByCancel))
    case SelectTimeout(c) => Goto(w, c, Woken(w.calls[c].pc.id, ByTimeout))
    case LockAwait(c) => ResolveAwait(w, c)
    case UnregisterStep(c) => UnregisterCall(w, c)
    case ReleaseStep(c) => Goto(w.(shared := Release(w.shared, w.calls[c].provider)), c, Finished)
    case StartComplete(c, id, text) => w.(completes := w.completes[c := CompleteCall(id, text, Starting)])
    case EnterStep(c) => EnterCall(w, c)
    case CheckStep(c) => CheckCall(w, c)
    case DeliverStep(c) => DeliverCall(w, c)
  }

  /** Is `run` a schedule the step system can follow from its initial state? */
  predicate Legal(run: seq<Action>)
    decreases |run|, 0
  {
    run == [] || (var n := |run| - 1; Legal(run[..n]) && Enabled(WorldAfter(run[..n]), run[n]))
  }

  function WorldAfter(run: seq<Action>): World
    requires Legal(run)
    decreases |run|, 1
  {
    if run == [] then INITIAL else (var n := |run| - 1; Step(WorldAfter(run[..n]), run[n]))
  }

  ghost predicate Reachable(w: World) { exists run :: Legal(run) && WorldAfter(run) == w }

  /** The k-th step of a schedule. */
  lemma {:induction false} EnabledAt(run: seq<Action>, k: nat)
    requires Legal(run) && k < |run|
    ensures Legal(run[..k]) && Enabled(WorldAfter(run[..k]), run[k])
    ensures Legal(run[..k + 1]) && WorldAfter(run[..k + 1]) == Step(WorldAfter(run[..k]), run[k])
  {
    var before := run[..|run| - 1];
    if k < |before| {
      EnabledAt(before, k);
      assert before[..k] == run[..k] && before[..k + 1] == run[..k + 1];
    } else {
      assert run[..k + 1] == run;
    }
  }

  /** One step of a schedule, done on the coordinator object. */
  method DriveStep(c: LoginCoordinator, w: World, a: Action)
    requires c.Valid() && c.Guarded() == w.shared && Enabled(w, a)
    modifies c
    ensures c.Valid() && c.Guarded() == Step(w, a).shared
  {
    match a {
      case ClaimStep(call) => var _ := c.ClaimProvider(w.calls[call].provider);
      case RegisterBrowser(call, id, state, _) => c.RegisterLogin(id, w.calls[call].provider, state, Browser);
      case RegisterDevice(call, id) => c.RegisterLogin(id, w.calls[call].provider, "", Device);
      case SelectPaste(call) => var _ := c.TakePaste(w.calls[call].pc.id);
      case LockAwait(call) => var _ := c.ResolveAwait(w.calls[call].pc.id, w.calls[call].pc.wake);
      case UnregisterStep(call) => c.UnregisterLogin(w.calls[call].pc.id);
      case ReleaseStep(call) => c.ReleaseProvider(w.calls[call].provider);
      case EnterStep(call) => var _ := c.EnterComplete(w.completes[call].id);
      case DeliverStep(call) => var _ := c.DeliverPaste(w.completes[call].id, w.completes[call].pc.paste);
      case _ =>
    }
  }

  /** The coordinator object, driven through any schedule, guards the state the step system
      reaches. */
  method Drive(run: seq<Action>) returns (c: LoginCoordinator)
    requires Legal(run)
    ensures c.Valid() && c.Guarded() == WorldAfter(run).shared
  {
    c := new LoginCoordinator();
    var w, i := INITIAL, 0;
    while i < |run|
      invariant 0 <= i <= |run| && Legal(run[..i]) && w == WorldAfter(run[..i])
      invariant fresh(c) && c.Valid() && c.Guarded() == w.shared
    {
      EnabledAt(run, i);
      DriveStep(c, w, run[i]);
      w := Step(w, run[i]);
      i := i + 1;
    }
    assert run[..i] == run;
  }

  // ---------------------------------------------------------------- the invariant

  predicate Holding(l: LoginCall) { !l.pc.Claiming? && !l.pc.Finished? }

  /** Calls that hold a claim hold different providers, all of them in flight. */
  ghost predicate ClaimsInv(w: World) {
    && (forall c :: c in w.calls && Holding(w.calls[c]) ==> w.calls[c].provider in w.shared.inFlight)
    && (forall c, d :: c in w.calls && d in w.calls && c != d && Holding(w.calls[c]) && Holding(w.calls[d])
                       ==> w.calls[c].provider != w.calls[d].provider)
  }

  /** An id belongs to the call that registered it, which is past registration while the id
      is pending. */
  ghost predicate OwnerInv(w: World) {
    && w.shared.pending <= w.shared.logins.Keys
    && w.owner.Keys == w.shared.logins.Keys
    && w.listeners.Keys <= w.shared.logins.Keys
    && w.awaits.Keys <= w.shared.logins.Keys
    && w.acceptor.Keys <= w.shared.logins.Keys
    && (forall c :: c in w.calls && HasId(w.calls[c].pc) ==>
          && w.calls[c].pc.id in w.shared.logins
          && w.owner[w.calls[c].pc.id] == c
          && w.shared.logins[w.calls[c].pc.id].provider == w.calls[c].provider)
    && (forall id :: id in w.shared.pending ==>
          && w.owner[id] in w.calls && HasId(w.calls[w.owner[id]].pc) && w.calls[w.owner[id]].pc.id == id)
  }

  function Lookup<K, V>(m: map<K, V>, k: K): Option<V> { if k in m then Some(m[k]) else None }

  /** Where a login's call is decides whether await already returned for it. */
  predicate PcOk(pc: LoginPc, pl: Option<PendingLogin>, awaited: bool) {
    && (pc.Waiting? || pc.Woken? ==> pl.Some? && pl.value.flow == Browser && !awaited)
    && (pc.Woken? && pc.wake.ByListener? ==> pc.wake.delivered.state == pl.value.state)
    && (pc.Resolved? ==> awaited)
  }

  ghost predicate PcInv(w: World) {
    forall c :: c in w.calls && HasId(w.calls[c].pc) ==>
      PcOk(w.calls[c].pc, Lookup(w.shared.logins, w.calls[c].pc.id), w.calls[c].pc.id in w.awaits)
  }

  /** One pendingLogin object against what happened to it: the accepted paste, what await
      returned, and its listener. */
  predicate LoginOk(
    pl: PendingLogin, isPending: bool, acc: Option<Acceptance>, aw: Option<Awaited>, li: Option<Listener>) {
    && pl.attempts <= MAX_COMPLETE_ATTEMPTS
    && (pl.flow == Device ==> acc.None? && aw.None? && li.None?)
    && (pl.resolved <==> acc.Some? || (aw.Some? && aw.value.FromWake?))
    && (pl.ended <==> aw.Some? && aw.value.FromWake? && !aw.value.wake.ByListener?)
    && (pl.ended ==> !isPending)
    && (match acc
        case None => pl.paste == [] && (aw.Some? ==> aw.value.FromWake?)
        case Some(Acceptance(_, p)) =>
          && p.state == pl.state && (p.code != "" || p.errCode != "")
          && (if aw.Some? then aw.value == FromPaste(p) && pl.paste == [] else pl.paste == [p]))
    && (aw.Some? && aw.value.FromWake? && aw.value.wake.ByListener? ==> aw.value.wake.delivered.state == pl.state)
    && (li.Some? ==>
          && li.value.state == pl.state && |li.value.queue| <= 1
          && (|li.value.queue| == 1 ==> li.value.queue[0].state == pl.state))
  }

  ghost predicate LoginInv(w: World, id: LoginId)
    requires id in w.shared.logins
  {
    LoginOk(w.shared.logins[id], id in w.shared.pending,
            Lookup(w.acceptor, id), Lookup(w.awaits, id), Lookup(w.listeners, id))
  }

  /** One Complete call against the login it names. */
  predicate CompleteOk(c: CallId, pc: CompletePc, pl: Option<PendingLogin>, acc: Option<Acceptance>) {
    match pc
    case Starting => true
    case Checking(state) => pl.Some? && pl.value.flow == Browser && pl.value.state == state
    case Delivering(p) =>
      pl.Some? && pl.value.flow == Browser && pl.value.state == p.state && (p.code != "" || p.errCode != "")
    case Returned(Accepted(p)) => acc == Some(Acceptance(c, p))
    case Returned(AlreadyCompleted) => pl.Some? && pl.value.resolved && !pl.value.ended
    case Returned(_) => true
  }

  ghost predicate CompleteInv(w: World, c: CallId)
    requires c in w.completes
  {
    CompleteOk(c, w.completes[c].pc, Lookup(w.shared.logins, w.completes[c].id), Lookup(w.acceptor, w.completes[c].id))
  }

  /** The recorded acceptance is that call's own answer. */
  ghost predicate AcceptInv(w: World) {
    forall id :: id in w.acceptor ==>
      && w.acceptor[id].call in w.completes
      && w.completes[w.acceptor[id].call].id == id
      && w.completes[w.acceptor[id].call].pc == Returned(Accepted(w.acceptor[id].paste))
  }

  ghost predicate Shape(w: World) { ClaimsInv(w) && OwnerInv(w) }

  ghost predicate Records(w: World) {
    && PcInv(w)
    && AcceptInv(w)
    && (forall id :: id in w.shared.logins ==> LoginInv(w, id))
    && (forall c :: c in w.completes ==> CompleteInv(w, c))
  }

  ghost predicate Inv(w: World) { Shape(w) && Records(w) }

  // Each step keeps the invariant. The steps that change a pendingLogin object are split into
  // the part about claims and owners (Shape) and the part about the objects (Records).

  lemma StartLoginKeeps(w: World, c: CallId, p: Provider)
    requires Inv(w) && c !in w.calls
    ensures Inv(w.(calls := w.calls[c := LoginCall(p, Claiming)]))
  {}

  lemma ClaimKeeps(w: World, c: CallId)
    requires Inv(w) && c in w.calls && w.calls[c].pc.Claiming?
    ensures Inv(ClaimProvider(w, c))
  {}

  lemma GiveUpKeeps(w: World, c: CallId)
    requires Inv(w) && c in w.calls && w.calls[c].pc.Preparing?
    ensures Inv(Goto(w, c, Leaving))
  {}

  lemma CallbackKeeps(w: World, id: LoginId, req: CallbackResult)
    requires Inv(w) && id in w.listeners
    ensures Inv(w.(listeners := w.listeners[id := HandleCallback(w.listeners[id], req)]))
  {}

  lemma WakeKeeps(w: World, c: CallId, wake: Wake)
    requires Inv(w) && InSelect(w, c) && !wake.ByListener?
    ensures Inv(Goto(w, c, Woken(w.calls[c].pc.id, wake)))
  {}

  lemma ReleaseKeeps(w: World, c: CallId)
    requires Inv(w) && c in w.calls && w.calls[c].pc.Leaving?
    ensures Inv(Goto(w.(shared := Release(w.shared, w.calls[c].provider)), c, Finished))
  {}

  lemma StartCompleteKeeps(w: World, c: CallId, id: LoginId, text: string)
    requires Inv(w) && c !in w.completes
    ensures Inv(w.(completes := w.completes[c := CompleteCall(id, text, Starting)]))
  {}

  lemma CheckKeeps(w: World, c: CallId)
    requires Inv(w) && c in w.completes && w.completes[c].pc.Checking?
    ensures Inv(CheckCall(w, c))
  {}

  lemma UnregisterKeeps(w: World, c: CallId)
    requires Inv(w) && c in w.calls && (w.calls[c].pc.Resolved? || w.calls[c].pc.Polling?)
    ensures Inv(UnregisterCall(w, c))
  {}

  lemma RegisterShape(w: World, c: CallId, id: LoginId, state: string, flow: Flow, listening: bool)
    requires Shape(w) && c in w.calls && w.calls[c].pc.Preparing?
    requires id !in w.shared.logins && (listening ==> flow.Browser?)
    ensures Shape(RegisterCall(w, c, id, state, flow, listening))
  {}

  lemma RegisterRecords(w: World, c: CallId, id: LoginId, state: string, flow: Flow, listening: bool)
    requires Inv(w) && c in w.calls && w.calls[c].pc.Preparing?
    requires id !in w.shared.logins && (listening ==> flow.Browser?)
    ensures Records(RegisterCall(w, c, id, state, flow, listening))
  {
    RegisterCalls(w, c, id, state, flow, listening);
    RegisterLogins(w, c, id, state, flow, listening);
  }

  lemma RegisterCalls(w: World, c: CallId, id: LoginId, state: string, flow: Flow, listening: bool)
    requires Inv(w) && c in w.calls && w.calls[c].pc.Preparing?
    requires id !in w.shared.logins && (listening ==> flow.Browser?)
    ensures PcInv(RegisterCall(w, c, id, state, flow, listening))
    ensures AcceptInv(RegisterCall(w, c, id, state, flow, listening))
  {}

  lemma RegisterLogins(w: World, c: CallId, id: LoginId, state: string, flow: Flow, listening: bool)
    requires Inv(w) && c in w.calls && w.calls[c].pc.Preparing?
    requires id !in w.shared.logins && (listening ==> flow.Browser?)
    ensures var w' := RegisterCall(w, c, id, state, flow, listening);
      && (forall x :: x in w'.shared.logins ==> LoginInv(w', x))
      && (forall d :: d in w'.completes ==> CompleteInv(w', d))
  {}

  lemma TakePasteShape(w: World, c: CallId)
    requires Shape(w) && InSelect(w, c) && w.shared.logins[w.calls[c].pc.id].paste != []
    ensures Shape(TakePaste(w, c))
  {}

  lemma TakePasteRecords(w: World, c: CallId)
    requires Inv(w) && InSelect(w, c) && w.shared.logins[w.calls[c].pc.id].paste != []
    ensures Records(TakePaste(w, c))
  {}

  lemma TakeCallbackShape(w: World, c: CallId)
    requires Shape(w) && ListenerReady(w, c)
    ensures Shape(TakeCallback(w, c))
  {}

  lemma TakeCallbackRecords(w: World, c: CallId)
    requires Inv(w) && ListenerReady(w, c)
    ensures Records(TakeCallback(w, c))
  {}

  lemma ResolveShape(w: World, c: CallId)
    requires Shape(w) && CanResolve(w, c)
    ensures Shape(ResolveAwait(w, c))
  {}

  /** await's critical section on one pendingLogin object. */
  lemma ResolveOne(w: World, c: CallId)
    requires Inv(w) && CanResolve(w, c)
    ensures var w', id := ResolveAwait(w, c), w.calls[c].pc.id;
      id in w'.shared.logins && LoginInv(w', id) && w'.shared.logins[id].state == w.shared.logins[id].state
      && w'.shared.logins[id].flow == w.shared.logins[id].flow
      && (w'.shared.logins[id].ended ==> id !in w.acceptor && !w.shared.logins[id].resolved)
      && w'.shared.logins[id].resolved
  {
    assert LoginInv(w, w.calls[c].pc.id);
  }

  lemma ResolveCalls(w: World, c: CallId)
    requires Inv(w) && CanResolve(w, c)
    ensures PcInv(ResolveAwait(w, c)) && AcceptInv(ResolveAwait(w, c))
  {}

  lemma ResolveCompletes(w: World, c: CallId)
    requires Inv(w) && CanResolve(w, c)
    ensures forall d :: d in ResolveAwait(w, c).completes ==> CompleteInv(ResolveAwait(w, c), d)
  {
    ResolveOne(w, c);
    assert forall d :: d in w.completes ==> CompleteInv(w, d);
  }

  lemma ResolveRecords(w: World, c: CallId)
    requires Inv(w) && CanResolve(w, c)
    ensures Records(ResolveAwait(w, c))
  {
    var w', id := ResolveAwait(w, c), w.calls[c].pc.id;
    ResolveOne(w, c);
    ResolveCalls(w, c);
    ResolveCompletes(w, c);
    assert forall x :: x in w'.shared.logins && x != id ==> x in w.shared.logins && LoginInv(w, x) && LoginInv(w', x);
  }

  lemma EnterShape(w: World, c: CallId)
    requires Shape(w) && c in w.completes && w.completes[c].pc.Starting?
    ensures Shape(EnterCall(w, c))
  {}

  lemma EnterRecords(w: World, c: CallId)
    requires Inv(w) && c in w.completes && w.completes[c].pc.Starting?
    ensures Records(EnterCall(w, c))
  {}

  lemma DeliverShape(w: World, c: CallId)
    requires Shape(w) && CanDeliver(w, c)
    ensures Shape(DeliverCall(w, c))
  {}

  lemma DeliverOne(w: World, c: CallId)
    requires Inv(w) && CanDeliver(w, c)
    ensures var w', id := DeliverCall(w, c), w.completes[c].id;
      LoginInv(w', id) && CompleteInv(w', c)
  {
    assert LoginInv(w, w.completes[c].id) && CompleteInv(w, c);
  }

  lemma DeliverRecords(w: World, c: CallId)
    requires Inv(w) && CanDeliver(w, c)
    ensures Records(DeliverCall(w, c))
  {
    assert LoginInv(w, w.completes[c].id);
    DeliverOne(w, c);
  }

  lemma InvStep(w: World, a: Action)
    requires Inv(w) && Enabled(w, a)
    ensures Inv(Step(w, a))
  {
    match a
    case StartLogin(c, p) => StartLoginKeeps(w, c, p);
    case ClaimStep(c) => ClaimKeeps(w, c);
    case GiveUp(c) => GiveUpKeeps(w, c);
    case RegisterBrowser(c, id, state, listening) =>
      RegisterShape(w, c, id, state, Browser, listening);
      RegisterRecords(w, c, id, state, Browser, listening);
    case RegisterDevice(c, id) =>
      RegisterShape(w, c, id, "", Device, false);
      RegisterRecords(w, c, id, "", Device, false);
    case Callback(id, req) => CallbackKeeps(w, id, req);
    case SelectPaste(c) =>
      TakePasteShape(w, c);
      TakePasteRecords(w, c);
    case SelectListener(c) =>
      TakeCallbackShape(w, c);
      TakeCallbackRecords(w, c);
    case SelectCancel(c) => WakeKeeps(w, c, ByCancel);
    case SelectTimeout(c) => WakeKeeps(w, c, ByTimeout);
    case LockAwait(c) =>
      ResolveShape(w, c);
      ResolveRecords(w, c);
    case UnregisterStep(c) => UnregisterKeeps(w, c);
    case ReleaseStep(c) => ReleaseKeeps(w, c);
    case StartComplete(c, id, text) => StartCompleteKeeps(w, c, id, text);
    case EnterStep(c) =>
      EnterShape(w, c);
      EnterRecords(w, c);
    case CheckStep(c) => CheckKeeps(w, c);
    case DeliverStep(c) =>
      DeliverShape(w, c);
      DeliverRecords(w, c);
  }

  lemma {:induction false} InvAfter(run: seq<Action>)
    requires Legal(run)
    ensures Inv(WorldAfter(run))
  {
    if run != [] {
      var n := |run| - 1;
      InvAfter(run[..n]);
      InvStep(WorldAfter(run[..n]), run[n]);
    }
  }

  lemma ReachableInv(w: World)
    requires Reachable(w)
    ensures Inv(w)
  {
    var run :| Legal(run) && WorldAfter(run) == w;
    InvAfter(run);
  }

  // ---------------------------------------------------------------- theorems over every run

  /** Something that can decide a login: an accepted Complete, or await's own branch. */
  datatype Source = PasteOf(call: CallId) | AwaitBranch(wake: Wake)

  predicate AcceptedFor(w: World, c: CallId, id: LoginId) {
    c in w.completes && w.completes[c].id == id && w.completes[c].pc.Returned? && w.completes[c].pc.result.Accepted?
  }

  ghost function Deciders(w: World, id: LoginId): set<Source> {
    (set c | c in w.completes && AcceptedFor(w, c, id) :: PasteOf(c))
    + (if id in w.awaits && w.awaits[id].FromWake? then {AwaitBranch(w.awaits[id].wake)} else {})
  }

  /** Exactly one source decides a resolved login, none an unresolved one, and what await
      returned is what that source delivered. */
  lemma ExactlyOneDecider(w: World, id: LoginId)
    requires Reachable(w) && id in w.shared.logins
    ensures !w.shared.logins[id].resolved ==> Deciders(w, id) == {} && id !in w.awaits
    ensures w.shared.logins[id].resolved ==> exists s :: Deciders(w, id) == {s}
    ensures id in w.awaits && w.awaits[id].FromWake? ==> Deciders(w, id) == {AwaitBranch(w.awaits[id].wake)}
    ensures id in w.awaits && w.awaits[id].FromPaste? ==>
      exists c :: AcceptedFor(w, c, id) && Deciders(w, id) == {PasteOf(c)}
                  && w.completes[c].pc.result.paste == w.awaits[id].paste
  {
    ReachableInv(w);
    assert LoginInv(w, id);
    forall c | c in w.completes && AcceptedFor(w, c, id) ensures id in w.acceptor && w.acceptor[id].call == c {
      assert CompleteInv(w, c);
    }
    if id in w.acceptor {
      var c := w.acceptor[id].call;
      assert AcceptedFor(w, c, id);
      assert Deciders(w, id) == {PasteOf(c)};
    } else if w.shared.logins[id].resolved {
      assert Deciders(w, id) == {AwaitBranch(w.awaits[id].wake)};
    }
  }

  /** At most one Complete is accepted for a login. */
  lemma AtMostOneAccepted(w: World, id: LoginId, c: CallId, d: CallId)
    requires Reachable(w) && AcceptedFor(w, c, id) && AcceptedFor(w, d, id)
    ensures c == d
  {
    ReachableInv(w);
    assert CompleteInv(w, c) && CompleteInv(w, d);
  }

  /** An accepted paste is never discarded: once await returned, it returned that paste. */
  lemma AcceptedPasteWins(w: World, id: LoginId, c: CallId)
    requires Reachable(w) && AcceptedFor(w, c, id)
    ensures id in w.shared.logins
    ensures if id in w.awaits then w.awaits[id] == FromPaste(w.completes[c].pc.result.paste)
            else w.shared.logins[id].paste == [w.completes[c].pc.result.paste]
  {
    ReachableInv(w);
    assert CompleteInv(w, c);
    assert LoginInv(w, id);
  }

  /** Neither channel operation done under the mutex ever blocks. */
  lemma NeverBlocksUnderMutex(w: World, c: CallId)
    requires Reachable(w)
    ensures c in w.completes && w.completes[c].pc.Delivering? ==> Enabled(w, DeliverStep(c))
    ensures c in w.calls && w.calls[c].pc.Woken? ==> Enabled(w, LockAwait(c))
  {
    ReachableInv(w);
    if c in w.completes && w.completes[c].pc.Delivering? {
      assert CompleteInv(w, c);
      assert LoginInv(w, w.completes[c].id);
    }
    if c in w.calls && w.calls[c].pc.Woken? {
      assert HasId(w.calls[c].pc);
      assert LoginInv(w, w.calls[c].pc.id);
    }
  }

  lemma OwnerHolds(w: World, id: LoginId)
    requires Shape(w) && id in w.shared.pending
    ensures var c := w.owner[id];
      && c in w.calls && Holding(w.calls[c]) && HasId(w.calls[c].pc) && w.calls[c].pc.id == id
      && w.calls[c].provider == w.shared.logins[id].provider
      && w.calls[c].provider in w.shared.inFlight
  {
    var c := w.owner[id];
    assert c in w.calls && HasId(w.calls[c].pc);
  }

  /** At most one login per provider is pending, and its provider is in flight. */
  lemma OnePendingPerProvider(w: World, id: LoginId, other: LoginId)
    requires Reachable(w) && id in w.shared.pending
    ensures id in w.shared.logins && w.shared.logins[id].provider in w.shared.inFlight
    ensures (other in w.shared.pending && other in w.shared.logins
             && w.shared.logins[other].provider == w.shared.logins[id].provider) ==> other == id
  {
    ReachableInv(w);
    OwnerHolds(w, id);
    if other in w.shared.pending {
      OwnerHolds(w, other);
    }
  }

  /** The call that holds a provider's in-flight flag. */
  predicate HoldsFlag(w: World, c: CallId, p: Provider) {
    c in w.calls && Holding(w.calls[c]) && w.calls[c].provider == p
  }

  ghost predicate FlagsInv(w: World) {
    forall p :: p in w.shared.inFlight ==> exists c :: HoldsFlag(w, c, p)
  }

  lemma FlagKept(w: World, a: Action, c: CallId, p: Provider)
    requires Enabled(w, a) && HoldsFlag(w, c, p) && p in Step(w, a).shared.inFlight
    ensures HoldsFlag(Step(w, a), c, p)
  {}

  lemma FlagTaken(w: World, a: Action, p: Provider)
    requires Enabled(w, a) && p in Step(w, a).shared.inFlight && p !in w.shared.inFlight
    ensures a.ClaimStep? && HoldsFlag(Step(w, a), a.call, p)
  {}

  lemma {:induction false} FlagsAfter(run: seq<Action>)
    requires Legal(run)
    ensures FlagsInv(WorldAfter(run))
  {
    if run != [] {
      var n := |run| - 1;
      var w, a := WorldAfter(run[..n]), run[n];
      FlagsAfter(run[..n]);
      forall p | p in Step(w, a).shared.inFlight ensures exists c :: HoldsFlag(Step(w, a), c, p) {
        if p in w.shared.inFlight {
          var c :| HoldsFlag(w, c, p);
          FlagKept(w, a, c, p);
        } else {
          FlagTaken(w, a, p);
        }
      }
    }
  }

  /** A provider is in flight iff exactly one call holds it, so every exit of a login frees it:
      once no call is under way, no provider is in flight. */
  lemma InFlightIffHeld(w: World, p: Provider)
    requires Reachable(w)
    ensures p in w.shared.inFlight <==> exists c :: HoldsFlag(w, c, p)
    ensures forall c, d :: HoldsFlag(w, c, p) && HoldsFlag(w, d, p) ==> c == d
    ensures (forall c :: c in w.calls ==> w.calls[c].pc.Claiming? || w.calls[c].pc.Finished?) ==>
      p !in w.shared.inFlight
  {
    ReachableInv(w);
    var run :| Legal(run) && WorldAfter(run) == w;
    FlagsAfter(run);
  }

  /** No login is ever stuck: a call that has not finished has a step of its own. */
  lemma LoginMoves(w: World, c: CallId) returns (a: Action)
    requires Reachable(w) && c in w.calls && !w.calls[c].pc.Finished?
    ensures Enabled(w, a) && !a.StartLogin? && !a.Callback? && !a.StartComplete? && a.call == c
    ensures !a.EnterStep? && !a.CheckStep? && !a.DeliverStep?
  {
    ReachableInv(w);
    NeverBlocksUnderMutex(w, c);
    match w.calls[c].pc
    case Claiming => a := ClaimStep(c);
    case Preparing => a := GiveUp(c);
    case Waiting(id) => a := SelectTimeout(c);
    case Woken(_, _) => a := LockAwait(c);
    case Resolved(_) => a := UnregisterStep(c);
    case Polling(_) => a := UnregisterStep(c);
    case Leaving => a := ReleaseStep(c);
  }

  lemma AttemptsBounded(w: World, id: LoginId)
    requires Reachable(w) && id in w.shared.logins
    ensures w.shared.logins[id].attempts <= MAX_COMPLETE_ATTEMPTS
  {
    ReachableInv(w);
    assert LoginInv(w, id);
  }

  /** A login that ended by cancel or timeout is out of `pending`; no Complete for it was or
      will be accepted or told "already completed", and whatever critical section a Complete
      still has ahead of it answers login_unknown. */
  lemma EndedLoginIsUnknown(w: World, id: LoginId, c: CallId)
    requires Reachable(w) && id in w.shared.logins && w.shared.logins[id].ended
    requires c in w.completes && w.completes[c].id == id
    ensures id !in w.shared.pending
    ensures w.completes[c].pc.Returned? ==>
      !w.completes[c].pc.result.Accepted? && !w.completes[c].pc.result.AlreadyCompleted?
    ensures w.completes[c].pc.Starting? ==>
      Enabled(w, EnterStep(c)) && Step(w, EnterStep(c)).completes[c].pc == Returned(LoginUnknown)
    ensures w.completes[c].pc.Delivering? ==>
      Enabled(w, DeliverStep(c)) && Step(w, DeliverStep(c)).completes[c].pc == Returned(LoginUnknown)
  {
    ReachableInv(w);
    assert LoginInv(w, id) && CompleteInv(w, c);
    NeverBlocksUnderMutex(w, c);
  }

  /** Ended stays ended, so the lemma above speaks of every later Complete too. */
  lemma EndedStays(w: World, a: Action, id: LoginId)
    requires Enabled(w, a) && id in w.shared.logins && w.shared.logins[id].ended
    ensures id in Step(w, a).shared.logins && Step(w, a).shared.logins[id].ended
  {}

  /** `w'` differs from `w` in the place of Complete calls and in the attempt count of login `id`
      at most. */
  ghost predicate OnlyAttempts(w: World, w': World, id: LoginId) {
    && w'.(shared := w.shared, completes := w.completes) == w
    && w'.shared.inFlight == w.shared.inFlight && w'.shared.pending == w.shared.pending
    && w'.shared.logins.Keys == w.shared.logins.Keys
    && (forall x :: x in w.shared.logins && x != id ==> w'.shared.logins[x] == w.shared.logins[x])
    && (id in w.shared.logins ==>
          w'.shared.logins[id].(attempts := w.shared.logins[id].attempts) == w.shared.logins[id])
  }

  lemma EnterChangesOnlyAttempts(w: World, c: CallId)
    requires Enabled(w, EnterStep(c))
    ensures OnlyAttempts(w, Step(w, EnterStep(c)), w.completes[c].id)
  {}

  lemma RefusalChangesNothing(w: World, c: CallId)
    requires Enabled(w, DeliverStep(c)) && !AcceptedFor(Step(w, DeliverStep(c)), c, w.completes[c].id)
    ensures Step(w, DeliverStep(c)).shared == w.shared && OnlyAttempts(w, Step(w, DeliverStep(c)), w.completes[c].id)
  {}

  /** The first section and the check of a Complete, and so a paste that is malformed or has
      another login's state, change nothing but that login's attempt count; the check and a
      refused delivery do not change that either. */
  lemma RejectedPasteChangesOnlyAttempts(w: World, a: Action)
    requires Enabled(w, a)
    requires || a.EnterStep? || a.CheckStep?
             || (a.DeliverStep? && !AcceptedFor(Step(w, a), a.call, w.completes[a.call].id))
    ensures OnlyAttempts(w, Step(w, a), w.completes[a.call].id)
    ensures !a.EnterStep? ==> Step(w, a).shared == w.shared
  {
    if a.EnterStep? {
      EnterChangesOnlyAttempts(w, a.call);
    } else if a.DeliverStep? {
      RefusalChangesNothing(w, a.call);
    }
  }

  /** Every result that leaves await without error carries the login's own state, so Login's
      final comparison never fails; an empty code can only come from the listener. */
  lemma DeliveredStateIsOwn(w: World, id: LoginId)
    requires Reachable(w) && id in w.awaits
    ensures id in w.shared.logins
    ensures w.awaits[id].FromPaste? ==> w.awaits[id].paste.state == w.shared.logins[id].state
    ensures w.awaits[id].FromWake? && w.awaits[id].wake.ByListener? ==>
      w.awaits[id].wake.delivered.state == w.shared.logins[id].state
    ensures AfterAwait(w.awaits[id], w.shared.logins[id].state) != ForeignState
    ensures AfterAwait(w.awaits[id], w.shared.logins[id].state) == NoCode ==>
      w.awaits[id].FromWake? && w.awaits[id].wake.ByListener?
  {
    ReachableInv(w);
    assert LoginInv(w, id);
  }

  /** The last clause above is tight: a run in which the listener does deliver an empty code. */
  lemma ListenerCanDeliverNoCode(state: string)
    requires state != ""
    ensures exists w, id :: Reachable(w) && id in w.awaits && id in w.shared.logins
                            && AfterAwait(w.awaits[id], w.shared.logins[id].state) == NoCode
  {
    var run := NoCodeRun(state);
    Extend(run, LockAwait(1));
    var w := WorldAfter(run + [LockAwait(1)]);
    assert Reachable(w) && 7 in w.awaits && 7 in w.shared.logins;
  }

  lemma NoCodeRun(state: string) returns (run: seq<Action>)
    requires state != ""
    ensures Legal(run)
    ensures 1 in WorldAfter(run).calls
    ensures WorldAfter(run).calls[1].pc == Woken(7, ByListener(CallbackResult("", state, "")))
    ensures 7 in WorldAfter(run).shared.logins && WorldAfter(run).shared.logins[7] == NewLogin(0, state, Browser)
  {
    run := [];
    Extend(run, StartLogin(1, 0));
    run := run + [StartLogin(1, 0)];
    Extend(run, ClaimStep(1));
    run := run + [ClaimStep(1)];
    Extend(run, RegisterBrowser(1, 7, state, true));
    run := run + [RegisterBrowser(1, 7, state, true)];
    Extend(run, Callback(7, CallbackResult("", state, "")));
    run := run + [Callback(7, CallbackResult("", state, ""))];
    Extend(run, SelectListener(1));
    run := run + [SelectListener(1)];
  }

  lemma Extend(run: seq<Action>, a: Action)
    requires Legal(run) && Enabled(WorldAfter(run), a)
    ensures Legal(run + [a]) && WorldAfter(run + [a]) == Step(WorldAfter(run), a)
  {
    assert (run + [a])[..|run|] == run;
  }
}
