/** What a run of the login protocol does, from the actions of the run alone: which callback a login
    is decided by, how many pastes it lets through, and what each Complete is told
    (internal/accounts/login_coordinator.go, oauth_server.go). */
module LoginRuns {
  import opened Common
  import opened RedirectParse
  import opened LoginProtocol

  // ---------------------------------------------------------------- registration

  /** Steps that change a pendingLogin object. */
  predicate ChangesLogin(a: Action) { a.SelectPaste? || a.LockAwait? || a.EnterStep? || a.DeliverStep? }

  predicate Registering(a: Action) { a.RegisterBrowser? || a.RegisterDevice? }

  lemma LoginsKept(w: World, a: Action)
    requires Enabled(w, a) && !ChangesLogin(a) && !Registering(a)
    ensures Step(w, a).shared.logins == w.shared.logins
    ensures Step(w, a).listeners.Keys == w.listeners.Keys
  {}

  predicate SameLogin(pl: PendingLogin, pl': PendingLogin) {
    pl'.provider == pl.provider && pl'.state == pl.state && pl'.flow == pl.flow
  }

  lemma LoginChanged(w: World, a: Action, id: LoginId)
    requires Enabled(w, a) && ChangesLogin(a) && id in w.shared.logins
    ensures Step(w, a).listeners == w.listeners
    ensures id in Step(w, a).shared.logins && SameLogin(w.shared.logins[id], Step(w, a).shared.logins[id])
  {}

  lemma LoginAdded(w: World, a: Action, id: LoginId)
    requires Enabled(w, a) && Registering(a) && id in w.shared.logins
    ensures id in Step(w, a).listeners <==> id in w.listeners
    ensures id in Step(w, a).shared.logins && Step(w, a).shared.logins[id] == w.shared.logins[id]
  {}

  /** A registered login keeps its provider, state, method and listener. */
  lemma LoginFixed(w: World, a: Action, id: LoginId)
    requires Enabled(w, a) && id in w.shared.logins
    ensures var w' := Step(w, a);
      && id in w'.shared.logins && (id in w'.listeners <==> id in w.listeners)
      && SameLogin(w.shared.logins[id], w'.shared.logins[id])
  {
    if ChangesLogin(a) {
      LoginChanged(w, a, id);
    } else if Registering(a) {
      LoginAdded(w, a, id);
    } else {
      LoginsKept(w, a);
    }
  }

  /** The login that `a` registered for `provider`. */
  predicate IsRegistered(w: World, a: Action, provider: Provider)
    requires Registering(a)
  {
    && a.id in w.shared.logins && w.shared.logins[a.id].provider == provider
    && (a.RegisterBrowser? ==> w.shared.logins[a.id].flow == Browser && w.shared.logins[a.id].state == a.state)
    && (a.RegisterDevice? ==> w.shared.logins[a.id].flow == Device)
    && (a.id in w.listeners <==> a.RegisterBrowser? && a.listening)
  }

  lemma Registers(w: World, a: Action)
    requires Inv(w) && Enabled(w, a) && Registering(a)
    ensures IsRegistered(Step(w, a), a, w.calls[a.call].provider)
  {}

  lemma StaysRegistered(w: World, b: Action, a: Action, provider: Provider)
    requires Enabled(w, b) && Registering(a) && IsRegistered(w, a, provider)
    ensures IsRegistered(Step(w, b), a, provider)
  {
    LoginFixed(w, b, a.id);
  }

  /** A login has, at every later time, the provider, state, method and listener it was registered
      with. */
  lemma {:induction false} RegisteredAs(run: seq<Action>, k: nat)
    requires Legal(run) && k < |run| && Registering(run[k])
    ensures Legal(run[..k]) && Enabled(WorldAfter(run[..k]), run[k])
    ensures IsRegistered(WorldAfter(run), run[k], WorldAfter(run[..k]).calls[run[k].call].provider)
  {
    var n := |run| - 1;
    EnabledAt(run, k);
    if k < n {
      RegisteredAs(run[..n], k);
      assert run[..n][..k] == run[..k];
      StaysRegistered(WorldAfter(run[..n]), run[n], run[k], WorldAfter(run[..k]).calls[run[k].call].provider);
    } else {
      assert run[..k] == run[..n];
      InvAfter(run[..n]);
      Registers(WorldAfter(run[..n]), run[n]);
    }
  }

  lemma CallFixed(w: World, a: Action, c: CallId)
    requires Enabled(w, a) && c in w.calls
    ensures c in Step(w, a).calls && Step(w, a).calls[c].provider == w.calls[c].provider
  {}

  lemma CompleteFixed(w: World, a: Action, c: CallId)
    requires Enabled(w, a) && c in w.completes
    ensures c in Step(w, a).completes
    ensures Step(w, a).completes[c].id == w.completes[c].id && Step(w, a).completes[c].text == w.completes[c].text
  {}

  /** Every call works for the provider, and every Complete on the login and the text, it was started
      with. */
  lemma {:induction false} StartedAs(run: seq<Action>, k: nat)
    requires Legal(run) && k < |run|
    ensures var (w, a) := (WorldAfter(run), run[k]);
      && (a.StartLogin? ==> a.call in w.calls && w.calls[a.call].provider == a.provider)
      && (a.StartComplete? ==>
            a.call in w.completes && w.completes[a.call].id == a.id && w.completes[a.call].text == a.text)
  {
    var n := |run| - 1;
    if k < n {
      StartedAs(run[..n], k);
      if run[k].StartLogin? { CallFixed(WorldAfter(run[..n]), run[n], run[k].call); }
      if run[k].StartComplete? { CompleteFixed(WorldAfter(run[..n]), run[n], run[k].call); }
    }
  }

  /** A call leaves its start only by its first critical section. */
  lemma NewCalls(w: World, a: Action, c: CallId)
    requires Enabled(w, a)
    ensures var w' := Step(w, a);
      && (c in w'.calls && !w'.calls[c].pc.Claiming? ==>
            a == ClaimStep(c) || (c in w.calls && !w.calls[c].pc.Claiming?))
      && (c in w'.completes && !w'.completes[c].pc.Starting? ==>
            a == EnterStep(c) || (c in w.completes && !w.completes[c].pc.Starting?))
  {}

  /** No call gets anywhere, and no Complete is answered, but through its first critical section. */
  lemma {:induction false} EveryCallEnters(run: seq<Action>, c: CallId)
    requires Legal(run)
    ensures var w := WorldAfter(run);
      && (c in w.calls && !w.calls[c].pc.Claiming? ==> ClaimStep(c) in run)
      && (c in w.completes && !w.completes[c].pc.Starting? ==> EnterStep(c) in run)
  {
    if run != [] {
      var n := |run| - 1;
      EveryCallEnters(run[..n], c);
      NewCalls(WorldAfter(run[..n]), run[n], c);
      assert run == run[..n] + [run[n]];
    }
  }

  // ---------------------------------------------------------------- the listener

  /** The first request to reach the listener of `id` with that state. */
  function FirstOwn(run: seq<Action>, id: LoginId, state: string): Option<CallbackResult> {
    if run == [] then None
    else NextOwn(FirstOwn(run[..|run| - 1], id, state), run[|run| - 1], id, state)
  }

  function NextOwn(first: Option<CallbackResult>, a: Action, id: LoginId, state: string): Option<CallbackResult> {
    if first.None? && a.Callback? && a.id == id && a.request.state == state then Some(a.request) else first
  }

  predicate FirstOwnAt(run: seq<Action>, k: int, id: LoginId, state: string, d: CallbackResult) {
    && 0 <= k < |run| && run[k] == Callback(id, d) && d.state == state
    && forall j :: 0 <= j < k && run[j].Callback? && run[j].id == id ==> run[j].request.state != state
  }

  lemma {:induction false} FirstOwnPosition(run: seq<Action>, id: LoginId, state: string)
    ensures FirstOwn(run, id, state).Some? ==>
      exists k :: FirstOwnAt(run, k, id, state, FirstOwn(run, id, state).value)
    ensures FirstOwn(run, id, state).None? ==>
      forall j :: 0 <= j < |run| && run[j].Callback? && run[j].id == id ==> run[j].request.state != state
  {
    if run != [] {
      var n := |run| - 1;
      FirstOwnPosition(run[..n], id, state);
      assert forall j :: 0 <= j < n ==> run[..n][j] == run[j];
      if FirstOwn(run[..n], id, state).Some? {
        var k :| FirstOwnAt(run[..n], k, id, state, FirstOwn(run, id, state).value);
        assert FirstOwnAt(run, k, id, state, FirstOwn(run, id, state).value);
      } else if FirstOwn(run, id, state).Some? {
        assert run[n] == Callback(id, run[n].request);
        assert FirstOwnAt(run, n, id, state, FirstOwn(run, id, state).value);
      }
    }
  }

  function Queued(first: Option<CallbackResult>): seq<CallbackResult> {
    if first.Some? then [first.value] else []
  }

  /** While the login waits its listener holds the first request of its own, and what it is woken by
      and decided by is that request. */
  ghost predicate ListenOk(w: World, id: LoginId, first: Option<CallbackResult>) {
    && (if id in w.listeners then w.listeners[id].state != "" else first.None?)
    && (forall c :: c in w.calls && w.calls[c].pc == Waiting(id) && id in w.listeners ==>
          w.listeners[id].queue == Queued(first))
    && (forall c :: c in w.calls && w.calls[c].pc.Woken? && w.calls[c].pc.id == id && w.calls[c].pc.wake.ByListener? ==>
          first == Some(w.calls[c].pc.wake.delivered))
    && (id in w.awaits && w.awaits[id].FromWake? && w.awaits[id].wake.ByListener? ==>
          first == Some(w.awaits[id].wake.delivered))
  }

  /** A request reaches a listener. */
  lemma ListenCallback(w: World, a: Action, id: LoginId, first: Option<CallbackResult>)
    requires Inv(w) && Enabled(w, a) && a.Callback? && id in w.shared.logins && ListenOk(w, id, first)
    ensures ListenOk(Step(w, a), id, NextOwn(first, a, id, w.shared.logins[id].state))
  {
    assert LoginInv(w, id);
  }

  predicate Awaiting(a: Action) { a.SelectListener? || a.SelectPaste? || a.LockAwait? }

  lemma ListenSelect(w: World, c: CallId, id: LoginId, first: Option<CallbackResult>)
    requires Inv(w) && Enabled(w, SelectListener(c)) && id in w.shared.logins && ListenOk(w, id, first)
    ensures ListenOk(Step(w, SelectListener(c)), id, first)
  {
    assert LoginInv(w, id);
  }

  lemma ListenPaste(w: World, c: CallId, id: LoginId, first: Option<CallbackResult>)
    requires Inv(w) && Enabled(w, SelectPaste(c)) && id in w.shared.logins && ListenOk(w, id, first)
    ensures ListenOk(Step(w, SelectPaste(c)), id, first)
  {}

  lemma ListenLock(w: World, c: CallId, id: LoginId, first: Option<CallbackResult>)
    requires Inv(w) && Enabled(w, LockAwait(c)) && id in w.shared.logins && ListenOk(w, id, first)
    ensures ListenOk(Step(w, LockAwait(c)), id, first)
  {}

  lemma ListenAwait(w: World, a: Action, id: LoginId, first: Option<CallbackResult>)
    requires Inv(w) && Enabled(w, a) && Awaiting(a) && id in w.shared.logins && ListenOk(w, id, first)
    ensures ListenOk(Step(w, a), id, first)
  {
    match a
    case SelectListener(c) => ListenSelect(w, c, id, first);
    case SelectPaste(c) => ListenPaste(w, c, id, first);
    case LockAwait(c) => ListenLock(w, c, id, first);
  }

  /** Any other step leaves listeners and results alone, and wakes nobody by a listener. */
  lemma ListenFrame(w: World, a: Action, c: CallId)
    requires Enabled(w, a) && !a.Callback? && !Awaiting(a) && !a.RegisterBrowser?
    ensures var w' := Step(w, a);
      && w'.listeners == w.listeners && w'.awaits == w.awaits
      && (c in w'.calls && (w'.calls[c].pc.Waiting? || (w'.calls[c].pc.Woken? && w'.calls[c].pc.wake.ByListener?)) ==>
            c in w.calls && w.calls[c].pc == w'.calls[c].pc)
  {}

  lemma ListenRegister(w: World, a: Action, id: LoginId, first: Option<CallbackResult>)
    requires Inv(w) && Enabled(w, a) && a.RegisterBrowser? && id in w.shared.logins && ListenOk(w, id, first)
    ensures ListenOk(Step(w, a), id, first)
  {}

  lemma ListenOther(w: World, a: Action, id: LoginId, first: Option<CallbackResult>)
    requires Inv(w) && Enabled(w, a) && !a.Callback? && id in w.shared.logins && ListenOk(w, id, first)
    ensures ListenOk(Step(w, a), id, first)
  {
    if Awaiting(a) {
      ListenAwait(w, a, id, first);
    } else if a.RegisterBrowser? {
      ListenRegister(w, a, id, first);
    } else {
      forall c { ListenFrame(w, a, c); }
    }
  }

  lemma NewLogins(w: World, a: Action, id: LoginId)
    requires Enabled(w, a) && id !in w.shared.logins && id in Step(w, a).shared.logins
    ensures Registering(a) && a.id == id
  {}

  lemma ListenNew(w: World, a: Action)
    requires Inv(w) && Enabled(w, a) && Registering(a)
    ensures ListenOk(Step(w, a), a.id, None)
  {}

  /** No request reaches a listener before it is registered. */
  lemma {:induction false} NothingOwnYet(run: seq<Action>, id: LoginId, state: string)
    requires Legal(run) && id !in WorldAfter(run).shared.logins
    ensures FirstOwn(run, id, state) == None
  {
    if run != [] {
      var n := |run| - 1;
      if id in WorldAfter(run[..n]).shared.logins { LoginFixed(WorldAfter(run[..n]), run[n], id); }
      NothingOwnYet(run[..n], id, state);
      InvAfter(run[..n]);
    }
  }

  lemma {:induction false} ListenAfter(run: seq<Action>, id: LoginId)
    requires Legal(run) && id in WorldAfter(run).shared.logins
    ensures ListenOk(WorldAfter(run), id, FirstOwn(run, id, WorldAfter(run).shared.logins[id].state))
  {
    var n := |run| - 1;
    var w, a := WorldAfter(run[..n]), run[n];
    InvAfter(run[..n]);
    if id in w.shared.logins {
      LoginFixed(w, a, id);
      ListenAfter(run[..n], id);
      var first := FirstOwn(run[..n], id, w.shared.logins[id].state);
      if a.Callback? { ListenCallback(w, a, id, first); } else { ListenOther(w, a, id, first); }
    } else {
      NothingOwnYet(run[..n], id, WorldAfter(run).shared.logins[id].state);
      NewLogins(w, a, id);
      ListenNew(w, a);
    }
  }

  // ---------------------------------------------------------------- what decides a login

  /** What await returns from the listener is the first request that reached it with the login's own
      state, whole and unchanged. */
  lemma ListenerResultIsFirst(run: seq<Action>, id: LoginId, d: CallbackResult)
    requires Legal(run) && id in WorldAfter(run).awaits && WorldAfter(run).awaits[id] == FromWake(ByListener(d))
    ensures id in WorldAfter(run).shared.logins
    ensures exists k :: FirstOwnAt(run, k, id, WorldAfter(run).shared.logins[id].state, d)
  {
    InvAfter(run);
    ListenAfter(run, id);
    FirstOwnPosition(run, id, WorldAfter(run).shared.logins[id].state);
  }

  /** A waiting login can be woken by its listener iff such a request came, and is then woken by the
      first; it can take a paste iff a Complete was accepted for it, and then takes that one's. */
  lemma WaitingLoginTakes(run: seq<Action>, c: CallId, id: LoginId)
    requires Legal(run) && c in WorldAfter(run).calls && WorldAfter(run).calls[c].pc == Waiting(id)
    ensures id in WorldAfter(run).shared.logins
    ensures var (w, d) := (WorldAfter(run), FirstOwn(run, id, WorldAfter(run).shared.logins[id].state));
      && (Enabled(w, SelectListener(c)) <==> d.Some?)
      && (d.Some? ==> c in Step(w, SelectListener(c)).calls
                      && Step(w, SelectListener(c)).calls[c].pc == Woken(id, ByListener(d.value)))
    ensures var w := WorldAfter(run);
      && (Enabled(w, SelectPaste(c)) <==> exists x :: AcceptedFor(w, x, id))
      && (forall x :: AcceptedFor(w, x, id) ==>
            id in Step(w, SelectPaste(c)).awaits
            && Step(w, SelectPaste(c)).awaits[id] == FromPaste(w.completes[x].pc.result.paste))
  {
    var w := WorldAfter(run);
    InvAfter(run);
    assert HasId(w.calls[c].pc);
    ListenAfter(run, id);
    assert LoginInv(w, id);
    forall x | AcceptedFor(w, x, id)
      ensures id in w.acceptor && w.acceptor[id] == Acceptance(x, w.completes[x].pc.result.paste)
    {
      assert CompleteInv(w, x);
    }
    if id in w.acceptor { assert AcceptedFor(w, w.acceptor[id].call, id); }
  }

  /** A login that left its select is decided, at its critical section, by what woke it iff nothing
      decided it before; else by the accepted paste. Cancel and timeout take it out of the map. */
  lemma WokenLoginDecides(w: World, c: CallId, id: LoginId, wake: Wake)
    requires Reachable(w) && c in w.calls && w.calls[c].pc == Woken(id, wake)
    ensures Enabled(w, LockAwait(c))
    ensures var w' := Step(w, LockAwait(c));
      && id in w'.awaits && c in w'.calls && w'.calls[c].pc == LoginPc.Resolved(id)
      && (if Deciders(w, id) == {} then
            w'.awaits[id] == FromWake(wake) && (id in w'.shared.pending <==> id in w.shared.pending && wake.ByListener?)
          else
            w'.awaits[id].FromPaste? && w'.shared.pending == w.shared.pending)
  {
    ReachableInv(w);
    NeverBlocksUnderMutex(w, c);
    assert HasId(w.calls[c].pc);
    assert LoginInv(w, id);
    ExactlyOneDecider(w, id);
  }

  predicate Woke(run: seq<Action>, c: CallId, wake: Wake) {
    match wake
    case ByListener(_) => SelectListener(c) in run
    case ByCancel => SelectCancel(c) in run
    case ByTimeout => SelectTimeout(c) in run
  }

  lemma WokeNow(w: World, a: Action, c: CallId)
    requires Enabled(w, a) && c in Step(w, a).calls && Step(w, a).calls[c].pc.Woken?
    ensures (c in w.calls && w.calls[c].pc == Step(w, a).calls[c].pc) || Woke([a], c, Step(w, a).calls[c].pc.wake)
  {}

  lemma {:induction false} WokenBy(run: seq<Action>, c: CallId)
    requires Legal(run) && c in WorldAfter(run).calls && WorldAfter(run).calls[c].pc.Woken?
    ensures Woke(run, c, WorldAfter(run).calls[c].pc.wake)
  {
    var n := |run| - 1;
    var w := WorldAfter(run[..n]);
    WokeNow(w, run[n], c);
    if c in w.calls && w.calls[c].pc == WorldAfter(run).calls[c].pc { WokenBy(run[..n], c); }
    assert run == run[..n] + [run[n]];
  }

  /** What await returned before, or its call is past its select and takes the mutex. */
  lemma ReturnsNow(w: World, a: Action, id: LoginId)
    requires Inv(w) && Enabled(w, a) && id in Step(w, a).awaits && Step(w, a).awaits[id].FromWake?
    ensures id in Step(w, a).owner
    ensures || (id in w.awaits && w.awaits[id] == Step(w, a).awaits[id] && w.owner[id] == Step(w, a).owner[id])
            || (a.LockAwait? && CanResolve(w, a.call) && w.calls[a.call].pc.wake == Step(w, a).awaits[id].wake
                && Step(w, a).owner[id] == a.call)
  {
    if !Awaiting(a) { AwaitsKept(w, a, id); }
  }

  lemma AwaitsKept(w: World, a: Action, id: LoginId)
    requires OwnerInv(w) && Enabled(w, a) && !Awaiting(a) && id in Step(w, a).awaits
    ensures id in w.awaits && w.awaits[id] == Step(w, a).awaits[id]
    ensures id in Step(w, a).owner && w.owner[id] == Step(w, a).owner[id]
  {}

  /** A login that was decided by its listener, by cancel or by timeout was woken by just that. */
  lemma {:induction false} DecidedBy(run: seq<Action>, id: LoginId)
    requires Legal(run) && id in WorldAfter(run).awaits && WorldAfter(run).awaits[id].FromWake?
    ensures id in WorldAfter(run).owner && Woke(run, WorldAfter(run).owner[id], WorldAfter(run).awaits[id].wake)
  {
    var n := |run| - 1;
    var w, w' := WorldAfter(run[..n]), WorldAfter(run);
    InvAfter(run[..n]);
    ReturnsNow(w, run[n], id);
    if id in w.awaits && w.awaits[id] == w'.awaits[id] && w.owner[id] == w'.owner[id] {
      DecidedBy(run[..n], id);
    } else {
      WokenBy(run[..n], run[n].call);
    }
    assert run == run[..n] + [run[n]];
  }

  /** What Login does with the result, from the result's own fields. */
  lemma LoginVerdict(w: World, id: LoginId)
    requires Reachable(w) && id in w.awaits
    ensures id in w.shared.logins
    ensures var (a, state) := (w.awaits[id], w.shared.logins[id].state);
      var v := AfterAwait(a, state);
      if a == FromWake(ByCancel) || a == FromWake(ByTimeout) then v == Verdict.Failed
      else
        var d := if a.FromPaste? then a.paste else a.wake.delivered;
        && d.state == state
        && (d.errCode != "" ==> v == Denied(SafeErrCode(d.errCode)))
        && (d.errCode == "" && d.code == "" ==> v == NoCode)
        && (d.errCode == "" && d.code != "" ==> v == Exchange(d.code, d.state))
  {
    DeliveredStateIsOwn(w, id);
  }

  // ---------------------------------------------------------------- attempts

  /** A Complete of login `id` gets through to its check. */
  predicate Enters(w: World, a: Action, w': World, id: LoginId) {
    && a.EnterStep? && a.call in w.completes && w.completes[a.call].id == id
    && a.call in w'.completes && w'.completes[a.call].pc.Checking?
  }

  /** How many did, over a run. */
  function Entries(run: seq<Action>, id: LoginId): nat
    requires Legal(run)
  {
    if run == [] then 0
    else
      var n := |run| - 1;
      Entries(run[..n], id) + if Enters(WorldAfter(run[..n]), run[n], WorldAfter(run), id) then 1 else 0
  }

  lemma EntryAttempts(w: World, c: CallId, id: LoginId)
    requires Inv(w) && Enabled(w, EnterStep(c)) && id in w.shared.logins
    ensures id in Step(w, EnterStep(c)).shared.logins
    ensures Step(w, EnterStep(c)).shared.logins[id].attempts ==
      w.shared.logins[id].attempts + if Enters(w, EnterStep(c), Step(w, EnterStep(c)), id) then 1 else 0
  {}

  lemma OtherAttempts(w: World, a: Action, id: LoginId)
    requires Enabled(w, a) && !a.EnterStep? && id in w.shared.logins
    ensures id in Step(w, a).shared.logins
    ensures Step(w, a).shared.logins[id].attempts == w.shared.logins[id].attempts
  {
    if !ChangesLogin(a) && !Registering(a) { LoginsKept(w, a); }
  }

  lemma UnknownEntry(w: World, c: CallId)
    requires Inv(w) && Enabled(w, EnterStep(c)) && w.completes[c].id !in w.shared.logins
    ensures Step(w, EnterStep(c)).shared == w.shared && !Step(w, EnterStep(c)).completes[c].pc.Checking?
  {}

  lemma NoEntryYet(w: World, a: Action, id: LoginId)
    requires Inv(w) && Enabled(w, a) && id !in w.shared.logins
    ensures !Enters(w, a, Step(w, a), id)
    ensures id in Step(w, a).shared.logins ==> Step(w, a).shared.logins[id].attempts == 0
  {
    if a.EnterStep? {
      if w.completes[a.call].id == id { UnknownEntry(w, a.call); }
    } else if !ChangesLogin(a) && !Registering(a) {
      LoginsKept(w, a);
    }
  }

  lemma {:induction false} AttemptsCount(run: seq<Action>, id: LoginId)
    requires Legal(run)
    ensures var logins := WorldAfter(run).shared.logins;
      Entries(run, id) == if id in logins then logins[id].attempts else 0
  {
    if run != [] {
      var n := |run| - 1;
      var w, a := WorldAfter(run[..n]), run[n];
      InvAfter(run[..n]);
      AttemptsCount(run[..n], id);
      if id in w.shared.logins {
        if a.EnterStep? { EntryAttempts(w, a.call, id); } else { OtherAttempts(w, a, id); }
      } else {
        NoEntryYet(w, a, id);
      }
    }
  }

  /** Over any run at most five Completes of a login get through to their check; and what the next
      one is told: unknown if the login is not pending, wrong method for a device login, through iff
      fewer than five got through before it, else attempts exceeded. */
  lemma FiveAttempts(run: seq<Action>, c: CallId)
    requires Legal(run) && c in WorldAfter(run).completes && WorldAfter(run).completes[c].pc.Starting?
    ensures Entries(run, WorldAfter(run).completes[c].id) <= 5
    ensures Enabled(WorldAfter(run), EnterStep(c))
    ensures var (w, id) := (WorldAfter(run), WorldAfter(run).completes[c].id);
      var w' := Step(w, EnterStep(c));
      && c in w'.completes && w'.completes[c].id == id && w'.completes[c].text == w.completes[c].text
      && if id !in w.shared.pending then w'.completes[c].pc == Returned(LoginUnknown)
         else
           && id in w.shared.logins
           && if w.shared.logins[id].flow == Device then w'.completes[c].pc == Returned(WrongMethod)
              else if Entries(run, id) < 5 then w'.completes[c].pc == Checking(w.shared.logins[id].state)
              else w'.completes[c].pc == Returned(AttemptsExceeded)
  {
    var id := WorldAfter(run).completes[c].id;
    InvAfter(run);
    AttemptsCount(run, id);
    if id in WorldAfter(run).shared.logins { assert LoginInv(WorldAfter(run), id); }
  }

  /** The bound holds of every login, whoever asks. */
  lemma AtMostFiveEntries(run: seq<Action>, id: LoginId)
    requires Legal(run)
    ensures Entries(run, id) <= 5
  {
    InvAfter(run);
    AttemptsCount(run, id);
    if id in WorldAfter(run).shared.logins { assert LoginInv(WorldAfter(run), id); }
  }

  // ---------------------------------------------------------------- what a Complete is told

  /** A Complete's place against its own text and its login. */
  predicate AnswerOk(cc: CompleteCall, pl: Option<PendingLogin>) {
    match cc.pc
    case Delivering(p) => ParsePastedRedirect(cc.text) == Parsed(p)
    case Returned(Accepted(p)) => ParsePastedRedirect(cc.text) == Parsed(p)
    case Returned(BadPaste) => ParsePastedRedirect(cc.text) == BadRedirect
    case Returned(StateMismatch) =>
      ParsePastedRedirect(cc.text).Parsed? && pl.Some? && ParsePastedRedirect(cc.text).result.state != pl.value.state
    case Returned(WrongMethod) => pl.Some? && pl.value.flow == Device
    case _ => true
  }

  ghost predicate AnswersInv(w: World) {
    forall c :: c in w.completes ==> AnswerOk(w.completes[c], Lookup(w.shared.logins, w.completes[c].id))
  }

  predicate OfComplete(a: Action) { a.StartComplete? || a.EnterStep? || a.CheckStep? || a.DeliverStep? }

  lemma CompletesKept(w: World, a: Action)
    requires Enabled(w, a) && !OfComplete(a)
    ensures Step(w, a).completes == w.completes
  {}

  lemma OtherCompleteKept(w: World, a: Action, c: CallId)
    requires Enabled(w, a) && OfComplete(a) && a.call != c && c in Step(w, a).completes
    ensures c in w.completes && Step(w, a).completes[c] == w.completes[c]
  {}

  lemma OwnAnswer(w: World, a: Action)
    requires Inv(w) && AnswersInv(w) && Enabled(w, a) && OfComplete(a)
    ensures var w' := Step(w, a);
      a.call in w'.completes && AnswerOk(w'.completes[a.call], Lookup(w'.shared.logins, w'.completes[a.call].id))
  {
    if a.call in w.completes { assert CompleteInv(w, a.call); }
  }

  lemma LookupFixed(w: World, a: Action, cc: CompleteCall)
    requires Enabled(w, a) && AnswerOk(cc, Lookup(w.shared.logins, cc.id))
    ensures AnswerOk(cc, Lookup(Step(w, a).shared.logins, cc.id))
  {
    if cc.id in w.shared.logins { LoginFixed(w, a, cc.id); }
  }

  lemma {:induction false} AnswersAfter(run: seq<Action>)
    requires Legal(run)
    ensures AnswersInv(WorldAfter(run))
  {
    if run != [] {
      var n := |run| - 1;
      var w, a := WorldAfter(run[..n]), run[n];
      AnswersAfter(run[..n]);
      InvAfter(run[..n]);
      var w' := Step(w, a);
      forall c | c in w'.completes ensures AnswerOk(w'.completes[c], Lookup(w'.shared.logins, w'.completes[c].id)) {
        if OfComplete(a) && a.call == c {
          OwnAnswer(w, a);
        } else {
          if OfComplete(a) { OtherCompleteKept(w, a, c); } else { CompletesKept(w, a); }
          LookupFixed(w, a, w.completes[c]);
        }
      }
    }
  }

  /** What a Complete was told speaks of its own text: accepted is exactly what the text parses to,
      with the login's state; bad redirect means it does not parse; mismatch that it carries another
      state; wrong method that the login is a device login. */
  lemma CompleteAnswer(w: World, c: CallId)
    requires Reachable(w) && c in w.completes && w.completes[c].pc.Returned?
    ensures var (r, id) := (w.completes[c].pc.result, w.completes[c].id);
      var parsed := ParsePastedRedirect(w.completes[c].text);
      && (r.Accepted? ==>
            id in w.shared.logins && parsed == Parsed(r.paste) && r.paste.state == w.shared.logins[id].state)
      && (r == BadPaste ==> parsed == BadRedirect)
      && (r == StateMismatch ==>
            id in w.shared.logins && parsed.Parsed? && parsed.result.state != w.shared.logins[id].state)
      && (r == WrongMethod ==> id in w.shared.logins && w.shared.logins[id].flow == Device)
  {
    ReachableInv(w);
    var run :| Legal(run) && WorldAfter(run) == w;
    AnswersAfter(run);
    assert CompleteInv(w, c);
    if w.completes[c].pc.result.Accepted? { assert LoginInv(w, w.completes[c].id); }
  }

  /** The check of a paste: it is refused as bad iff it does not parse, as a mismatch iff it carries
      another state than the login's, and goes on to delivery, as parsed, iff it carries the login's. */
  lemma CheckAnswers(w: World, c: CallId)
    requires Reachable(w) && c in w.completes && w.completes[c].pc.Checking?
    ensures w.completes[c].id in w.shared.logins && Enabled(w, CheckStep(c))
    ensures var (parsed, state) :=
        (ParsePastedRedirect(w.completes[c].text), w.shared.logins[w.completes[c].id].state);
      var pc := Step(w, CheckStep(c)).completes[c].pc;
      && (pc == Returned(BadPaste) <==> parsed == BadRedirect)
      && (pc == Returned(StateMismatch) <==> parsed.Parsed? && parsed.result.state != state)
      && (pc.Delivering? <==> parsed.Parsed? && parsed.result.state == state)
      && (pc.Delivering? ==> pc.paste == parsed.result)
  {
    ReachableInv(w);
    assert CompleteInv(w, c);
  }

  /** The delivery of a paste: accepted iff nothing decided the login before, unknown iff cancel or
      timeout did, already completed iff the listener or another paste did. */
  lemma DeliveryAnswers(w: World, c: CallId)
    requires Reachable(w) && c in w.completes && w.completes[c].pc.Delivering?
    ensures w.completes[c].id in w.shared.logins && Enabled(w, DeliverStep(c))
    ensures var (id, paste) := (w.completes[c].id, w.completes[c].pc.paste);
      var r := Step(w, DeliverStep(c)).completes[c].pc;
      if Deciders(w, id) == {} then r == Returned(Accepted(paste))
      else if id in w.awaits && (w.awaits[id] == FromWake(ByCancel) || w.awaits[id] == FromWake(ByTimeout))
      then r == Returned(LoginUnknown)
      else r == Returned(AlreadyCompleted)
  {
    ReachableInv(w);
    NeverBlocksUnderMutex(w, c);
    assert CompleteInv(w, c);
    assert LoginInv(w, w.completes[c].id);
    ExactlyOneDecider(w, w.completes[c].id);
  }

  // ---------------------------------------------------------------- pending and in flight

  ghost predicate PendingInv(w: World) {
    forall c :: c in w.calls && HasId(w.calls[c].pc) && w.calls[c].pc.id in w.shared.logins ==>
      (w.calls[c].pc.id in w.shared.pending <==> !w.shared.logins[w.calls[c].pc.id].ended)
  }

  /** Steps that end a login, or put it into the map or take it out. */
  predicate MovesPending(a: Action) {
    Registering(a) || a.LockAwait? || a.UnregisterStep?
  }

  lemma PendingMoved(w: World, a: Action)
    requires Inv(w) && PendingInv(w) && Enabled(w, a) && MovesPending(a)
    ensures PendingInv(Step(w, a))
  {}

  lemma IdKept(w: World, a: Action, c: CallId)
    requires Enabled(w, a) && !MovesPending(a) && c in Step(w, a).calls && HasId(Step(w, a).calls[c].pc)
    ensures c in w.calls && HasId(w.calls[c].pc) && w.calls[c].pc.id == Step(w, a).calls[c].pc.id
  {}

  lemma EndedKept(w: World, a: Action, id: LoginId)
    requires Enabled(w, a) && !MovesPending(a) && id in w.shared.logins
    ensures id in Step(w, a).shared.logins && Step(w, a).shared.logins[id].ended == w.shared.logins[id].ended
  {
    if !ChangesLogin(a) { LoginsKept(w, a); }
  }

  lemma PendingKept(w: World, a: Action)
    requires Enabled(w, a) && !MovesPending(a)
    ensures Step(w, a).shared.pending == w.shared.pending
  {}

  lemma PendingFrame(w: World, a: Action, c: CallId)
    requires OwnerInv(w) && PendingInv(w) && Enabled(w, a) && !MovesPending(a)
    requires c in Step(w, a).calls && HasId(Step(w, a).calls[c].pc)
    ensures var (w', id) := (Step(w, a), Step(w, a).calls[c].pc.id);
      id in w'.shared.logins && (id in w'.shared.pending <==> !w'.shared.logins[id].ended)
  {
    IdKept(w, a, c);
    EndedKept(w, a, w.calls[c].pc.id);
    PendingKept(w, a);
  }

  lemma PendingStep(w: World, a: Action)
    requires Inv(w) && PendingInv(w) && Enabled(w, a)
    ensures PendingInv(Step(w, a))
  {
    if MovesPending(a) {
      PendingMoved(w, a);
    } else {
      var w' := Step(w, a);
      forall c | c in w'.calls && HasId(w'.calls[c].pc) && w'.calls[c].pc.id in w'.shared.logins
        ensures w'.calls[c].pc.id in w'.shared.pending <==> !w'.shared.logins[w'.calls[c].pc.id].ended
      {
        PendingFrame(w, a, c);
      }
    }
  }

  lemma {:induction false} PendingAfter(run: seq<Action>)
    requires Legal(run)
    ensures PendingInv(WorldAfter(run))
  {
    if run != [] {
      var n := |run| - 1;
      PendingAfter(run[..n]);
      InvAfter(run[..n]);
      PendingStep(WorldAfter(run[..n]), run[n]);
    }
  }

  predicate UnderWay(w: World, c: CallId, id: LoginId) {
    c in w.calls && HasId(w.calls[c].pc) && w.calls[c].pc.id == id
  }

  /** A login is pending iff its call is between registering and unregistering it and neither cancel
      nor timeout has ended it. */
  lemma PendingIff(w: World, id: LoginId)
    requires Reachable(w)
    ensures id in w.shared.pending <==>
      && (exists c :: UnderWay(w, c, id))
      && !(id in w.awaits && (w.awaits[id] == FromWake(ByCancel) || w.awaits[id] == FromWake(ByTimeout)))
  {
    ReachableInv(w);
    var run :| Legal(run) && WorldAfter(run) == w;
    PendingAfter(run);
    if id in w.shared.pending {
      assert UnderWay(w, w.owner[id], id);
      assert LoginInv(w, id);
    }
    if c :| UnderWay(w, c, id) {
      assert LoginInv(w, id);
    }
  }

  /** A login gets its provider's flag iff no call holds it. */
  lemma ClaimedIff(w: World, c: CallId)
    requires Reachable(w) && c in w.calls && w.calls[c].pc.Claiming?
    ensures Enabled(w, ClaimStep(c))
    ensures var p := w.calls[c].provider;
      Step(w, ClaimStep(c)).calls[c].pc == if exists d :: HoldsFlag(w, d, p) then Finished else Preparing
  {
    InFlightIffHeld(w, w.calls[c].provider);
  }
}
