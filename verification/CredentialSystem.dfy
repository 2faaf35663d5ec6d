/** Logins, re-logins, refreshes, credential replacements, additions and deletions running
    concurrently against the account rows (internal/accounts/registry.go, refresh.go and
    persist in login_coordinator.go). One step is one store call, one lock operation or one
    answer of the vendor. */
module CredentialSystem {
  import opened Common
  import opened AccountStore

  type ThreadId = int

  /** Where a call is. L: Login from its claim on; F: EnsureFresh; R: ReplaceCredential. */
  datatype Thread =
    | LStart(provider: Provider, account: AccountId)
    | LClaimed(provider: Provider, account: AccountId)
    | LExchanged(provider: Provider, account: AccountId, ex: Exchanged)
    | LTarget(provider: Provider, account: AccountId, ex: Exchanged, targetIdentity: Identity)
    | LPlanned(provider: Provider, ex: Exchanged, plan: Plan)
    | LLocked(provider: Provider, ex: Exchanged, id: AccountId, mode: Mode)
    | LWritten(provider: Provider, id: AccountId)
    | LLeaving(provider: Provider)
    | FStart(id: AccountId)
    | FLocked(id: AccountId)
    | FCalling(id: AccountId, base: Credential)                       // the refresher runs
    | FRefreshed(id: AccountId, base: Credential, renewed: Credential)  // its answer is not stored yet
    | FUnlocking(id: AccountId)
    | RStart(id: AccountId, kind: Kind, cred: Credential)
    | RLocked(id: AccountId, kind: Kind, cred: Credential)
    | RUnlocking(id: AccountId)
    | Done

  /** `claims` and `slots` are the in-flight flags and the filled one-slot lock channels; the
      thread each maps to is recorded for the proofs and read by no step. `unique` says whether
      the store enforces the partial unique index. */
  datatype World = World(
    store: Store, unique: bool, now: int,
    claims: map<Provider, ThreadId>, slots: map<AccountId, ThreadId>, threads: map<ThreadId, Thread>)

  datatype Action =
    | Tick(now: int)
    | AddRow(provider: Provider, kind: Kind, cred: Credential)
    | Delete(id: AccountId)
    | SetCooldown(id: AccountId, on: bool)
    | Spawn(t: ThreadId, thread: Thread)
    | ClaimFlag(t: ThreadId)
    | Abandon(t: ThreadId)
    | Exchange(t: ThreadId, ex: Exchanged)
    | ReadTarget(t: ThreadId)
    | ReadOwner(t: ThreadId, owner: Option<AccountId>)
    | LockSwap(t: ThreadId)
    | WriteSwap(t: ThreadId)
    | UnlockSwap(t: ThreadId)
    | WriteInsert(t: ThreadId)
    | ReleaseFlag(t: ThreadId)
    | LockFresh(t: ThreadId)
    | GiveUpLock(t: ThreadId)
    | ReadFresh(t: ThreadId)
    | RefreshOk(t: ThreadId, tok: TokenResponse)
    | RefreshFail(t: ThreadId)
    | StoreFresh(t: ThreadId)
    | UnlockFresh(t: ThreadId)
    | LockReplace(t: ThreadId)
    | WriteReplace(t: ThreadId)
    | UnlockReplace(t: ThreadId)

  function Goto(w: World, t: ThreadId, th: Thread): World { w.(threads := w.threads[t := th]) }

  // ---------------------------------------------------------------- steps of a login

  function ClaimFlagStep(w: World, t: ThreadId): World
    requires t in w.threads && w.threads[t].LStart?
  {
    var LStart(p, account) := w.threads[t];
    if p in w.claims then Goto(w, t, Done)
    else Goto(w.(claims := w.claims[p := t]), t, LClaimed(p, account))
  }

  function ReadTargetStep(w: World, t: ThreadId): World
    requires t in w.threads && w.threads[t].LExchanged?
  {
    var LExchanged(p, account, ex) := w.threads[t];
    if account == NO_ACCOUNT then Goto(w, t, LTarget(p, account, ex, NO_IDENTITY))
    else if ReloginTarget(w.store, p, account).Some? then Goto(w, t, LLeaving(p))
    else Goto(w, t, LTarget(p, account, ex, w.store.rows[account].identity))
  }

  function ReadOwnerStep(w: World, t: ThreadId, owner: Option<AccountId>): World
    requires t in w.threads && w.threads[t].LTarget?
  {
    var LTarget(p, account, ex, targetIdentity) := w.threads[t];
    var plan := Decide(account, targetIdentity, ex.identity, owner);
    Goto(w, t, if plan.Refuse? then LLeaving(p) else LPlanned(p, ex, plan))
  }

  predicate CanLockSwap(w: World, t: ThreadId) {
    t in w.threads && w.threads[t].LPlanned? && w.threads[t].plan.Swap? && w.threads[t].plan.id !in w.slots
  }

  function LockSwapStep(w: World, t: ThreadId): World
    requires CanLockSwap(w, t)
  {
    var LPlanned(p, ex, plan) := w.threads[t];
    Goto(w.(slots := w.slots[plan.id := t]), t, LLocked(p, ex, plan.id, plan.mode))
  }

  /** Does the store answer ErrIdentityInUse? */
  predicate Conflict(w: World, p: Provider, i: Identity, except: AccountId) {
    w.unique && TakenByOther(w.store, p, i, except)
  }

  function WriteSwapStep(w: World, t: ThreadId): World
    requires t in w.threads && w.threads[t].LLocked?
  {
    var LLocked(p, ex, id, mode) := w.threads[t];
    if id in w.store.rows && mode.Adopt? && Conflict(w, w.store.rows[id].provider, mode.identity, id)
    then Goto(w, t, LWritten(p, id))
    else Goto(w.(store := ReplaceRow(w.store, id, OAuthKind, ex.cred, mode)), t, LWritten(p, id))
  }

  function WriteInsertStep(w: World, t: ThreadId): World
    requires t in w.threads && w.threads[t].LPlanned?
  {
    var LPlanned(p, ex, _) := w.threads[t];
    if Conflict(w, p, ex.identity, w.store.nextId) then Goto(w, t, LLeaving(p))
    else Goto(w.(store := InsertRow(w.store, Row(p, OAuthKind, ex.cred, ex.identity, false))), t, LLeaving(p))
  }

  // ---------------------------------------------------------------- steps of a refresh

  /** EnsureFresh's read under the lock: gone, not OAuth or still fresh ends it. */
  function ReadFreshStep(w: World, t: ThreadId): World
    requires t in w.threads && w.threads[t].FLocked?
  {
    var id := w.threads[t].id;
    if id in w.store.rows && w.store.rows[id].kind == OAuthKind && w.store.rows[id].cred.OAuth?
       && Due(w.store.rows[id].cred, w.now)
    then Goto(w, t, FCalling(id, w.store.rows[id].cred))
    else Goto(w, t, FUnlocking(id))
  }

  predicate CanAnswer(w: World, t: ThreadId) {
    t in w.threads && w.threads[t].FCalling? && w.threads[t].base.OAuth?
  }

  function RefreshOkStep(w: World, t: ThreadId, tok: TokenResponse): World
    requires CanAnswer(w, t)
  {
    var FCalling(id, base) := w.threads[t];
    Goto(w, t, FRefreshed(id, base, RefreshedCredential(base, tok)))
  }

  function StoreFreshStep(w: World, t: ThreadId): World
    requires t in w.threads && w.threads[t].FRefreshed?
  {
    var FRefreshed(id, _, renewed) := w.threads[t];
    Goto(w.(store := UpdateRow(w.store, id, renewed)), t, FUnlocking(id))
  }

  function WriteReplaceStep(w: World, t: ThreadId): World
    requires t in w.threads && w.threads[t].RLocked?
  {
    var RLocked(id, kind, cred) := w.threads[t];
    Goto(w.(store := ReplaceRow(w.store, id, kind, cred, Clear)), t, RUnlocking(id))
  }

  // ---------------------------------------------------------------- the step system

  function LockStep(w: World, t: ThreadId, id: AccountId, next: Thread): World {
    Goto(w.(slots := w.slots[id := t]), t, next)
  }

  /** The receive that empties the slot. */
  function UnlockStep(w: World, t: ThreadId, id: AccountId, next: Thread): World {
    Goto(w.(slots := w.slots - {id}), t, next)
  }

  /** A credential parsed from user input is of the kind it is stored under; it names no vendor
      account the daemon could check. */
  predicate Fits(kind: Kind, cred: Credential) { kind == OAuthKind <==> cred.OAuth? }

  predicate Enabled(w: World, a: Action) {
    match a
    case Tick(now) => w.now <= now
    case AddRow(p, kind, cred) => Fits(kind, cred)
    case Delete(id) => true
    case SetCooldown(id, on) => id in w.store.rows
    case Spawn(t, th) =>
      t !in w.threads && (th.LStart? || th.FStart? || (th.RStart? && Fits(th.kind, th.cred)))
    case ClaimFlag(t) => t in w.threads && w.threads[t].LStart?
    case Abandon(t) => t in w.threads && w.threads[t].LClaimed?
    case Exchange(t, ex) => t in w.threads && w.threads[t].LClaimed? && ExchangeOk(ex)
    case ReadTarget(t) => t in w.threads && w.threads[t].LExchanged?
    case ReadOwner(t, owner) =>
      t in w.threads && w.threads[t].LTarget?
      && MayFind(w.store, w.threads[t].provider, w.threads[t].ex.identity, owner)
    case LockSwap(t) => CanLockSwap(w, t)
    case WriteSwap(t) => t in w.threads && w.threads[t].LLocked?
    case UnlockSwap(t) => t in w.threads && w.threads[t].LWritten? && w.threads[t].id in w.slots
    case WriteInsert(t) => t in w.threads && w.threads[t].LPlanned? && w.threads[t].plan.Insert?
    case ReleaseFlag(t) => t in w.threads && w.threads[t].LLeaving?
    case LockFresh(t) => t in w.threads && w.threads[t].FStart? && w.threads[t].id !in w.slots
    case GiveUpLock(t) => t in w.threads && w.threads[t].FStart?
    case ReadFresh(t) => t in w.threads && w.threads[t].FLocked?
    case RefreshOk(t, tok) => CanAnswer(w, t)
    case RefreshFail(t) => t in w.threads && w.threads[t].FCalling?
    case StoreFresh(t) => t in w.threads && w.threads[t].FRefreshed?
    case UnlockFresh(t) => t in w.threads && w.threads[t].FUnlocking? && w.threads[t].id in w.slots
    case LockReplace(t) => t in w.threads && w.threads[t].RStart? && w.threads[t].id !in w.slots
    case WriteReplace(t) => t in w.threads && w.threads[t].RLocked?
    case UnlockReplace(t) => t in w.threads && w.threads[t].RUnlocking? && w.threads[t].id in w.slots
  }

  function Step(w: World, a: Action): World
    requires Enabled(w, a)
  {
    match a
    case Tick(now) => w.(now := now)
    case AddRow(p, kind, cred) => w.(store := InsertRow(w.store, Row(p, kind, cred, NO_IDENTITY, false)))
    case Delete(id) => w.(store := DeleteRow(w.store, id))
    case SetCooldown(id, on) =>
      w.(store := w.store.(rows := w.store.rows[id := w.store.rows[id].(cooldown := on)]))
    case Spawn(t, th) => Goto(w, t, th)
    case ClaimFlag(t) => ClaimFlagStep(w, t)
    case Abandon(t) => Goto(w, t, LLeaving(w.threads[t].provider))
    case Exchange(t, ex) => Goto(w, t, LExchanged(w.threads[t].provider, w.threads[t].account, ex))
    case ReadTarget(t) => ReadTargetStep(w, t)
    case ReadOwner(t, owner) => ReadOwnerStep(w, t, owner)
    case LockSwap(t) => LockSwapStep(w, t)
    case WriteSwap(t) => WriteSwapStep(w, t)
    case UnlockSwap(t) => UnlockStep(w, t, w.threads[t].id, LLeaving(w.threads[t].provider))
    case WriteInsert(t) => WriteInsertStep(w, t)
    case ReleaseFlag(t) => Goto(w.(claims := w.claims - {w.threads[t].provider}), t, Done)
    case LockFresh(t) => LockStep(w, t, w.threads[t].id, FLocked(w.threads[t].id))
    case GiveUpLock(t) => Goto(w, t, Done)
    case ReadFresh(t) => ReadFreshStep(w, t)
    case RefreshOk(t, tok) => RefreshOkStep(w, t, tok)
    case RefreshFail(t) => Goto(w, t, FUnlocking(w.threads[t].id))
    case StoreFresh(t) => StoreFreshStep(w, t)
    case UnlockFresh(t) => UnlockStep(w, t, w.threads[t].id, Done)
    case LockReplace(t) =>
      var RStart(id, kind, cred) := w.threads[t];
      LockStep(w, t, id, RLocked(id, kind, cred))
    case WriteReplace(t) => WriteReplaceStep(w, t)
    case UnlockReplace(t) => UnlockStep(w, t, w.threads[t].id, Done)
  }

  predicate Legal(w: World, run: seq<Action>)
    decreases |run|
  {
    run == [] || (Enabled(w, run[0]) && Legal(Step(w, run[0]), run[1..]))
  }

  function After(w: World, run: seq<Action>): World
    requires Legal(w, run)
    decreases |run|
  {
    if run == [] then w else After(Step(w, run[0]), run[1..])
  }

  /** The world before the k-th step of a run. */
  function WorldAt(w: World, run: seq<Action>, k: nat): World
    requires Legal(w, run) && k <= |run|
    decreases k
  {
    if k == 0 then w else WorldAt(Step(w, run[0]), run[1..], k - 1)
  }

  lemma {:induction false} EnabledAt(w: World, run: seq<Action>, k: nat)
    requires Legal(w, run) && k < |run|
    ensures Enabled(WorldAt(w, run, k), run[k])
    ensures WorldAt(w, run, k + 1) == Step(WorldAt(w, run, k), run[k])
    decreases k
  {
    if k > 0 {
      EnabledAt(Step(w, run[0]), run[1..], k - 1);
    } else {
      assert WorldAt(Step(w, run[0]), run[1..], 0) == Step(w, run[0]);
    }
  }

  function Initial(unique: bool): World {
    World(Store(map[], 1), unique, 0, map[], map[], map[])
  }

  ghost predicate Reachable(w: World) {
    exists run :: Legal(Initial(w.unique), run) && After(Initial(w.unique), run) == w
  }

  /** One step of a schedule, its store call done on the accounts object. */
  method DriveStep(accounts: Accounts, w: World, a: Action)
    requires accounts.Contents() == w.store && accounts.unique == w.unique && Enabled(w, a)
    modifies accounts
    ensures accounts.Contents() == Step(w, a).store
  {
    match a {
      case AddRow(p, kind, cred) => var _ := accounts.Create(Row(p, kind, cred, NO_IDENTITY, false));
      case Delete(id) => var _ := accounts.Remove(id);
      case SetCooldown(id, on) => accounts.SetCooldown(id, on);
      case WriteSwap(t) =>
        var LLocked(_, ex, id, mode) := w.threads[t];
        var _ := accounts.Replace(id, OAuthKind, ex.cred, mode);
      case WriteInsert(t) =>
        var LPlanned(p, ex, _) := w.threads[t];
        var _ := accounts.Create(Row(p, OAuthKind, ex.cred, ex.identity, false));
      case StoreFresh(t) => var _ := accounts.Update(w.threads[t].id, w.threads[t].renewed);
      case WriteReplace(t) =>
        var RLocked(id, kind, cred) := w.threads[t];
        var _ := accounts.Replace(id, kind, cred, Clear);
      case _ =>
    }
  }

  lemma StepKeepsUnique(w: World, a: Action)
    requires Enabled(w, a)
    ensures Step(w, a).unique == w.unique
  {}

  /** The accounts object, driven through any schedule, holds the rows the step system reaches. */
  method Drive(unique: bool, run: seq<Action>) returns (accounts: Accounts)
    requires Legal(Initial(unique), run)
    ensures accounts.Contents() == After(Initial(unique), run).store
  {
    accounts := new Accounts(unique);
    var w, i := Initial(unique), 0;
    assert run[0..] == run;
    while i < |run|
      invariant 0 <= i <= |run| && Legal(w, run[i..])
      invariant After(w, run[i..]) == After(Initial(unique), run)
      invariant fresh(accounts) && accounts.Contents() == w.store && accounts.unique == w.unique
    {
      assert run[i..][1..] == run[i + 1..];
      DriveStep(accounts, w, run[i]);
      StepKeepsUnique(w, run[i]);
      w := Step(w, run[i]);
      i := i + 1;
    }
  }

  // ---------------------------------------------------------------- the invariant

  /** The provider whose in-flight flag a call holds. */
  function ClaimOf(th: Thread): Option<Provider> {
    if th.LClaimed? || th.LExchanged? || th.LTarget? || th.LPlanned? || th.LLocked? || th.LWritten? || th.LLeaving?
    then Some(th.provider) else None
  }

  /** The account whose one-slot lock a call holds. */
  function LockOf(th: Thread): Option<AccountId> {
    if || th.LLocked? || th.LWritten? || th.FLocked? || th.FCalling? || th.FRefreshed? || th.FUnlocking?
       || th.RLocked? || th.RUnlocking?
    then Some(th.id) else None
  }

  ghost predicate ClaimsInv(w: World) {
    && (forall t :: t in w.threads && ClaimOf(w.threads[t]).Some? ==>
          ClaimOf(w.threads[t]).value in w.claims && w.claims[ClaimOf(w.threads[t]).value] == t)
    && (forall p :: p in w.claims ==> w.claims[p] in w.threads && ClaimOf(w.threads[w.claims[p]]) == Some(p))
  }

  ghost predicate LocksInv(w: World) {
    && (forall t :: t in w.threads && LockOf(w.threads[t]).Some? ==>
          LockOf(w.threads[t]).value in w.slots && w.slots[LockOf(w.threads[t]).value] == t)
    && (forall id :: id in w.slots ==> w.slots[id] in w.threads && LockOf(w.threads[w.slots[id]]) == Some(id))
  }

  /** Row `id`, read earlier as one of provider `p` with identity `i`, has since at most been
      deleted or lost its identity. */
  predicate SeenAs(st: Store, id: AccountId, p: Provider, i: Identity) {
    && id < st.nextId
    && (id in st.rows ==>
          st.rows[id].provider == p && (st.rows[id].identity == i || st.rows[id].identity == NO_IDENTITY))
  }

  predicate SwapOk(st: Store, p: Provider, ex: Exchanged, id: AccountId, mode: Mode) {
    match mode
    case Keep => ex.identity != NO_IDENTITY && SeenAs(st, id, p, ex.identity)
    case Adopt(i) => i == ex.identity && i != NO_IDENTITY && SeenAs(st, id, p, NO_IDENTITY) && Unowned(st, p, i)
    case Clear => SeenAs(st, id, p, NO_IDENTITY)
  }

  /** What a call knows about the store, given what it read. */
  predicate ThreadOk(st: Store, th: Thread) {
    match th
    case LExchanged(_, _, ex) => ExchangeOk(ex)
    case LTarget(p, account, ex, ti) => ExchangeOk(ex) && (account != NO_ACCOUNT ==> SeenAs(st, account, p, ti))
    case LPlanned(p, ex, Swap(id, mode)) => ExchangeOk(ex) && SwapOk(st, p, ex, id, mode)
    case LPlanned(p, ex, Insert) => ExchangeOk(ex) && (ex.identity != NO_IDENTITY ==> Unowned(st, p, ex.identity))
    case LPlanned(_, _, Refuse(_)) => false
    case LLocked(p, ex, id, mode) => ExchangeOk(ex) && SwapOk(st, p, ex, id, mode)
    case FCalling(id, base) => base.OAuth? && id < st.nextId && (id in st.rows ==> st.rows[id].cred == base)
    case FRefreshed(id, base, renewed) =>
      && base.OAuth? && renewed.OAuth? && renewed.vendor == base.vendor
      && (base.refresh != NO_TOKEN ==> renewed.refresh != NO_TOKEN)
      && id < st.nextId && (id in st.rows ==> st.rows[id].cred == base)
    case RStart(_, kind, cred) => Fits(kind, cred)
    case RLocked(_, kind, cred) => Fits(kind, cred)
    case _ => true
  }

  ghost predicate ThreadsInv(w: World) { forall t :: t in w.threads ==> ThreadOk(w.store, w.threads[t]) }

  /** A refresher is called only for a credential that is due, and time does not go back. */
  ghost predicate DueInv(w: World) {
    forall t :: t in w.threads ==> DueOk(w.threads[t], w.now)
  }

  ghost predicate Inv(w: World) {
    ClaimsInv(w) && LocksInv(w) && Good(w.store) && ThreadsInv(w) && DueInv(w)
  }

  function Actor(a: Action): Option<ThreadId> {
    if a.Tick? || a.AddRow? || a.Delete? || a.SetCooldown? then None else Some(a.t)
  }

  function Before(w: World, t: ThreadId): Thread { if t in w.threads then w.threads[t] else Done }

  /** Thread `t` went from holding `before` to holding `after`, and the holders table followed. */
  predicate Transfer(
    m: map<int, ThreadId>, m': map<int, ThreadId>, t: ThreadId, before: Option<int>, after: Option<int>) {
    || (m' == m && after == before)
    || (before.None? && after.Some? && after.value !in m && m' == m[after.value := t])
    || (before.Some? && after.None? && m' == m - {before.value})
  }

  /** Steps of a login, from its claim to its release. */
  predicate OfLogin(a: Action) { ReadsForLogin(a) || EndsLogin(a) }

  predicate ReadsForLogin(a: Action) { a.ClaimFlag? || a.Abandon? || a.Exchange? || a.ReadTarget? || a.ReadOwner? }

  predicate EndsLogin(a: Action) { a.LockSwap? || a.WriteSwap? || a.UnlockSwap? || a.WriteInsert? || a.ReleaseFlag? }

  predicate OnlyThread(w: World, w': World, t: ThreadId) {
    t in w'.threads && w'.threads == w.threads[t := w'.threads[t]]
  }

  lemma LoginStepMoves(w: World, a: Action)
    requires Enabled(w, a) && OfLogin(a)
    ensures OnlyThread(w, Step(w, a), a.t)
  {}

  lemma OtherStepMoves(w: World, a: Action)
    requires Enabled(w, a) && !OfLogin(a) && Actor(a).Some?
    ensures OnlyThread(w, Step(w, a), a.t)
  {}

  lemma StepMoves(w: World, a: Action)
    requires Enabled(w, a)
    ensures Actor(a).None? ==>
      Step(w, a).threads == w.threads && Step(w, a).claims == w.claims && Step(w, a).slots == w.slots
    ensures Actor(a).Some? ==> OnlyThread(w, Step(w, a), a.t)
  {
    if OfLogin(a) {
      LoginStepMoves(w, a);
    } else if Actor(a).Some? {
      OtherStepMoves(w, a);
    }
  }

  /** What a step of call `t` does to the holders of flags and locks. */
  predicate HoldersMove(w: World, w': World, t: ThreadId)
    requires t in w'.threads
  {
    && Transfer(w.claims, w'.claims, t, ClaimOf(Before(w, t)), ClaimOf(w'.threads[t]))
    && Transfer(w.slots, w'.slots, t, LockOf(Before(w, t)), LockOf(w'.threads[t]))
  }

  lemma ReaderHolders(w: World, a: Action)
    requires Enabled(w, a) && ReadsForLogin(a) && a.t in Step(w, a).threads
    ensures HoldersMove(w, Step(w, a), a.t) && !Refreshing(Step(w, a).threads[a.t])
  {}

  lemma WriterHolders(w: World, a: Action)
    requires Enabled(w, a) && EndsLogin(a) && a.t in Step(w, a).threads
    ensures HoldersMove(w, Step(w, a), a.t) && !Refreshing(Step(w, a).threads[a.t])
  {}

  lemma OtherHolders(w: World, a: Action)
    requires Enabled(w, a) && !OfLogin(a) && Actor(a).Some? && a.t in Step(w, a).threads
    ensures HoldersMove(w, Step(w, a), a.t)
  {}

  lemma HoldersStep(w: World, a: Action)
    requires ClaimsInv(w) && LocksInv(w) && Enabled(w, a)
    ensures ClaimsInv(Step(w, a)) && LocksInv(Step(w, a))
  {
    StepMoves(w, a);
    if Actor(a).Some? {
      if ReadsForLogin(a) {
        ReaderHolders(w, a);
      } else if EndsLogin(a) {
        WriterHolders(w, a);
      } else {
        OtherHolders(w, a);
      }
      ClaimsTransfer(w, Step(w, a), Actor(a).value);
      LocksTransfer(w, Step(w, a), Actor(a).value);
    }
  }

  lemma ClaimsTransfer(w: World, w': World, t: ThreadId)
    requires ClaimsInv(w) && t in w'.threads && w'.threads == w.threads[t := w'.threads[t]]
    requires Transfer(w.claims, w'.claims, t, ClaimOf(Before(w, t)), ClaimOf(w'.threads[t]))
    ensures ClaimsInv(w')
  {}

  lemma LocksTransfer(w: World, w': World, t: ThreadId)
    requires LocksInv(w) && t in w'.threads && w'.threads == w.threads[t := w'.threads[t]]
    requires Transfer(w.slots, w'.slots, t, LockOf(Before(w, t)), LockOf(w'.threads[t]))
    ensures LocksInv(w')
  {}

  lemma SwapKeepsGood(st: Store, p: Provider, ex: Exchanged, id: AccountId, mode: Mode)
    requires Good(st) && ExchangeOk(ex) && SwapOk(st, p, ex, id, mode)
    ensures Good(ReplaceRow(st, id, OAuthKind, ex.cred, mode))
  {}

  predicate WritesStore(a: Action) {
    a.AddRow? || a.Delete? || a.SetCooldown? || a.WriteSwap? || a.WriteInsert? || a.StoreFresh? || a.WriteReplace?
  }

  lemma StoreKept(w: World, a: Action)
    requires Enabled(w, a) && !WritesStore(a)
    ensures Step(w, a).store == w.store
  {}

  lemma GoodStep(w: World, a: Action)
    requires Inv(w) && Enabled(w, a)
    ensures Good(Step(w, a).store)
  {
    if !WritesStore(a) {
      StoreKept(w, a);
    } else if a.WriteSwap? {
      assert ThreadOk(w.store, w.threads[a.t]);
      var LLocked(p, ex, id, mode) := w.threads[a.t];
      SwapKeepsGood(w.store, p, ex, id, mode);
    } else if Actor(a).Some? {
      GoodWrite(w, a);
    } else {
      GoodElsewhere(w, a);
    }
  }

  lemma GoodWrite(w: World, a: Action)
    requires Inv(w) && Enabled(w, a) && WritesStore(a) && !a.WriteSwap? && Actor(a).Some?
    ensures Good(Step(w, a).store)
  {
    assert ThreadOk(w.store, w.threads[a.t]);
  }

  lemma GoodElsewhere(w: World, a: Action)
    requires Good(w.store) && Enabled(w, a) && WritesStore(a) && Actor(a).None?
    ensures Good(Step(w, a).store)
  {}

  /** What one step may do to the rows: only the provider `p` may gain an identity, only row
      `locked` may get another credential, and new rows get new ids. */
  ghost predicate Evolves(st: Store, st': Store, p: Option<Provider>, locked: Option<AccountId>) {
    && st.nextId <= st'.nextId
    && forall id :: id in st'.rows ==>
         if id in st.rows then
           && st'.rows[id].provider == st.rows[id].provider
           && (|| st'.rows[id].identity == st.rows[id].identity || st'.rows[id].identity == NO_IDENTITY
               || p == Some(st'.rows[id].provider))
           && (st'.rows[id].cred == st.rows[id].cred || locked == Some(id))
         else id >= st.nextId && (st'.rows[id].identity == NO_IDENTITY || p == Some(st'.rows[id].provider))
  }

  /** Such a step does not disturb what a call with another claim and another lock knows. */
  lemma Undisturbed(st: Store, st': Store, p: Option<Provider>, locked: Option<AccountId>, th: Thread)
    requires Evolves(st, st', p, locked) && ThreadOk(st, th)
    requires p.Some? ==> ClaimOf(th) != p
    requires locked.Some? ==> LockOf(th) != locked
    ensures ThreadOk(st', th)
  {}

  /** The claim and the lock under which a step writes the store. */
  function WritesUnder(w: World, a: Action): (Option<Provider>, Option<AccountId>)
    requires Enabled(w, a)
  {
    match a
    case WriteSwap(t) => (Some(w.threads[t].provider), Some(w.threads[t].id))
    case WriteInsert(t) => (Some(w.threads[t].provider), None)
    case StoreFresh(t) => (None, Some(w.threads[t].id))
    case WriteReplace(t) => (None, Some(w.threads[t].id))
    case _ => (None, None)
  }

  lemma StepEvolves(w: World, a: Action)
    requires Inv(w) && Enabled(w, a)
    ensures Evolves(w.store, Step(w, a).store, WritesUnder(w, a).0, WritesUnder(w, a).1)
  {
    if WritesStore(a) { WriteEvolves(w, a); } else { StoreKept(w, a); }
  }

  lemma WriteEvolves(w: World, a: Action)
    requires Inv(w) && Enabled(w, a) && WritesStore(a)
    ensures Evolves(w.store, Step(w, a).store, WritesUnder(w, a).0, WritesUnder(w, a).1)
  {
    assert a.WriteSwap? ==> ThreadOk(w.store, w.threads[a.t]);
  }

  lemma PlanIsOk(
    st: Store, p: Provider, account: AccountId, ex: Exchanged, targetIdentity: Identity, owner: Option<AccountId>)
    requires Good(st) && ThreadOk(st, LTarget(p, account, ex, targetIdentity)) && MayFind(st, p, ex.identity, owner)
    ensures var plan := Decide(account, targetIdentity, ex.identity, owner);
      !plan.Refuse? ==> ThreadOk(st, LPlanned(p, ex, plan))
  {}

  lemma ReaderStep(w: World, a: Action)
    requires Inv(w) && Enabled(w, a) && ReadsForLogin(a)
    ensures a.t in Step(w, a).threads && ThreadOk(Step(w, a).store, Step(w, a).threads[a.t])
  {
    assert a.t in w.threads ==> ThreadOk(w.store, w.threads[a.t]);
    if a.ReadOwner? {
      var LTarget(p, account, ex, targetIdentity) := w.threads[a.t];
      PlanIsOk(w.store, p, account, ex, targetIdentity, a.owner);
    }
  }

  lemma WriterStep(w: World, a: Action)
    requires Inv(w) && Enabled(w, a) && EndsLogin(a)
    ensures a.t in Step(w, a).threads && ThreadOk(Step(w, a).store, Step(w, a).threads[a.t])
  {
    assert ThreadOk(w.store, w.threads[a.t]);
  }

  lemma OtherActorStep(w: World, a: Action)
    requires Inv(w) && Enabled(w, a) && !OfLogin(a) && Actor(a).Some?
    ensures a.t in Step(w, a).threads && ThreadOk(Step(w, a).store, Step(w, a).threads[a.t])
  {
    assert a.t in w.threads ==> ThreadOk(w.store, w.threads[a.t]);
  }

  lemma ThreadsStep(w: World, a: Action)
    requires Inv(w) && Enabled(w, a)
    ensures ThreadsInv(Step(w, a))
  {
    var w' := Step(w, a);
    StepEvolves(w, a);
    var (p, locked) := WritesUnder(w, a);
    forall t | t in w'.threads ensures ThreadOk(w'.store, w'.threads[t]) {
      if Actor(a) == Some(t) {
        if ReadsForLogin(a) {
          ReaderStep(w, a);
        } else if EndsLogin(a) {
          WriterStep(w, a);
        } else {
          OtherActorStep(w, a);
        }
      } else {
        Bystander(w, a, t);
        Undisturbed(w.store, w'.store, p, locked, w.threads[t]);
      }
    }
  }

  /** A call that does not act keeps its place, and holds neither the claim nor the lock the
      acting call writes under. */
  lemma Bystander(w: World, a: Action, t: ThreadId)
    requires Inv(w) && Enabled(w, a) && t in Step(w, a).threads && Actor(a) != Some(t)
    ensures t in w.threads && Step(w, a).threads[t] == w.threads[t]
    ensures WritesUnder(w, a).0.Some? ==> ClaimOf(w.threads[t]) != WritesUnder(w, a).0
    ensures WritesUnder(w, a).1.Some? ==> LockOf(w.threads[t]) != WritesUnder(w, a).1
  {
    StepMoves(w, a);
    WritersHold(w, a);
  }

  /** A step that writes under a claim or a lock is one of a call that holds it. */
  lemma WritersHold(w: World, a: Action)
    requires Enabled(w, a)
    ensures WritesUnder(w, a).0.Some? ==>
      Actor(a).Some? && a.t in w.threads && ClaimOf(w.threads[a.t]) == WritesUnder(w, a).0
    ensures WritesUnder(w, a).1.Some? ==>
      Actor(a).Some? && a.t in w.threads && LockOf(w.threads[a.t]) == WritesUnder(w, a).1
  {}

  predicate Refreshing(th: Thread) { th.FCalling? || th.FRefreshed? }

  predicate DueOk(th: Thread, now: int) {
    Refreshing(th) ==> th.base.OAuth? && Due(th.base, now)
  }

  lemma OtherDue(w: World, a: Action)
    requires Enabled(w, a) && !OfLogin(a) && Actor(a).Some? && a.t in Step(w, a).threads
    requires a.t in w.threads ==> DueOk(w.threads[a.t], w.now)
    ensures DueOk(Step(w, a).threads[a.t], w.now)
  {}

  lemma TimeMoves(w: World, a: Action)
    requires Enabled(w, a)
    ensures Step(w, a).now == if a.Tick? then a.now else w.now
  {}

  lemma DueStep(w: World, a: Action)
    requires DueInv(w) && Enabled(w, a)
    ensures DueInv(Step(w, a))
  {
    StepMoves(w, a);
    TimeMoves(w, a);
    if ReadsForLogin(a) {
      ReaderHolders(w, a);
    } else if EndsLogin(a) {
      WriterHolders(w, a);
    } else if Actor(a).Some? {
      OtherDue(w, a);
    }
  }

  lemma InvStep(w: World, a: Action)
    requires Inv(w) && Enabled(w, a)
    ensures Inv(Step(w, a))
  {
    HoldersStep(w, a);
    GoodStep(w, a);
    ThreadsStep(w, a);
    DueStep(w, a);
  }

  lemma {:induction false} InvAfter(w: World, run: seq<Action>)
    requires Inv(w) && Legal(w, run)
    ensures Inv(After(w, run))
    decreases |run|
  {
    if run != [] {
      InvStep(w, run[0]);
      InvAfter(Step(w, run[0]), run[1..]);
    }
  }

  lemma ReachableInv(w: World)
    requires Reachable(w)
    ensures Inv(w)
  {
    var run :| Legal(Initial(w.unique), run) && After(Initial(w.unique), run) == w;
    InvAfter(Initial(w.unique), run);
  }

  // ---------------------------------------------------------------- theorems over every run

  /** A row with an identity is an OAuth row holding a credential of exactly that vendor account. */
  lemma IdentityMatchesCredential(w: World, id: AccountId)
    requires Reachable(w) && id in w.store.rows && w.store.rows[id].identity != NO_IDENTITY
    ensures w.store.rows[id].kind == OAuthKind && w.store.rows[id].cred.OAuth?
    ensures w.store.rows[id].cred.vendor == w.store.rows[id].identity
  {
    ReachableInv(w);
  }

  /** No two rows of one provider share an identity, whether or not the store enforces it. */
  lemma IdentityUnique(w: World, i: AccountId, j: AccountId)
    requires Reachable(w) && i in w.store.rows && j in w.store.rows
    requires w.store.rows[i].provider == w.store.rows[j].provider
    requires w.store.rows[i].identity == w.store.rows[j].identity != NO_IDENTITY
    ensures i == j
  {
    ReachableInv(w);
  }

  /** The claim makes the store's constraint idle: no login ever loses the race for an identity
      at write time, so "identity already in use" is never answered by a write. */
  lemma WritesNeverConflict(w: World, t: ThreadId)
    requires Reachable(w) && t in w.threads
    ensures w.threads[t].LPlanned? && w.threads[t].plan.Insert? ==>
      !TakenByOther(w.store, w.threads[t].provider, w.threads[t].ex.identity, w.store.nextId)
    ensures w.threads[t].LLocked? && w.threads[t].mode.Adopt? ==>
      !TakenByOther(w.store, w.threads[t].provider, w.threads[t].mode.identity, w.threads[t].id)
  {
    ReachableInv(w);
    assert ThreadOk(w.store, w.threads[t]);
  }

  /** At most one call holds an account's lock, and an unlock never blocks. */
  lemma OneLockHolder(w: World, id: AccountId, t: ThreadId, u: ThreadId)
    requires Reachable(w) && t in w.threads && u in w.threads
    requires LockOf(w.threads[t]) == Some(id) && LockOf(w.threads[u]) == Some(id)
    ensures t == u && id in w.slots
    ensures w.threads[t].LWritten? ==> Enabled(w, UnlockSwap(t))
    ensures w.threads[t].FUnlocking? ==> Enabled(w, UnlockFresh(t))
    ensures w.threads[t].RUnlocking? ==> Enabled(w, UnlockReplace(t))
  {
    ReachableInv(w);
  }

  /** A filled slot has a holder: no lock is leaked when a waiter gives up. */
  lemma FilledSlotHasHolder(w: World, id: AccountId) returns (t: ThreadId)
    requires Reachable(w) && id in w.slots
    ensures t in w.threads && LockOf(w.threads[t]) == Some(id)
  {
    ReachableInv(w);
    t := w.slots[id];
  }

  /** No lost update: a refreshed credential overwrites only the credential it was computed
      from, leaves every other field and row alone, and never empties a refresh token. */
  lemma NoLostUpdate(w: World, t: ThreadId)
    requires Reachable(w) && Enabled(w, StoreFresh(t))
    ensures var FRefreshed(id, base, renewed) := w.threads[t];
      var st' := Step(w, StoreFresh(t)).store;
      if id in w.store.rows then
        && base.OAuth? && w.store.rows[id].cred == base && w.store.rows[id].kind == OAuthKind
        && st' == w.store.(rows := w.store.rows[id := w.store.rows[id].(cred := renewed)])
        && renewed.OAuth? && renewed.vendor == base.vendor
        && (base.refresh != NO_TOKEN ==> renewed.refresh != NO_TOKEN)
      else st' == w.store
  {
    ReachableInv(w);
    assert ThreadOk(w.store, w.threads[t]);
  }

  /** persist split into its steps agrees with persist as one step: run without interruption,
      from any reachable state in which the row's lock is free, the steps leave the same store. */
  lemma SoloPersist(w: World, t: ThreadId, owner: Option<AccountId>)
    requires Reachable(w) && t in w.threads && w.threads[t].LExchanged?
    requires MayFind(w.store, w.threads[t].provider, w.threads[t].ex.identity, owner)
    ensures var LExchanged(p, account, ex) := w.threads[t];
      var (st', r) := PersistOnce(w.store, p, account, ex, owner);
      var w1 := ReadTargetStep(w, t);
      if w1.threads[t].LLeaving? then r.Refused? && st' == w.store
      else
        var w2 := ReadOwnerStep(w1, t, owner);
        if w2.threads[t].LLeaving? then r.Refused? && st' == w.store
        else if w2.threads[t].plan.Insert? then WriteInsertStep(w2, t).store == st' && r == Created(w.store.nextId)
        else CanLockSwap(w2, t) ==>
          WriteSwapStep(LockSwapStep(w2, t), t).store == st' && r.Replaced? && r.id == w2.threads[t].plan.id
  {
    ReachableInv(w);
    var LExchanged(p, account, ex) := w.threads[t];
    var w1 := ReadTargetStep(w, t);
    assert ThreadOk(w.store, w.threads[t]);
    if w1.threads[t].LTarget? {
      PlanIsOk(w.store, p, account, ex, w1.threads[t].targetIdentity, owner);
    }
  }

  // ---------------------------------------------------------------- progress

  /** A call has a step of its own, other than giving up its wait for a lock. */
  ghost predicate Moves(w: World, t: ThreadId) {
    exists a :: Actor(a) == Some(t) && !a.GiveUpLock? && Enabled(w, a)
  }

  predicate WaitsFor(th: Thread, id: AccountId) {
    || (th.LPlanned? && th.plan.Swap? && th.plan.id == id)
    || (th.FStart? && th.id == id)
    || (th.RStart? && th.id == id)
  }

  /** The next step of a call that holds an account's lock. */
  function HolderStep(th: Thread, t: ThreadId): Action
    requires LockOf(th).Some?
  {
    match th
    case LLocked(_, _, _, _) => WriteSwap(t)
    case LWritten(_, _) => UnlockSwap(t)
    case FLocked(_) => ReadFresh(t)
    case FCalling(_, _) => RefreshFail(t)
    case FRefreshed(_, _, _) => StoreFresh(t)
    case FUnlocking(_) => UnlockFresh(t)
    case RLocked(_, _, _) => WriteReplace(t)
    case RUnlocking(_) => UnlockReplace(t)
  }

  lemma HolderMoves(w: World, t: ThreadId)
    requires LocksInv(w) && t in w.threads && LockOf(w.threads[t]).Some?
    ensures Moves(w, t)
  {
    assert LockOf(w.threads[t]).value in w.slots;
    assert Enabled(w, HolderStep(w.threads[t], t));
  }

  lemma LoginMovesOrWaits(w: World, t: ThreadId)
    requires Inv(w) && t in w.threads && !LockOf(w.threads[t]).Some?
    requires w.threads[t].LStart? || ClaimOf(w.threads[t]).Some?
    ensures Moves(w, t) || exists id :: WaitsFor(w.threads[t], id) && id in w.slots
  {
    assert ThreadOk(w.store, w.threads[t]);
    match w.threads[t]
    case LStart(_, _) => assert Enabled(w, ClaimFlag(t));
    case LClaimed(_, _) => assert Enabled(w, Abandon(t));
    case LExchanged(_, _, _) => assert Enabled(w, ReadTarget(t));
    case LTarget(p, _, ex, _) => assert Enabled(w, ReadOwner(t, FindOwner(w.store, p, ex.identity)));
    case LPlanned(_, _, Insert) => assert Enabled(w, WriteInsert(t));
    case LPlanned(_, _, Swap(id, _)) =>
      assert WaitsFor(w.threads[t], id);
      assert id !in w.slots ==> Enabled(w, LockSwap(t));
    case LLeaving(_) => assert Enabled(w, ReleaseFlag(t));
  }

  /** No deadlock: in every reachable world a call that is not done has a step, or waits for the
      lock of an account whose holder, another call, has one. */
  lemma NoDeadlock(w: World, t: ThreadId)
    requires Reachable(w) && t in w.threads && !w.threads[t].Done?
    ensures Moves(w, t) || exists id ::
      WaitsFor(w.threads[t], id) && id in w.slots && w.slots[id] != t && Moves(w, w.slots[id])
  {
    ReachableInv(w);
    var th := w.threads[t];
    if LockOf(th).Some? {
      HolderMoves(w, t);
    } else {
      if th.FStart? && th.id !in w.slots {
        assert Enabled(w, LockFresh(t));
      } else if th.RStart? && th.id !in w.slots {
        assert Enabled(w, LockReplace(t));
      } else if th.FStart? || th.RStart? {
        assert WaitsFor(th, th.id);
      } else {
        LoginMovesOrWaits(w, t);
      }
      if id :| WaitsFor(th, id) && id in w.slots {
        HolderMoves(w, w.slots[id]);
      }
    }
  }

  // ---------------------------------------------------------------- one refresh is enough

  /** Does this step start a refresher call on account `id`? */
  predicate CallsRefresher(w: World, a: Action, id: AccountId)
    requires Enabled(w, a)
  {
    a.ReadFresh? && w.threads[a.t].id == id && Step(w, a).threads[a.t].FCalling?
  }

  function RefresherCalls(w: World, run: seq<Action>, id: AccountId): nat
    requires Legal(w, run)
    decreases |run|
  {
    if run == [] then 0
    else (if CallsRefresher(w, run[0], id) then 1 else 0) + RefresherCalls(Step(w, run[0]), run[1..], id)
  }

  /** A step up to time `limit` in which nobody replaces the credential of `id` and a refresh of
      it succeeds, with an expiry still beyond the buffer at `limit`. */
  predicate SteadyStep(w: World, a: Action, id: AccountId, limit: int)
    requires Enabled(w, a)
  {
    && Step(w, a).now <= limit
    && (a.WriteSwap? || a.WriteReplace? || a.RefreshFail? ==> w.threads[a.t].id != id)
    && (a.RefreshOk? && w.threads[a.t].id == id ==> limit + EXPIRY_BUFFER < a.tok.expires)
  }

  predicate Steady(w: World, run: seq<Action>, id: AccountId, limit: int)
    requires Legal(w, run)
    decreases |run|
  {
    run == [] || (SteadyStep(w, run[0], id, limit) && Steady(Step(w, run[0]), run[1..], id, limit))
  }

  /** A refresh of `id` is under way, or was stored, or the row is gone for good. */
  predicate Settled(w: World, id: AccountId, limit: int) {
    Stored(w.store, id, limit) || Renewing(w, id, limit)
  }

  predicate Renewing(w: World, id: AccountId, limit: int) {
    && id in w.slots && w.slots[id] in w.threads
    && var th := w.threads[w.slots[id]];
       && (th.FCalling? || th.FRefreshed?) && th.id == id
       && (th.FRefreshed? ==> th.renewed.OAuth? && limit + EXPIRY_BUFFER < th.renewed.expires)
  }

  lemma RenewingDuringLogin(w: World, a: Action, id: AccountId, limit: int)
    requires Inv(w) && Enabled(w, a) && OfLogin(a) && SteadyStep(w, a, id, limit) && Renewing(w, id, limit)
    ensures Renewing(Step(w, a), id, limit)
  {}

  lemma RenewingStays(w: World, a: Action, id: AccountId, limit: int)
    requires Inv(w) && Enabled(w, a) && !OfLogin(a) && SteadyStep(w, a, id, limit) && Renewing(w, id, limit)
    ensures Settled(Step(w, a), id, limit)
  {
    if a.StoreFresh? && w.threads[a.t].id == id {
      assert ThreadOk(w.store, w.threads[a.t]) && LockOf(w.threads[a.t]) == Some(id);
    }
  }

  /** The refreshed credential is stored, or the row is gone. */
  predicate Stored(st: Store, id: AccountId, limit: int) {
    if id in st.rows then st.rows[id].cred.OAuth? && limit + EXPIRY_BUFFER < st.rows[id].cred.expires
    else id < st.nextId
  }

  lemma StoredStays(w: World, a: Action, id: AccountId, limit: int)
    requires Inv(w) && Enabled(w, a) && SteadyStep(w, a, id, limit) && Stored(w.store, id, limit)
    requires WritesStore(a)
    ensures Stored(Step(w, a).store, id, limit)
  {
    if Actor(a).Some? { assert ThreadOk(w.store, w.threads[a.t]); }
    if a.StoreFresh? && w.threads[a.t].id == id {
      assert LockOf(w.threads[a.t]) == Some(id);
    }
  }

  lemma SettledStays(w: World, a: Action, id: AccountId, limit: int)
    requires Inv(w) && Enabled(w, a) && SteadyStep(w, a, id, limit) && Settled(w, id, limit)
    ensures Settled(Step(w, a), id, limit)
  {
    if !Renewing(w, id, limit) {
      if WritesStore(a) { StoredStays(w, a, id, limit); } else { StoreKept(w, a); }
    } else if OfLogin(a) {
      RenewingDuringLogin(w, a, id, limit);
    } else {
      RenewingStays(w, a, id, limit);
    }
  }

  lemma SettledNeedsNoCall(w: World, a: Action, id: AccountId, limit: int)
    requires Inv(w) && Enabled(w, a) && SteadyStep(w, a, id, limit) && Settled(w, id, limit)
    ensures !CallsRefresher(w, a, id)
  {
    if a.ReadFresh? && w.threads[a.t].id == id {
      assert LockOf(w.threads[a.t]) == Some(id);
    }
  }

  lemma CallSettles(w: World, a: Action, id: AccountId, limit: int)
    requires Inv(w) && Enabled(w, a) && CallsRefresher(w, a, id)
    ensures Settled(Step(w, a), id, limit)
  {
    assert LockOf(w.threads[a.t]) == Some(id);
  }

  lemma {:induction false} CallsAreBounded(w: World, run: seq<Action>, id: AccountId, limit: int)
    requires Inv(w) && Legal(w, run) && Steady(w, run, id, limit)
    ensures RefresherCalls(w, run, id) <= if Settled(w, id, limit) then 0 else 1
    decreases |run|
  {
    if run != [] {
      var w' := Step(w, run[0]);
      InvStep(w, run[0]);
      CallsAreBounded(w', run[1..], id, limit);
      if Settled(w, id, limit) {
        SettledStays(w, run[0], id, limit);
        SettledNeedsNoCall(w, run[0], id, limit);
      } else if CallsRefresher(w, run[0], id) {
        CallSettles(w, run[0], id, limit);
      }
    }
  }

  /** However many EnsureFresh calls interleave with everything else, the refresher runs at most
      once for an account, and not at all when a refresh of it is already stored or under way. */
  lemma RefresherRunsAtMostOnce(w: World, run: seq<Action>, id: AccountId, limit: int)
    requires Reachable(w) && Legal(w, run) && Steady(w, run, id, limit)
    ensures RefresherCalls(w, run, id) <= 1
    ensures Settled(w, id, limit) ==> RefresherCalls(w, run, id) == 0
  {
    ReachableInv(w);
    CallsAreBounded(w, run, id, limit);
  }
}
