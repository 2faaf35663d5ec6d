/** Refreshes over whole runs of the credential system (internal/accounts/refresh.go and
    refresh_providers.go): which answer of the vendor ends up in which row. */
module RefreshRuns {
  import opened Common
  import opened AccountStore
  import opened CredentialSystem

  /** The latest answer call `t` got in the first k steps. */
  function Answer(run: seq<Action>, t: ThreadId, k: nat): Option<TokenResponse>
    requires k <= |run|
  {
    if k == 0 then None
    else if run[k - 1].RefreshOk? && run[k - 1].t == t then Some(run[k - 1].tok)
    else Answer(run, t, k - 1)
  }

  /** Access token and expiry of the answer; its refresh token, or the old one where it has none. */
  predicate BuiltFrom(base: Credential, tok: TokenResponse, c: Credential) {
    && base.OAuth? && c.OAuth? && c.access == tok.access && c.expires == tok.expires && c.vendor == base.vendor
    && c.refresh == if tok.refresh != NO_TOKEN then tok.refresh else base.refresh
  }

  lemma AnswerStep(w: World, a: Action)
    requires Inv(w) && Enabled(w, a) && Actor(a).Some? && a.t in Step(w, a).threads
    requires Step(w, a).threads[a.t].FRefreshed?
    ensures a.RefreshOk?
    ensures var th := Step(w, a).threads[a.t]; BuiltFrom(th.base, a.tok, th.renewed)
  {
    assert a.t in w.threads ==> ThreadOk(w.store, w.threads[a.t]);
    if OfLogin(a) { LoginStoresNothing(w, a); }
  }

  lemma LoginStoresNothing(w: World, a: Action)
    requires Enabled(w, a) && OfLogin(a)
    ensures a.t in Step(w, a).threads && !Step(w, a).threads[a.t].FRefreshed?
  {}

  lemma {:induction false} InvAt(unique: bool, run: seq<Action>, k: nat)
    requires Legal(Initial(unique), run) && k <= |run|
    ensures Inv(WorldAt(Initial(unique), run, k))
  {
    if k > 0 {
      InvAt(unique, run, k - 1);
      EnabledAt(Initial(unique), run, k - 1);
      InvStep(WorldAt(Initial(unique), run, k - 1), run[k - 1]);
    }
  }

  /** A call that waits to store a refreshed credential built it from the answer it got. */
  lemma {:induction false} AnswerAt(unique: bool, run: seq<Action>, k: nat, t: ThreadId)
    requires Legal(Initial(unique), run) && k <= |run|
    ensures var w := WorldAt(Initial(unique), run, k);
      t in w.threads && w.threads[t].FRefreshed? ==>
        && Answer(run, t, k).Some?
        && BuiltFrom(w.threads[t].base, Answer(run, t, k).value, w.threads[t].renewed)
  {
    if k > 0 {
      var w, a := WorldAt(Initial(unique), run, k - 1), run[k - 1];
      AnswerAt(unique, run, k - 1, t);
      InvAt(unique, run, k - 1);
      EnabledAt(Initial(unique), run, k - 1);
      StepMoves(w, a);
      if Actor(a) == Some(t) && Step(w, a).threads[t].FRefreshed? { AnswerStep(w, a); }
    }
  }

  /** A refresh of row `id` is stored at step k. */
  predicate StoredAt(unique: bool, run: seq<Action>, k: int, id: AccountId)
    requires Legal(Initial(unique), run)
  {
    && 0 <= k < |run| && run[k].StoreFresh?
    && var w := WorldAt(Initial(unique), run, k);
       run[k].t in w.threads && w.threads[run[k].t].FRefreshed? && w.threads[run[k].t].id == id
  }

  /** What a refresh stores, over every run: the access token and the expiry that the vendor
      answered this very call, the refresh token of that answer or, where it has none, the one that
      stood in the row; nothing else of the row and no other row changes. */
  lemma StoredAnswer(unique: bool, run: seq<Action>, k: nat, id: AccountId)
    requires Legal(Initial(unique), run) && StoredAt(unique, run, k, id)
    requires id in WorldAt(Initial(unique), run, k).store.rows
    ensures Answer(run, run[k].t, k).Some?
    ensures var (rows, tok) := (WorldAt(Initial(unique), run, k).store.rows, Answer(run, run[k].t, k).value);
      && rows[id].kind == OAuthKind && rows[id].cred.OAuth?
      && var was := rows[id].cred;
         var refresh := if tok.refresh != NO_TOKEN then tok.refresh else was.refresh;
         WorldAt(Initial(unique), run, k + 1).store.rows ==
           rows[id := rows[id].(cred := OAuth(tok.access, refresh, tok.expires, was.vendor))]
  {
    var w := WorldAt(Initial(unique), run, k);
    EnabledAt(Initial(unique), run, k);
    InvAt(unique, run, k);
    AnswerAt(unique, run, k, run[k].t);
    assert ThreadOk(w.store, w.threads[run[k].t]);
  }

  // ---------------------------------------------------------------- the refresh token over a run

  /** A step that deletes row `id` or writes it otherwise than by a refresh. */
  predicate OtherWrite(w: World, a: Action, id: AccountId) {
    || a == Delete(id)
    || (a.WriteSwap? && a.t in w.threads && w.threads[a.t].LLocked? && w.threads[a.t].id == id)
    || (a.WriteReplace? && a.t in w.threads && w.threads[a.t].RLocked? && w.threads[a.t].id == id)
  }

  predicate OtherWriteAt(unique: bool, run: seq<Action>, k: int, id: AccountId)
    requires Legal(Initial(unique), run)
  {
    0 <= k < |run| && OtherWrite(WorldAt(Initial(unique), run, k), run[k], id)
  }

  lemma RowKept(w: World, a: Action, id: AccountId)
    requires Inv(w) && Enabled(w, a) && id in w.store.rows && !OtherWrite(w, a, id)
    requires !(a.StoreFresh? && w.threads[a.t].id == id)
    ensures id in Step(w, a).store.rows && Step(w, a).store.rows[id].cred == w.store.rows[id].cred
  {
    if WritesStore(a) {
      assert id < w.store.nextId;
    } else {
      StoreKept(w, a);
    }
  }

  /** The latest refresh token that an answer stored in row `id` since step m carried, `token` if
      none did. */
  function LatestToken(unique: bool, run: seq<Action>, m: nat, k: nat, id: AccountId, token: Token): Token
    requires Legal(Initial(unique), run) && m <= k <= |run|
    decreases k
  {
    if k == m then token
    else
      var before := LatestToken(unique, run, m, k - 1, id, token);
      if !StoredAt(unique, run, k - 1, id) then before
      else
        match Answer(run, run[k - 1].t, k - 1)
        case Some(tok) => if tok.refresh != NO_TOKEN then tok.refresh else before
        case None => before
  }

  /** Over any stretch of a run in which nobody else writes an OAuth row, it keeps its place and its
      refresh token is the latest one that an answer stored there carried. */
  lemma {:induction false} RefreshTokenIsLatest(unique: bool, run: seq<Action>, m: nat, k: nat, id: AccountId)
    requires Legal(Initial(unique), run) && m <= k <= |run|
    requires id in WorldAt(Initial(unique), run, m).store.rows
    requires WorldAt(Initial(unique), run, m).store.rows[id].cred.OAuth?
    requires forall j :: m <= j < k ==> !OtherWriteAt(unique, run, j, id)
    ensures var rows := WorldAt(Initial(unique), run, k).store.rows;
      && id in rows && rows[id].cred.OAuth?
      && rows[id].cred.refresh ==
           LatestToken(unique, run, m, k, id, WorldAt(Initial(unique), run, m).store.rows[id].cred.refresh)
    decreases k
  {
    if k > m {
      RefreshTokenIsLatest(unique, run, m, k - 1, id);
      InvAt(unique, run, k - 1);
      EnabledAt(Initial(unique), run, k - 1);
      assert !OtherWriteAt(unique, run, k - 1, id);
      if StoredAt(unique, run, k - 1, id) {
        StoredAnswer(unique, run, k - 1, id);
      } else {
        RowKept(WorldAt(Initial(unique), run, k - 1), run[k - 1], id);
      }
    }
  }

  // ---------------------------------------------------------------- single steps

  /** Under the lock a call asks the vendor iff the row is there, is an OAuth row, and its credential
      expires within 30 seconds; it then works on exactly that credential. */
  lemma AsksVendorIffDue(w: World, t: ThreadId)
    requires Reachable(w) && Enabled(w, ReadFresh(t))
    ensures var (rows, id, w') := (w.store.rows, w.threads[t].id, Step(w, ReadFresh(t)));
      && w'.store == w.store && t in w'.threads
      && (id in rows ==> (rows[id].kind == OAuthKind <==> rows[id].cred.OAuth?))
      && if id in rows && rows[id].kind == OAuthKind && rows[id].cred.expires <= w.now + 30
         then w'.threads[t] == FCalling(id, rows[id].cred) else w'.threads[t] == FUnlocking(id)
  {
    ReachableInv(w);
  }

  /** The vendor's answer leads to a store of what was built from it, its failure to none. */
  lemma AnswerOrFailure(w: World, t: ThreadId, tok: TokenResponse)
    requires Reachable(w) && t in w.threads && w.threads[t].FCalling?
    ensures Enabled(w, RefreshOk(t, tok)) && Enabled(w, RefreshFail(t))
    ensures var FCalling(id, base) := w.threads[t];
      var (yes, no) := (Step(w, RefreshOk(t, tok)), Step(w, RefreshFail(t)));
      && yes.store == no.store == w.store && t in yes.threads && t in no.threads
      && yes.threads[t].FRefreshed? && yes.threads[t].id == id && yes.threads[t].base == base
      && BuiltFrom(base, tok, yes.threads[t].renewed) && no.threads[t] == FUnlocking(id)
  {
    ReachableInv(w);
    assert ThreadOk(w.store, w.threads[t]);
  }

  /** A pasted credential becomes one new row, under an id never used, with no identity. */
  lemma AddedRow(w: World, p: Provider, kind: Kind, cred: Credential)
    requires Reachable(w) && Enabled(w, AddRow(p, kind, cred))
    ensures var (id, st) := (w.store.nextId, Step(w, AddRow(p, kind, cred)).store);
      && id !in w.store.rows && id < st.nextId
      && st.rows == w.store.rows[id := Row(p, kind, cred, NO_IDENTITY, false)]
  {
    ReachableInv(w);
  }

  /** A login gets its provider's flag iff no call holds it. */
  lemma ClaimedIff(w: World, t: ThreadId)
    requires Reachable(w) && Enabled(w, ClaimFlag(t))
    ensures var (LStart(p, account), w') := (w.threads[t], Step(w, ClaimFlag(t)));
      && t in w'.threads
      && w'.threads[t] == if exists u :: HoldsFlag(w, u, p) then Done else LClaimed(p, account)
  {
    ReachableInv(w);
    var p := w.threads[t].provider;
    if p in w.claims { assert HoldsFlag(w, w.claims[p], p); }
  }

  predicate HoldsFlag(w: World, u: ThreadId, p: Provider) { u in w.threads && ClaimOf(w.threads[u]) == Some(p) }

  // ---------------------------------------------------------------- every call does what it was asked

  /** The call as it was started. */
  function Spawned(run: seq<Action>, t: ThreadId, k: nat): Option<Thread>
    requires k <= |run|
  {
    if k == 0 then None
    else if run[k - 1].Spawn? && run[k - 1].t == t then Some(run[k - 1].thread)
    else Spawned(run, t, k - 1)
  }

  /** What the vendor exchange of call `t` yielded. */
  function ExchangeOf(run: seq<Action>, t: ThreadId, k: nat): Option<Exchanged>
    requires k <= |run|
  {
    if k == 0 then None
    else if run[k - 1].Exchange? && run[k - 1].t == t then Some(run[k - 1].ex)
    else ExchangeOf(run, t, k - 1)
  }

  /** A call's place against how it was started and what its exchange yielded. */
  predicate AsAsked(th: Thread, spawned: Option<Thread>, ex: Option<Exchanged>) {
    match th
    case LStart(p, account) => spawned == Some(LStart(p, account))
    case LClaimed(p, account) => spawned == Some(LStart(p, account))
    case LExchanged(p, account, e) => spawned == Some(LStart(p, account)) && ex == Some(e)
    case LTarget(p, account, e, _) => spawned == Some(LStart(p, account)) && ex == Some(e)
    case LPlanned(p, e, _) => spawned.Some? && spawned.value.LStart? && spawned.value.provider == p && ex == Some(e)
    case LLocked(p, e, _, _) => spawned.Some? && spawned.value.LStart? && spawned.value.provider == p && ex == Some(e)
    case FStart(id) => spawned == Some(FStart(id))
    case FLocked(id) => spawned == Some(FStart(id))
    case FCalling(id, _) => spawned == Some(FStart(id))
    case FRefreshed(id, _, _) => spawned == Some(FStart(id))
    case RStart(id, kind, cred) => spawned == Some(RStart(id, kind, cred))
    case RLocked(id, kind, cred) => spawned == Some(RStart(id, kind, cred))
    case _ => true
  }

  lemma AskedLogin(w: World, a: Action, sp: Option<Thread>, ex: Option<Exchanged>)
    requires Enabled(w, a) && OfLogin(a) && a.t in w.threads && AsAsked(w.threads[a.t], sp, ex)
    requires a.t in Step(w, a).threads
    ensures AsAsked(Step(w, a).threads[a.t], sp, if a.Exchange? then Some(a.ex) else ex)
  {
    if ReadsForLogin(a) { AskedReading(w, a, sp, ex); } else { AskedEnding(w, a, sp, ex); }
  }

  lemma AskedReading(w: World, a: Action, sp: Option<Thread>, ex: Option<Exchanged>)
    requires Enabled(w, a) && ReadsForLogin(a) && AsAsked(w.threads[a.t], sp, ex)
    ensures a.t in Step(w, a).threads
    ensures AsAsked(Step(w, a).threads[a.t], sp, if a.Exchange? then Some(a.ex) else ex)
  {}

  lemma AskedEnding(w: World, a: Action, sp: Option<Thread>, ex: Option<Exchanged>)
    requires Enabled(w, a) && EndsLogin(a) && AsAsked(w.threads[a.t], sp, ex)
    ensures a.t in Step(w, a).threads && AsAsked(Step(w, a).threads[a.t], sp, ex)
  {}

  lemma AskedOther(w: World, a: Action, sp: Option<Thread>, ex: Option<Exchanged>)
    requires Enabled(w, a) && !OfLogin(a) && Actor(a).Some? && a.t in Step(w, a).threads
    requires a.t in w.threads ==> AsAsked(w.threads[a.t], sp, ex)
    ensures AsAsked(Step(w, a).threads[a.t], if a.Spawn? then Some(a.thread) else sp, ex)
  {}

  /** In every run, every call works on the account, with the credential and for the provider it was
      started with, and a login with what its own exchange yielded: so each write of the store writes
      what its caller asked for. */
  lemma {:induction false} CallsDoAsAsked(unique: bool, run: seq<Action>, k: nat, t: ThreadId)
    requires Legal(Initial(unique), run) && k <= |run| && t in WorldAt(Initial(unique), run, k).threads
    ensures AsAsked(WorldAt(Initial(unique), run, k).threads[t], Spawned(run, t, k), ExchangeOf(run, t, k))
  {
    if k > 0 {
      var w, a := WorldAt(Initial(unique), run, k - 1), run[k - 1];
      EnabledAt(Initial(unique), run, k - 1);
      StepMoves(w, a);
      if t in w.threads { CallsDoAsAsked(unique, run, k - 1, t); }
      if Actor(a) == Some(t) {
        if OfLogin(a) {
          AskedLogin(w, a, Spawned(run, t, k - 1), ExchangeOf(run, t, k - 1));
        } else {
          AskedOther(w, a, Spawned(run, t, k - 1), ExchangeOf(run, t, k - 1));
        }
      }
    }
  }

  /** The steps that end call `t`. */
  predicate EndsCall(a: Action, t: ThreadId) {
    || a == ClaimFlag(t) || a == ReleaseFlag(t) || a == GiveUpLock(t) || a == UnlockFresh(t) || a == UnlockReplace(t)
  }

  ghost predicate EndedIn(run: seq<Action>, t: ThreadId, k: nat)
    requires k <= |run|
  {
    exists j :: 0 <= j < k && EndsCall(run[j], t)
  }

  predicate PastRead(th: Thread) { th.FCalling? || th.FRefreshed? || th.FUnlocking? }

  lemma LoginMovesOn(w: World, a: Action)
    requires Enabled(w, a) && OfLogin(a)
    ensures var th := Step(w, a).threads[a.t]; !PastRead(th) && (th.Done? ==> EndsCall(a, a.t))
  {}

  /** Where a step can leave its call. */
  lemma MovesOn(w: World, a: Action)
    requires Enabled(w, a) && Actor(a).Some?
    ensures a.t in Step(w, a).threads
    ensures var th := Step(w, a).threads[a.t];
      && (th.Done? ==> EndsCall(a, a.t))
      && (PastRead(th) ==> a.ReadFresh? || (a.t in w.threads && PastRead(w.threads[a.t])))
  {
    if OfLogin(a) { LoginMovesOn(w, a); }
  }

  lemma EndsNow(w: World, a: Action, t: ThreadId)
    requires Enabled(w, a) && t in Step(w, a).threads && Step(w, a).threads[t].Done?
    ensures EndsCall(a, t) || (t in w.threads && w.threads[t].Done?)
  {
    StepMoves(w, a);
    if Actor(a) == Some(t) { MovesOn(w, a); }
  }

  /** A call is done only by a step that ends it: a login when it was refused the flag or gave it
      back, a refresh when it gave up on the lock or gave it back, a replacement when it gave it back. */
  lemma {:induction false} DoneByItsEnd(unique: bool, run: seq<Action>, k: nat, t: ThreadId)
    requires Legal(Initial(unique), run) && k <= |run|
    requires var threads := WorldAt(Initial(unique), run, k).threads; t in threads && threads[t].Done?
    ensures EndedIn(run, t, k)
  {
    if k > 0 {
      var w := WorldAt(Initial(unique), run, k - 1);
      EnabledAt(Initial(unique), run, k - 1);
      EndsNow(w, run[k - 1], t);
      if EndsCall(run[k - 1], t) {
        assert EndedIn(run, t, k);
      } else {
        DoneByItsEnd(unique, run, k - 1, t);
        var j :| 0 <= j < k - 1 && EndsCall(run[j], t);
        assert EndedIn(run, t, k);
      }
    }
  }

  lemma ReadsNow(w: World, a: Action, t: ThreadId)
    requires Enabled(w, a) && t in Step(w, a).threads && PastRead(Step(w, a).threads[t])
    ensures a == ReadFresh(t) || (t in w.threads && PastRead(w.threads[t]))
  {
    StepMoves(w, a);
    if Actor(a) == Some(t) { MovesOn(w, a); }
  }

  /** A refresh gives its lock back only after it read the row under it. */
  lemma {:induction false} RefreshReads(unique: bool, run: seq<Action>, k: nat, t: ThreadId)
    requires Legal(Initial(unique), run) && k <= |run|
    requires var threads := WorldAt(Initial(unique), run, k).threads; t in threads && PastRead(threads[t])
    ensures exists j :: 0 <= j < k && run[j] == ReadFresh(t)
  {
    if k > 0 {
      EnabledAt(Initial(unique), run, k - 1);
      ReadsNow(WorldAt(Initial(unique), run, k - 1), run[k - 1], t);
      if run[k - 1] != ReadFresh(t) { RefreshReads(unique, run, k - 1, t); }
    }
  }
}
