/** A race the account lock does not close (internal/accounts/login_coordinator.go and
    registry.go): a login decides to replace the row that owns its identity, and the row's
    credential is replaced before the login writes. */
module CredentialRaces {
  import opened Common
  import opened AccountStore
  import opened CredentialSystem

  // ---------------------------------------------------------------- from decision to write

  /** Call `t` decided to replace row `id` in place, and has not written yet. */
  predicate HoldsPlan(th: Thread, p: Provider, ex: Exchanged, id: AccountId) {
    th == LPlanned(p, ex, Swap(id, Keep)) || th == LLocked(p, ex, id, Keep)
  }

  predicate Planning(w: World, t: ThreadId, p: Provider, ex: Exchanged, id: AccountId) {
    t in w.threads && HoldsPlan(w.threads[t], p, ex, id)
  }

  /** A ReplaceCredential writes row `id`. */
  predicate Replaces(w: World, a: Action, id: AccountId) {
    a.WriteReplace? && a.t in w.threads && w.threads[a.t].RLocked? && w.threads[a.t].id == id
  }

  /** A refresh of row `id` is stored. */
  predicate Refreshes(w: World, a: Action, id: AccountId) {
    a.StoreFresh? && a.t in w.threads && w.threads[a.t].FRefreshed? && w.threads[a.t].id == id
  }

  /** What a step that writes row `id` makes its kind and credential. */
  function WrittenKind(w: World, a: Action): Kind
    requires Enabled(w, a) && (a.WriteReplace? || a.StoreFresh?)
  {
    if a.WriteReplace? then w.threads[a.t].kind else OAuthKind
  }

  function WrittenCred(w: World, a: Action): Credential
    requires Enabled(w, a) && (a.WriteReplace? || a.StoreFresh?)
  {
    if a.WriteReplace? then w.threads[a.t].cred else w.threads[a.t].renewed
  }

  /** A login that writes holds its provider's claim, so it does not touch another's planned row. */
  lemma PlannedRowWrite(w: World, a: Action, t: ThreadId, p: Provider, ex: Exchanged, id: AccountId)
    requires Inv(w) && Enabled(w, a) && Planning(w, t, p, ex, id) && Planning(Step(w, a), t, p, ex, id)
    requires WritesStore(a) && Actor(a).Some?
    ensures a.t in w.threads && a.t != t && id < w.store.nextId
    ensures a.WriteSwap? ==> w.threads[a.t].id != id || id !in w.store.rows
    ensures id in w.store.rows && Refreshes(w, a, id) ==> w.store.rows[id].kind == OAuthKind
  {
    assert ThreadOk(w.store, w.threads[t]) && ThreadOk(w.store, w.threads[a.t]);
  }

  /** What a step does to row `id`: `before` became `after`. */
  ghost predicate RowStep(w: World, a: Action, id: AccountId, before: Row, after: Row)
    requires Enabled(w, a)
  {
    if Replaces(w, a, id) || Refreshes(w, a, id) then
      && after.kind == WrittenKind(w, a) && after.cred == WrittenCred(w, a) && after.provider == before.provider
      && after.identity == if Replaces(w, a, id) then NO_IDENTITY else before.identity
    else after.(cooldown := before.cooldown) == before
  }

  lemma PlannedRowByCall(w: World, a: Action, t: ThreadId, p: Provider, ex: Exchanged, id: AccountId)
    requires Inv(w) && Enabled(w, a) && Planning(w, t, p, ex, id) && Planning(Step(w, a), t, p, ex, id)
    requires WritesStore(a) && Actor(a).Some?
    ensures id in w.store.rows <==> id in Step(w, a).store.rows
    ensures id in w.store.rows ==> RowStep(w, a, id, w.store.rows[id], Step(w, a).store.rows[id])
  {
    PlannedRowWrite(w, a, t, p, ex, id);
  }

  /** While a login holds its plan, nobody but a delete removes its row, nobody but a
      ReplaceCredential takes its identity, nobody gives it one, and only that and a refresh write
      its credential. */
  lemma PlannedRowStep(w: World, a: Action, t: ThreadId, p: Provider, ex: Exchanged, id: AccountId)
    requires Inv(w) && Enabled(w, a) && Planning(w, t, p, ex, id) && Planning(Step(w, a), t, p, ex, id)
    ensures id in Step(w, a).store.rows <==> id in w.store.rows && a != Delete(id)
    ensures id in Step(w, a).store.rows ==> RowStep(w, a, id, w.store.rows[id], Step(w, a).store.rows[id])
  {
    assert ThreadOk(w.store, w.threads[t]);
    if !WritesStore(a) {
      StoreKept(w, a);
    } else if Actor(a).Some? {
      PlannedRowByCall(w, a, t, p, ex, id);
    }
  }

  // ---------------------------------------------------------------- over a run

  predicate DeletedAt(run: seq<Action>, k: int, id: AccountId) { 0 <= k < |run| && run[k] == Delete(id) }

  predicate ReplacedAt(w: World, run: seq<Action>, k: int, id: AccountId)
    requires Legal(w, run)
  {
    0 <= k < |run| && Replaces(WorldAt(w, run, k), run[k], id)
  }

  /** A ReplaceCredential or a refresh writes the row. */
  predicate WrittenAt(w: World, run: seq<Action>, k: int, id: AccountId)
    requires Legal(w, run)
  {
    0 <= k < |run| && (ReplacedAt(w, run, k, id) || Refreshes(WorldAt(w, run, k), run[k], id))
  }

  lemma Shifted(w: World, run: seq<Action>, k: int, id: AccountId)
    requires Legal(w, run) && run != [] && k >= 1
    ensures DeletedAt(run, k, id) <==> DeletedAt(run[1..], k - 1, id)
    ensures ReplacedAt(w, run, k, id) <==> ReplacedAt(Step(w, run[0]), run[1..], k - 1, id)
    ensures WrittenAt(w, run, k, id) <==> WrittenAt(Step(w, run[0]), run[1..], k - 1, id)
  {}

  predicate PastWrite(w: World, t: ThreadId) {
    t in w.threads && (w.threads[t].LWritten? || w.threads[t].LLeaving? || w.threads[t].Done?)
  }

  lemma PastStep(w: World, a: Action, t: ThreadId)
    requires Enabled(w, a) && PastWrite(w, t)
    ensures PastWrite(Step(w, a), t)
  {
    StepMoves(w, a);
    if Actor(a) == Some(t) { OwnPastStep(w, a); }
  }

  lemma OwnPastStep(w: World, a: Action)
    requires Enabled(w, a) && Actor(a).Some? && PastWrite(w, a.t)
    ensures (a.UnlockSwap? || a.ReleaseFlag?) && PastWrite(Step(w, a), a.t)
  {}

  lemma PlanStep(w: World, a: Action, t: ThreadId, p: Provider, ex: Exchanged, id: AccountId)
    requires Enabled(w, a) && Planning(w, t, p, ex, id)
    ensures Planning(Step(w, a), t, p, ex, id) || PastWrite(Step(w, a), t)
  {
    StepMoves(w, a);
    if Actor(a) == Some(t) { OwnPlanStep(w, a, p, ex, id); }
  }

  lemma OwnPlanStep(w: World, a: Action, p: Provider, ex: Exchanged, id: AccountId)
    requires Enabled(w, a) && Actor(a).Some? && Planning(w, a.t, p, ex, id)
    ensures a.LockSwap? || a.WriteSwap?
    ensures Planning(Step(w, a), a.t, p, ex, id) || PastWrite(Step(w, a), a.t)
  {}

  lemma {:induction false} PastStays(w: World, run: seq<Action>, t: ThreadId)
    requires Legal(w, run) && PastWrite(w, t)
    ensures PastWrite(After(w, run), t)
    decreases |run|
  {
    if run != [] {
      PastStep(w, run[0], t);
      PastStays(Step(w, run[0]), run[1..], t);
    }
  }

  /** A login that holds its plan at both ends of a run holds it throughout. */
  lemma StillPlanning(w: World, run: seq<Action>, t: ThreadId, p: Provider, ex: Exchanged, id: AccountId)
    requires Legal(w, run) && run != [] && Planning(w, t, p, ex, id) && Planning(After(w, run), t, p, ex, id)
    ensures Planning(Step(w, run[0]), t, p, ex, id)
  {
    PlanStep(w, run[0], t, p, ex, id);
    if PastWrite(Step(w, run[0]), t) { PastStays(Step(w, run[0]), run[1..], t); }
  }

  lemma {:induction false} RowPresentIff(
    w: World, run: seq<Action>, t: ThreadId, p: Provider, ex: Exchanged, id: AccountId)
    requires Inv(w) && Legal(w, run) && Planning(w, t, p, ex, id) && Planning(After(w, run), t, p, ex, id)
    ensures id in After(w, run).store.rows <==> id in w.store.rows && forall k :: !DeletedAt(run, k, id)
    decreases |run|
  {
    if run != [] {
      var w', rest := Step(w, run[0]), run[1..];
      StillPlanning(w, run, t, p, ex, id);
      InvStep(w, run[0]);
      PlannedRowStep(w, run[0], t, p, ex, id);
      RowPresentIff(w', rest, t, p, ex, id);
      assert forall k :: DeletedAt(rest, k, id) ==> DeletedAt(run, k + 1, id);
      assert forall k :: DeletedAt(run, k, id) ==> k == 0 || DeletedAt(rest, k - 1, id);
      assert DeletedAt(run, 0, id) <==> run[0] == Delete(id);
    }
  }

  lemma {:induction false} OwnedIff(
    w: World, run: seq<Action>, t: ThreadId, p: Provider, ex: Exchanged, id: AccountId)
    requires Inv(w) && Legal(w, run) && Planning(w, t, p, ex, id) && Planning(After(w, run), t, p, ex, id)
    requires id in After(w, run).store.rows && ex.identity != NO_IDENTITY
    ensures id in w.store.rows
    ensures Owns(After(w, run).store.rows[id], p, ex.identity) <==>
      Owns(w.store.rows[id], p, ex.identity) && forall k :: !ReplacedAt(w, run, k, id)
    decreases |run|
  {
    RowPresentIff(w, run, t, p, ex, id);
    if run != [] {
      var w', rest := Step(w, run[0]), run[1..];
      StillPlanning(w, run, t, p, ex, id);
      InvStep(w, run[0]);
      PlannedRowStep(w, run[0], t, p, ex, id);
      OwnedIff(w', rest, t, p, ex, id);
      forall k | k >= 1 ensures ReplacedAt(w, run, k, id) <==> ReplacedAt(w', rest, k - 1, id) {
        Shifted(w, run, k, id);
      }
      assert forall k :: ReplacedAt(w', rest, k, id) ==> ReplacedAt(w, run, k + 1, id);
      assert forall k :: ReplacedAt(w, run, k, id) ==> k == 0 || ReplacedAt(w', rest, k - 1, id);
      assert ReplacedAt(w, run, 0, id) <==> Replaces(w, run[0], id);
    }
  }

  /** A row nobody wrote since keeps its kind and credential. */
  lemma {:induction false} Unwritten(
    w: World, run: seq<Action>, t: ThreadId, p: Provider, ex: Exchanged, id: AccountId)
    requires Inv(w) && Legal(w, run) && Planning(w, t, p, ex, id) && Planning(After(w, run), t, p, ex, id)
    requires id in After(w, run).store.rows && forall k :: !WrittenAt(w, run, k, id)
    ensures id in w.store.rows
    ensures After(w, run).store.rows[id].kind == w.store.rows[id].kind
    ensures After(w, run).store.rows[id].cred == w.store.rows[id].cred
    decreases |run|
  {
    RowPresentIff(w, run, t, p, ex, id);
    if run != [] {
      var w', rest := Step(w, run[0]), run[1..];
      StillPlanning(w, run, t, p, ex, id);
      InvStep(w, run[0]);
      PlannedRowStep(w, run[0], t, p, ex, id);
      forall k ensures !WrittenAt(w', rest, k, id) {
        if k >= 0 { Shifted(w, run, k + 1, id); }
      }
      assert !WrittenAt(w, run, 0, id);
      Unwritten(w', rest, t, p, ex, id);
    }
  }

  /** The last write of the row since. */
  ghost predicate LastWriteAt(w: World, run: seq<Action>, k: int, id: AccountId)
    requires Legal(w, run)
  {
    WrittenAt(w, run, k, id) && forall j :: k < j ==> !WrittenAt(w, run, j, id)
  }

  /** The last write stands. */
  lemma {:induction false} LastWriteStands(
    w: World, run: seq<Action>, t: ThreadId, p: Provider, ex: Exchanged, id: AccountId, k: nat)
    requires Inv(w) && Legal(w, run) && Planning(w, t, p, ex, id) && Planning(After(w, run), t, p, ex, id)
    requires id in After(w, run).store.rows && LastWriteAt(w, run, k, id)
    ensures Enabled(WorldAt(w, run, k), run[k])
    ensures After(w, run).store.rows[id].kind == WrittenKind(WorldAt(w, run, k), run[k])
    ensures After(w, run).store.rows[id].cred == WrittenCred(WorldAt(w, run, k), run[k])
    decreases |run|
  {
    var w', rest := Step(w, run[0]), run[1..];
    EnabledAt(w, run, k);
    StillPlanning(w, run, t, p, ex, id);
    InvStep(w, run[0]);
    RowPresentIff(w', rest, t, p, ex, id);
    forall j | j >= k ensures WrittenAt(w', rest, j, id) <==> WrittenAt(w, run, j + 1, id) {
      Shifted(w, run, j + 1, id);
    }
    if k == 0 {
      PlannedRowStep(w, run[0], t, p, ex, id);
      assert forall j :: WrittenAt(w', rest, j, id) ==> j >= 0;
      Unwritten(w', rest, t, p, ex, id);
    } else {
      Shifted(w, run, k, id);
      LastWriteStands(w', rest, t, p, ex, id, k - 1);
    }
  }

  lemma {:induction false} SomeLastWrite(w: World, run: seq<Action>, id: AccountId, k: nat) returns (last: nat)
    requires Legal(w, run) && WrittenAt(w, run, k, id)
    ensures LastWriteAt(w, run, last, id)
    decreases |run| - k
  {
    if j :| k < j && WrittenAt(w, run, j, id) {
      last := SomeLastWrite(w, run, id, j);
    } else {
      last := k;
    }
  }

  /** The row a login finds at its write is an API-key row iff the last write of it since was a
      ReplaceCredential with an API key. */
  lemma MeetsApiKeyIff(w: World, run: seq<Action>, t: ThreadId, p: Provider, ex: Exchanged, id: AccountId)
    requires Inv(w) && Legal(w, run) && Planning(w, t, p, ex, id) && Planning(After(w, run), t, p, ex, id)
    requires id in After(w, run).store.rows && id in w.store.rows && w.store.rows[id].kind == OAuthKind
    ensures After(w, run).store.rows[id].kind == ApiKeyKind <==>
      exists k :: LastWriteAt(w, run, k, id) && ReplacedAt(w, run, k, id)
                  && WorldAt(w, run, k).threads[run[k].t].kind == ApiKeyKind
  {
    if k :| WrittenAt(w, run, k, id) {
      var last := SomeLastWrite(w, run, id, k);
      LastWriteStands(w, run, t, p, ex, id, last);
      assert forall j :: LastWriteAt(w, run, j, id) ==> j == last;
    } else {
      Unwritten(w, run, t, p, ex, id);
    }
  }

  // ---------------------------------------------------------------- the write itself

  /** The in-place write puts the login's credential into the row and leaves the identity the row
      has: the login's own, or none. A row that is gone stays gone. */
  lemma KeepWrite(w: World, t: ThreadId)
    requires Reachable(w) && t in w.threads && w.threads[t].LLocked? && w.threads[t].mode == Keep
    ensures var LLocked(p, ex, id, _) := w.threads[t];
      var st' := WriteSwapStep(w, t).store;
      if id !in w.store.rows then st' == w.store
      else
        && st' == w.store.(rows := w.store.rows[id := w.store.rows[id].(kind := OAuthKind, cred := ex.cred)])
        && ex.cred.OAuth? && ex.cred.vendor == ex.identity != NO_IDENTITY && w.store.rows[id].provider == p
        && (Owns(w.store.rows[id], p, ex.identity) || w.store.rows[id].identity == NO_IDENTITY)
  {
    ReachableInv(w);
    assert ThreadOk(w.store, w.threads[t]);
  }

  /** A login decides to replace in place the row that owns its identity, anything happens, and it
      writes. Its row is there after the write iff no delete of it came in between; it then holds
      the login's credential, and owns the login's identity iff no ReplaceCredential of the row came
      in between, and otherwise has no identity. The row it writes over is an API-key row iff the
      last write of it in between was a ReplaceCredential with an API key. */
  lemma DecisionToWrite(w: World, t: ThreadId, p: Provider, ex: Exchanged, id: AccountId, run: seq<Action>)
    requires Reachable(w) && Enabled(w, ReadOwner(t, Some(id)))
    requires Step(w, ReadOwner(t, Some(id))).threads[t] == LPlanned(p, ex, Swap(id, Keep))
    requires Legal(Step(w, ReadOwner(t, Some(id))), run)
    requires t in After(Step(w, ReadOwner(t, Some(id))), run).threads
    requires After(Step(w, ReadOwner(t, Some(id))), run).threads[t] == LLocked(p, ex, id, Keep)
    ensures var w1 := Step(w, ReadOwner(t, Some(id)));
      var w2 := After(w1, run);
      var rows := WriteSwapStep(w2, t).store.rows;
      && (id in rows <==> forall k :: !DeletedAt(run, k, id))
      && (id in rows ==>
            && rows[id].kind == OAuthKind && rows[id].cred == ex.cred && rows[id].provider == p
            && (Owns(rows[id], p, ex.identity) <==> forall k :: !ReplacedAt(w1, run, k, id))
            && (!Owns(rows[id], p, ex.identity) ==> rows[id].identity == NO_IDENTITY)
            && id in w2.store.rows
            && (w2.store.rows[id].kind == ApiKeyKind <==>
                  exists k :: LastWriteAt(w1, run, k, id) && ReplacedAt(w1, run, k, id)
                              && WorldAt(w1, run, k).threads[run[k].t].kind == ApiKeyKind))
  {
    var w1 := Step(w, ReadOwner(t, Some(id)));
    var w2 := After(w1, run);
    DecidedOnOwner(w, t, id);
    ReachNext(w, ReadOwner(t, Some(id)), w1);
    ReachRun(w1, run);
    ReachableInv(w1);
    KeepWrite(w2, t);
    RowPresentIff(w1, run, t, p, ex, id);
    if id in w2.store.rows {
      OwnedIff(w1, run, t, p, ex, id);
      MeetsApiKeyIff(w1, run, t, p, ex, id);
    }
  }

  /** At its decision the row owns the identity, and is an OAuth row. */
  lemma DecidedOnOwner(w: World, t: ThreadId, id: AccountId)
    requires Reachable(w) && Enabled(w, ReadOwner(t, Some(id)))
    ensures var (w', th) := (Step(w, ReadOwner(t, Some(id))), w.threads[t]);
      && w'.store == w.store && id in w.store.rows && th.ex.identity != NO_IDENTITY
      && Owns(w.store.rows[id], th.provider, th.ex.identity) && w.store.rows[id].kind == OAuthKind
      && t in w'.threads
      && (w'.threads[t].LPlanned? ==> w'.threads[t].ex == th.ex && w'.threads[t].provider == th.provider)
  {
    ReachableInv(w);
  }

  // ---------------------------------------------------------------- runs, piece by piece

  lemma {:induction false} AfterAppend(w: World, run: seq<Action>, a: Action)
    requires Legal(w, run) && Enabled(After(w, run), a)
    ensures Legal(w, run + [a]) && After(w, run + [a]) == Step(After(w, run), a)
    decreases |run|
  {
    var run' := run + [a];
    if run == [] {
      assert run'[1..] == [];
    } else {
      AfterAppend(Step(w, run[0]), run[1..], a);
      assert run'[1..] == run[1..] + [a];
    }
  }

  lemma ReachNext(w: World, a: Action, w': World)
    requires Reachable(w) && Enabled(w, a) && w' == Step(w, a)
    ensures Reachable(w')
  {
    var run :| Legal(Initial(w.unique), run) && After(Initial(w.unique), run) == w;
    AfterAppend(Initial(w.unique), run, a);
    StepKeepsUnique(w, a);
  }

  lemma GotoTwice(w: World, t: ThreadId, th: Thread)
    ensures forall x :: Goto(Goto(w, t, x), t, th) == Goto(w, t, th)
  {
    forall x ensures Goto(Goto(w, t, x), t, th) == Goto(w, t, th) {
      assert w.threads[t := x][t := th] == w.threads[t := th];
    }
  }

  /** `w` with call `t` at `th`, wherever it was. */
  function At(w: World, t: ThreadId, th: Thread): (w': World)
    ensures forall x :: Goto(Goto(w, t, x), t, th) == w'
  {
    GotoTwice(w, t, th);
    Goto(w, t, th)
  }

  lemma LoginStarts(w: World, t: ThreadId, p: Provider, ex: Exchanged)
    requires Reachable(w) && t !in w.threads && p !in w.claims && ExchangeOk(ex)
    ensures Reachable(At(w.(claims := w.claims[p := t]), t, LExchanged(p, NO_ACCOUNT, ex)))
  {
    var claimed := w.(claims := w.claims[p := t]);
    var started, holding := At(w, t, LStart(p, NO_ACCOUNT)), At(claimed, t, LClaimed(p, NO_ACCOUNT));
    assert Reachable(started) by { ReachNext(w, Spawn(t, LStart(p, NO_ACCOUNT)), started); }
    assert Reachable(holding) by { ReachNext(started, ClaimFlag(t), holding); }
    ReachNext(holding, Exchange(t, ex), At(claimed, t, LExchanged(p, NO_ACCOUNT, ex)));
  }

  lemma LoginReads(w: World, t: ThreadId, p: Provider, ex: Exchanged, owner: Option<AccountId>)
    requires Reachable(At(w, t, LExchanged(p, NO_ACCOUNT, ex))) && MayFind(w.store, p, ex.identity, owner)
    ensures Reachable(At(w, t, LPlanned(p, ex, Decide(NO_ACCOUNT, NO_IDENTITY, ex.identity, owner))))
  {
    var plan := Decide(NO_ACCOUNT, NO_IDENTITY, ex.identity, owner);
    var exchanged, read := At(w, t, LExchanged(p, NO_ACCOUNT, ex)), At(w, t, LTarget(p, NO_ACCOUNT, ex, NO_IDENTITY));
    assert Reachable(read) by { ReachNext(exchanged, ReadTarget(t), read); }
    ReachNext(read, ReadOwner(t, owner), At(w, t, LPlanned(p, ex, plan)));
  }

  lemma {:induction false} ReachRun(w: World, run: seq<Action>)
    requires Reachable(w) && Legal(w, run)
    ensures Reachable(After(w, run))
    decreases |run|
  {
    if run != [] {
      ReachNext(w, run[0], Step(w, run[0]));
      ReachRun(Step(w, run[0]), run[1..]);
    }
  }

  /** A login that names no account, up to its decision. */
  lemma LoginDecides(w: World, t: ThreadId, p: Provider, ex: Exchanged, owner: Option<AccountId>)
    requires Reachable(w) && t !in w.threads && p !in w.claims && ExchangeOk(ex)
    requires MayFind(w.store, p, ex.identity, owner)
    ensures Reachable(w.(claims := w.claims[p := t],
      threads := w.threads[t := LPlanned(p, ex, Decide(NO_ACCOUNT, NO_IDENTITY, ex.identity, owner))]))
  {
    LoginStarts(w, t, p, ex);
    LoginReads(w.(claims := w.claims[p := t]), t, p, ex, owner);
  }

  /** A login that decided to insert, to its end. */
  lemma LoginInserts(w: World, t: ThreadId)
    requires Reachable(w) && t in w.threads && w.threads[t].LPlanned? && w.threads[t].plan == Insert
    ensures var LPlanned(p, ex, _) := w.threads[t];
      Reachable(w.(store := InsertRow(w.store, Row(p, OAuthKind, ex.cred, ex.identity, false)),
                   claims := w.claims - {p}, threads := w.threads[t := Done]))
  {
    var LPlanned(p, ex, _) := w.threads[t];
    WritesNeverConflict(w, t);
    var written := w.(store := InsertRow(w.store, Row(p, OAuthKind, ex.cred, ex.identity, false)));
    ReachNext(w, WriteInsert(t), At(written, t, LLeaving(p)));
    ReachNext(At(written, t, LLeaving(p)), ReleaseFlag(t), At(written.(claims := w.claims - {p}), t, Done));
  }

  function Locked(w: World, id: AccountId, t: ThreadId): World { w.(slots := w.slots[id := t]) }

  function WithStore(w: World, st: Store): World { w.(store := st) }

  lemma SwapWrites(w: World, t: ThreadId, p: Provider, ex: Exchanged, id: AccountId)
    requires Reachable(w) && t in w.threads && w.threads[t] == LPlanned(p, ex, Swap(id, Keep)) && id !in w.slots
    ensures var done := WithStore(w, ReplaceRow(w.store, id, OAuthKind, ex.cred, Keep));
      Reachable(At(Locked(done, id, t), t, LWritten(p, id)))
  {
    var locked := At(Locked(w, id, t), t, LLocked(p, ex, id, Keep));
    assert Reachable(locked) by { ReachNext(w, LockSwap(t), locked); }
    ReachNext(locked, WriteSwap(t),
              At(Locked(WithStore(w, ReplaceRow(w.store, id, OAuthKind, ex.cred, Keep)), id, t), t, LWritten(p, id)));
  }

  lemma SwapUnlocks(w: World, t: ThreadId, p: Provider, id: AccountId)
    requires Reachable(At(Locked(w, id, t), t, LWritten(p, id))) && id !in w.slots
    ensures Reachable(At(w, t, LLeaving(p)))
  {
    assert w.slots[id := t] - {id} == w.slots;
    ReachNext(At(Locked(w, id, t), t, LWritten(p, id)), UnlockSwap(t), At(w, t, LLeaving(p)));
  }

  lemma SwapEnds(w: World, t: ThreadId, p: Provider, id: AccountId)
    requires Reachable(At(Locked(w, id, t), t, LWritten(p, id))) && id !in w.slots
    ensures Reachable(At(w.(claims := w.claims - {p}), t, Done))
  {
    SwapUnlocks(w, t, p, id);
    ReachNext(At(w, t, LLeaving(p)), ReleaseFlag(t), At(w.(claims := w.claims - {p}), t, Done));
  }

  /** A login that decided to replace in place, to its end, when the row's lock is free. */
  lemma LoginReplaces(w: World, t: ThreadId, p: Provider, ex: Exchanged, id: AccountId)
    requires Reachable(w) && t in w.threads && w.threads[t] == LPlanned(p, ex, Swap(id, Keep)) && id !in w.slots
    ensures Reachable(w.(store := ReplaceRow(w.store, id, OAuthKind, ex.cred, Keep),
                         claims := w.claims - {p}, threads := w.threads[t := Done]))
  {
    SwapWrites(w, t, p, ex, id);
    SwapEnds(WithStore(w, ReplaceRow(w.store, id, OAuthKind, ex.cred, Keep)), t, p, id);
  }

  lemma ReplaceLocks(w: World, t: ThreadId, id: AccountId, kind: Kind, cred: Credential)
    requires Reachable(w) && t !in w.threads && id !in w.slots && Fits(kind, cred)
    ensures Reachable(At(Locked(w, id, t), t, RLocked(id, kind, cred)))
  {
    var started := At(w, t, RStart(id, kind, cred));
    assert Reachable(started) by { ReachNext(w, Spawn(t, RStart(id, kind, cred)), started); }
    ReachNext(started, LockReplace(t), At(Locked(w, id, t), t, RLocked(id, kind, cred)));
  }

  lemma ReplaceWrites(w: World, t: ThreadId, id: AccountId, kind: Kind, cred: Credential)
    requires Reachable(At(Locked(w, id, t), t, RLocked(id, kind, cred)))
    ensures Reachable(At(Locked(WithStore(w, ReplaceRow(w.store, id, kind, cred, Clear)), id, t), t, RUnlocking(id)))
  {
    var written := At(Locked(WithStore(w, ReplaceRow(w.store, id, kind, cred, Clear)), id, t), t, RUnlocking(id));
    ReachNext(At(Locked(w, id, t), t, RLocked(id, kind, cred)), WriteReplace(t), written);
  }

  lemma ReplaceUnlocks(w: World, t: ThreadId, id: AccountId)
    requires Reachable(At(Locked(w, id, t), t, RUnlocking(id))) && id !in w.slots
    ensures Reachable(At(w, t, Done))
  {
    assert w.slots[id := t] - {id} == w.slots;
    ReachNext(At(Locked(w, id, t), t, RUnlocking(id)), UnlockReplace(t), At(w, t, Done));
  }

  /** A whole ReplaceCredential, when the row's lock is free. */
  lemma CredentialReplaced(w: World, t: ThreadId, id: AccountId, kind: Kind, cred: Credential)
    requires Reachable(w) && t !in w.threads && id !in w.slots && Fits(kind, cred)
    ensures Reachable(w.(store := ReplaceRow(w.store, id, kind, cred, Clear), threads := w.threads[t := Done]))
  {
    ReplaceLocks(w, t, id, kind, cred);
    ReplaceWrites(w, t, id, kind, cred);
    ReplaceUnlocks(WithStore(w, ReplaceRow(w.store, id, kind, cred, Clear)), t, id);
  }

  /** The race, for any provider, identity and credentials: the login of a known vendor account
      loses its row's identity to a ReplaceCredential between its decision and its write, and the
      account's next login gets a second row. Two rows then hold credentials of one vendor account,
      only one of them under its identity. */
  lemma SecondRow(unique: bool, p: Provider, i: Identity, c1: Credential, c2: Credential, c3: Credential, key: Token)
    returns (w: World)
    requires i != NO_IDENTITY && forall c :: c in {c1, c2, c3} ==> ExchangeOk(Exchanged(c, i))
    ensures Reachable(w) && w.store.rows.Keys == {1, 2}
    ensures w.store.rows[1] == Row(p, OAuthKind, c2, NO_IDENTITY, false) && c2.OAuth? && c2.vendor == i
    ensures w.store.rows[2] == Row(p, OAuthKind, c3, i, false)
  {
    w := Initial(unique);
    var run: seq<Action> := [];
    assert Legal(w, run) && After(w, run) == w;
    w := FirstLogin(w, p, i, c1);
    w := KeepAfterReplace(w, p, i, c1, c2, key);
    LoginDecides(w, 4, p, Exchanged(c3, i), None);
    w := w.(claims := w.claims[p := 4], threads := w.threads[4 := LPlanned(p, Exchanged(c3, i), Insert)]);
    LoginInserts(w, 4);
    w := w.(store := InsertRow(w.store, Row(p, OAuthKind, c3, i, false)),
            claims := w.claims - {p}, threads := w.threads[4 := Done]);
  }

  lemma FirstLogin(w: World, p: Provider, i: Identity, c1: Credential) returns (w': World)
    requires Reachable(w) && w == Initial(w.unique) && i != NO_IDENTITY && ExchangeOk(Exchanged(c1, i))
    ensures Reachable(w') && w'.claims == map[] && w'.slots == map[] && w'.threads == map[1 := Done]
    ensures w'.store == Store(map[1 := Row(p, OAuthKind, c1, i, false)], 2)
  {
    LoginDecides(w, 1, p, Exchanged(c1, i), None);
    w' := w.(claims := w.claims[p := 1], threads := w.threads[1 := LPlanned(p, Exchanged(c1, i), Insert)]);
    LoginInserts(w', 1);
    w' := w'.(store := InsertRow(w'.store, Row(p, OAuthKind, c1, i, false)),
              claims := w'.claims - {p}, threads := w'.threads[1 := Done]);
  }

  lemma KeepAfterReplace(w: World, p: Provider, i: Identity, c1: Credential, c2: Credential, key: Token)
    returns (w': World)
    requires Reachable(w) && w.claims == map[] && w.slots == map[] && w.threads == map[1 := Done]
    requires w.store == Store(map[1 := Row(p, OAuthKind, c1, i, false)], 2)
    requires i != NO_IDENTITY && ExchangeOk(Exchanged(c2, i))
    ensures Reachable(w') && w'.claims == map[] && w'.slots == map[] && 4 !in w'.threads
    ensures w'.store == Store(map[1 := Row(p, OAuthKind, c2, NO_IDENTITY, false)], 2)
  {
    LoginDecides(w, 2, p, Exchanged(c2, i), Some(1));
    w' := w.(claims := w.claims[p := 2], threads := w.threads[2 := LPlanned(p, Exchanged(c2, i), Swap(1, Keep))]);
    CredentialReplaced(w', 3, 1, ApiKeyKind, ApiKey(key));
    w' := w'.(store := ReplaceRow(w'.store, 1, ApiKeyKind, ApiKey(key), Clear), threads := w'.threads[3 := Done]);
    LoginReplaces(w', 2, p, Exchanged(c2, i), 1);
    w' := w'.(store := ReplaceRow(w'.store, 1, OAuthKind, c2, Keep),
              claims := w'.claims - {p}, threads := w'.threads[2 := Done]);
  }
}
