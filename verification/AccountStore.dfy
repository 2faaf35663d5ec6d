/** Account rows, the store operations on them (internal/store/accounts.go), and `persist`,
    which files a finished login (internal/accounts/login_coordinator.go). */
module AccountStore {
  import opened Common

  type Provider = int
  type AccountId = int

  /** A stable vendor identity; NO_IDENTITY is the empty string of the source. */
  type Identity = int
  const NO_IDENTITY: Identity := 0

  /** A token; NO_TOKEN is the empty string of the source. */
  type Token = int
  const NO_TOKEN: Token := 0

  /** The id that names no account in a login request. */
  const NO_ACCOUNT: AccountId := 0

  datatype Kind = ApiKeyKind | OAuthKind

  /** A decoded credential. `vendor` is the identity of the vendor account the tokens belong
      to: a fact about the world that no operation reads. */
  datatype Credential =
    | ApiKey(key: Token)
    | OAuth(access: Token, refresh: Token, expires: int, vendor: Identity)

  /** An accounts row; the credential type is stored apart from the credential data. */
  datatype Row = Row(provider: Provider, kind: Kind, cred: Credential, identity: Identity, cooldown: bool)

  /** `nextId` is the AUTOINCREMENT counter: ids are never reused. */
  datatype Store = Store(rows: map<AccountId, Row>, nextId: AccountId)

  /** How ReplaceOAuth writes: keep the identity, adopt one, or clear it. */
  datatype Mode = Keep | Adopt(identity: Identity) | Clear

  datatype Exchanged = Exchanged(cred: Credential, identity: Identity)

  datatype LoginError = UnknownAccount | NotOAuthAccount | IdentityUnverified | IdentityMismatch | IdentityInUse

  datatype LoginResult = Created(id: AccountId) | Replaced(id: AccountId, adopted: bool) | Refused(error: LoginError)

  /** What persist decided to do, before the write. */
  datatype Plan = Refuse(error: LoginError) | Swap(id: AccountId, mode: Mode) | Insert

  // ---------------------------------------------------------------- store operations

  predicate Owns(row: Row, p: Provider, i: Identity) { row.provider == p && row.identity == i }

  /** Does a row other than `except` own the identity? (the partial unique index) */
  predicate TakenByOther(st: Store, p: Provider, i: Identity, except: AccountId) {
    i != NO_IDENTITY && exists id :: id in st.rows && id != except && Owns(st.rows[id], p, i)
  }

  predicate Unowned(st: Store, p: Provider, i: Identity) {
    forall id :: id in st.rows ==> !Owns(st.rows[id], p, i)
  }

  function InsertRow(st: Store, row: Row): Store {
    Store(st.rows[st.nextId := row], st.nextId + 1)
  }

  function ReplacedRow(row: Row, kind: Kind, cred: Credential, mode: Mode): Row {
    match mode
    case Keep => row.(kind := kind, cred := cred)
    case Adopt(i) => row.(kind := kind, cred := cred, identity := i, cooldown := false)
    case Clear => row.(kind := kind, cred := cred, identity := NO_IDENTITY, cooldown := false)
  }

  /** The replace transaction; a missing row is left missing. */
  function ReplaceRow(st: Store, id: AccountId, kind: Kind, cred: Credential, mode: Mode): Store {
    if id in st.rows then st.(rows := st.rows[id := ReplacedRow(st.rows[id], kind, cred, mode)]) else st
  }

  /** UpdateAccountCredential: credential data only. */
  function UpdateRow(st: Store, id: AccountId, cred: Credential): Store {
    if id in st.rows then st.(rows := st.rows[id := st.rows[id].(cred := cred)]) else st
  }

  function DeleteRow(st: Store, id: AccountId): Store { st.(rows := st.rows - {id}) }

  // ---------------------------------------------------------------- refreshing

  const EXPIRY_BUFFER := 30

  /** The fields a token endpoint answers a refresh with. */
  datatype TokenResponse = TokenResponse(access: Token, refresh: Token, expires: int)

  /** The credential every refresher builds: the old refresh token is kept when the answer has
      none; a refresh keeps the vendor account. */
  function RefreshedCredential(base: Credential, tok: TokenResponse): (c: Credential)
    requires base.OAuth?
    ensures c.OAuth? && c.vendor == base.vendor && c.access == tok.access && c.expires == tok.expires
    ensures c.refresh == NO_TOKEN <==> base.refresh == NO_TOKEN && tok.refresh == NO_TOKEN
    ensures tok.refresh != NO_TOKEN ==> c.refresh == tok.refresh
    ensures c.refresh == base.refresh || c.refresh == tok.refresh
  {
    OAuth(tok.access, if tok.refresh == NO_TOKEN then base.refresh else tok.refresh, tok.expires, base.vendor)
  }

  predicate Due(cred: Credential, now: int)
    requires cred.OAuth?
  {
    !(now + EXPIRY_BUFFER < cred.expires)
  }

  // ---------------------------------------------------------------- persist

  /** reloginTarget: the named row, or why it cannot be re-logged in. */
  function ReloginTarget(st: Store, p: Provider, id: AccountId): Option<LoginError> {
    if id !in st.rows || st.rows[id].provider != p then Some(UnknownAccount)
    else if st.rows[id].kind != OAuthKind then Some(NotOAuthAccount)
    else None
  }

  /** The switch of persist, over what it read: the named row's identity and the owner. */
  function Decide(account: AccountId, targetIdentity: Identity, identity: Identity, owner: Option<AccountId>): Plan {
    if account != NO_ACCOUNT then
      if identity == NO_IDENTITY then
        if targetIdentity != NO_IDENTITY then Refuse(IdentityUnverified) else Swap(account, Clear)
      else if owner == Some(account) then Swap(account, Keep)
      else if targetIdentity != NO_IDENTITY then Refuse(IdentityMismatch)
      else if owner.Some? then Refuse(IdentityInUse)
      else Swap(account, Adopt(identity))
    else if owner.Some? then Swap(owner.value, Keep)
    else Insert
  }

  /** GetAccountByIdentity may answer `owner`. */
  predicate MayFind(st: Store, p: Provider, i: Identity, owner: Option<AccountId>) {
    match owner
    case None => i == NO_IDENTITY || Unowned(st, p, i)
    case Some(id) => i != NO_IDENTITY && id in st.rows && Owns(st.rows[id], p, i)
  }

  /** What the credential store keeps true: kinds and credentials agree, an identity is that of
      the row's own OAuth credential, and no two rows of a provider share one. */
  ghost predicate RowsOk(st: Store) {
    forall id :: id in st.rows ==> id < st.nextId && RowOk(st.rows[id])
  }

  predicate RowOk(row: Row) {
    && (row.kind == OAuthKind <==> row.cred.OAuth?)
    && (row.identity != NO_IDENTITY ==> row.cred.OAuth? && row.cred.vendor == row.identity)
  }

  ghost predicate IdentitiesUnique(st: Store) {
    forall i, j :: i in st.rows && j in st.rows && i != j && st.rows[i].identity != NO_IDENTITY ==>
      !Owns(st.rows[j], st.rows[i].provider, st.rows[i].identity)
  }

  ghost predicate Good(st: Store) { 0 < st.nextId && RowsOk(st) && IdentitiesUnique(st) }

  /** An exchange yields an OAuth credential of the vendor account it identifies, if any. */
  predicate ExchangeOk(ex: Exchanged) {
    ex.cred.OAuth? && (ex.identity != NO_IDENTITY ==> ex.cred.vendor == ex.identity)
  }

  function Apply(st: Store, p: Provider, ex: Exchanged, plan: Plan): (Store, LoginResult) {
    match plan
    case Refuse(e) => (st, Refused(e))
    case Swap(id, mode) => (ReplaceRow(st, id, OAuthKind, ex.cred, mode), Replaced(id, mode.Adopt?))
    case Insert => (InsertRow(st, Row(p, OAuthKind, ex.cred, ex.identity, false)), Created(st.nextId))
  }

  /** persist run as one step, with `owner` what findByIdentity answered. */
  function PersistOnce(st: Store, p: Provider, account: AccountId, ex: Exchanged, owner: Option<AccountId>)
    : (Store, LoginResult)
    requires MayFind(st, p, ex.identity, owner)
  {
    if account != NO_ACCOUNT && ReloginTarget(st, p, account).Some?
    then (st, Refused(ReloginTarget(st, p, account).value))
    else
      var targetIdentity := if account != NO_ACCOUNT then st.rows[account].identity else NO_IDENTITY;
      Apply(st, p, ex, Decide(account, targetIdentity, ex.identity, owner))
  }

  /** Two stores that differ in row `id` at most. */
  predicate DifferOnlyAt(st: Store, st': Store, id: AccountId) { st'.rows - {id} == st.rows - {id} }

  /** persist keeps the store good; it refuses and changes nothing, or changes one row. */
  lemma PersistChangesOneRow(st: Store, p: Provider, account: AccountId, ex: Exchanged, owner: Option<AccountId>)
    requires Good(st) && ExchangeOk(ex) && MayFind(st, p, ex.identity, owner)
    ensures var (st', r) := PersistOnce(st, p, account, ex, owner);
      && Good(st')
      && (r.Refused? ==> st' == st)
      && (!r.Refused? ==> r.id in st'.rows && DifferOnlyAt(st, st', r.id) && st'.rows[r.id].cred == ex.cred
                          && st'.rows[r.id].provider == p && st'.rows[r.id].kind == OAuthKind)
      && (r.Replaced? ==> r.id in st.rows && st'.nextId == st.nextId)
      && (r.Created? ==> r.id !in st.rows && st'.rows[r.id].identity == ex.identity)
  {}

  /** It inserts iff no account was named and no row owns the identity. */
  lemma PersistInsertsIff(st: Store, p: Provider, account: AccountId, ex: Exchanged, owner: Option<AccountId>)
    requires Good(st) && MayFind(st, p, ex.identity, owner)
    ensures PersistOnce(st, p, account, ex, owner).1.Created?
       <==> account == NO_ACCOUNT && (ex.identity == NO_IDENTITY || Unowned(st, p, ex.identity))
  {}

  /** An OAuth row of the provider. */
  predicate MayRelogin(st: Store, p: Provider, id: AccountId) {
    id in st.rows && st.rows[id].provider == p && st.rows[id].kind == OAuthKind
  }

  /** Every answer to a login that names an account, as an exact condition on the store and the
      exchange. It succeeds iff the row is an OAuth row of the provider that has the login's
      identity, or has none and no other row owns the login's; the row then has the login's
      identity, adopted iff it had none and the login has one. */
  lemma PersistNamed(st: Store, p: Provider, account: AccountId, ex: Exchanged, owner: Option<AccountId>)
    requires Good(st) && account != NO_ACCOUNT && MayFind(st, p, ex.identity, owner)
    ensures var (st', r) := PersistOnce(st, p, account, ex, owner);
      var had := if account in st.rows then st.rows[account].identity else NO_IDENTITY;
      && (r == Refused(UnknownAccount) <==> account !in st.rows || st.rows[account].provider != p)
      && (r == Refused(NotOAuthAccount) <==>
            account in st.rows && st.rows[account].provider == p && st.rows[account].kind != OAuthKind)
      && (r == Refused(IdentityUnverified) <==>
            MayRelogin(st, p, account) && had != NO_IDENTITY && ex.identity == NO_IDENTITY)
      && (r == Refused(IdentityMismatch) <==>
            MayRelogin(st, p, account) && had != NO_IDENTITY && ex.identity != NO_IDENTITY && had != ex.identity)
      && (r == Refused(IdentityInUse) <==>
            MayRelogin(st, p, account) && had == NO_IDENTITY && TakenByOther(st, p, ex.identity, account))
      && (r.Replaced? <==>
            && MayRelogin(st, p, account)
            && if had == NO_IDENTITY then !TakenByOther(st, p, ex.identity, account) else had == ex.identity)
      && (r.Replaced? ==>
            && r.id == account && account in st'.rows && st'.rows[account].identity == ex.identity
            && (r.adopted <==> had == NO_IDENTITY && ex.identity != NO_IDENTITY))
  {}

  /** A login that names none is never refused: it replaces the row that owns its identity, or adds
      a row with it. */
  lemma PersistUnnamed(st: Store, p: Provider, ex: Exchanged, owner: Option<AccountId>)
    requires Good(st) && MayFind(st, p, ex.identity, owner)
    ensures var (st', r) := PersistOnce(st, p, NO_ACCOUNT, ex, owner);
      if ex.identity == NO_IDENTITY || Unowned(st, p, ex.identity) then
        && r == Created(st.nextId) && st'.nextId > st.nextId && st.nextId in st'.rows
        && st'.rows[st.nextId] == Row(p, OAuthKind, ex.cred, ex.identity, false)
      else
        && r.Replaced? && !r.adopted && r.id in st.rows && Owns(st.rows[r.id], p, ex.identity)
        && r.id in st'.rows && st'.rows[r.id] == st.rows[r.id].(cred := ex.cred)
  {}

  /** A cooldown survives exactly when the row already held the login's own identity. */
  lemma PersistCooldown(st: Store, p: Provider, account: AccountId, ex: Exchanged, owner: Option<AccountId>)
    requires Good(st) && MayFind(st, p, ex.identity, owner)
    ensures var (st', r) := PersistOnce(st, p, account, ex, owner);
      r.Replaced? && st.rows[r.id].cooldown ==>
        (st'.rows[r.id].cooldown <==> ex.identity != NO_IDENTITY && st.rows[r.id].identity == ex.identity)
  {}

  /** What findByIdentity answers; in a good store there is only one possible answer. */
  ghost function FindOwner(st: Store, p: Provider, i: Identity): (owner: Option<AccountId>)
    ensures MayFind(st, p, i, owner)
  {
    if i == NO_IDENTITY || Unowned(st, p, i) then None
    else
      var id :| id in st.rows && Owns(st.rows[id], p, i);
      Some(id)
  }

  /** Unnamed logins of one vendor account, one after another. */
  ghost function LoginMany(st: Store, p: Provider, i: Identity, creds: seq<Credential>): Store {
    if creds == [] then st
    else
      var n := |creds| - 1;
      var mid := LoginMany(st, p, i, creds[..n]);
      PersistOnce(mid, p, NO_ACCOUNT, Exchanged(creds[n], i), FindOwner(mid, p, i)).0
  }

  /** However often one vendor account logs in, it ends up in one row, holding its last
      credential; that row is the one it had, or a new one, and no other row changed. */
  lemma {:induction false} RepeatedLoginsShareOneRow(
    st: Store, p: Provider, i: Identity, creds: seq<Credential>) returns (id: AccountId)
    requires Good(st) && i != NO_IDENTITY && creds != []
    requires forall k :: 0 <= k < |creds| ==> ExchangeOk(Exchanged(creds[k], i))
    ensures var st' := LoginMany(st, p, i, creds);
      && Good(st')
      && id in st'.rows && Owns(st'.rows[id], p, i) && st'.rows[id].cred == creds[|creds| - 1]
      && (forall j :: j in st'.rows && Owns(st'.rows[j], p, i) ==> j == id)
      && DifferOnlyAt(st, st', id)
      && (id in st.rows <==> !Unowned(st, p, i))
  {
    var n := |creds| - 1;
    var mid := LoginMany(st, p, i, creds[..n]);
    var ex := Exchanged(creds[n], i);
    if n == 0 {
      assert mid == st;
    } else {
      id := RepeatedLoginsShareOneRow(st, p, i, creds[..n]);
    }
    var owner := FindOwner(mid, p, i);
    PersistChangesOneRow(mid, p, NO_ACCOUNT, ex, owner);
    id := PersistOnce(mid, p, NO_ACCOUNT, ex, owner).1.id;
  }

  // ---------------------------------------------------------------- the object

  datatype WriteResult = Written | NotFound | InUse

  /** The rows as the store keeps them, with persist's control flow; `unique` says whether the
      partial unique index is there. */
  class Accounts {
    const unique: bool
    var rows: map<AccountId, Row>
    var nextId: AccountId

    ghost function Contents(): Store reads this { Store(rows, nextId) }

    constructor (unique: bool)
      ensures this.unique == unique && Contents() == Store(map[], 1) && Good(Contents())
    {
      this.unique := unique;
      rows, nextId := map[], 1;
    }

    method Create(row: Row) returns (r: Option<AccountId>)
      modifies this
      ensures var st := old(Contents());
        if unique && TakenByOther(st, row.provider, row.identity, st.nextId)
        then r == None && Contents() == st
        else r == Some(st.nextId) && Contents() == InsertRow(st, row)
    {
      if unique && TakenByOther(Store(rows, nextId), row.provider, row.identity, nextId) { return None; }
      r := Some(nextId);
      rows := rows[nextId := row];
      nextId := nextId + 1;
    }

    method Replace(id: AccountId, kind: Kind, cred: Credential, mode: Mode) returns (r: WriteResult)
      modifies this
      ensures var st := old(Contents());
        if id !in st.rows then r == NotFound && Contents() == st
        else if mode.Adopt? && unique && TakenByOther(st, st.rows[id].provider, mode.identity, id)
        then r == InUse && Contents() == st
        else r == Written && Contents() == ReplaceRow(st, id, kind, cred, mode)
    {
      if id !in rows { return NotFound; }
      var row := rows[id].(kind := kind, cred := cred);
      if mode != Keep {
        var identity := if mode.Adopt? then mode.identity else NO_IDENTITY;
        if unique && TakenByOther(Store(rows, nextId), row.provider, identity, id) { return InUse; }
        row := row.(identity := identity);
        row := row.(cooldown := false);
      }
      rows := rows[id := row];
      r := Written;
    }

    method Update(id: AccountId, cred: Credential) returns (found: bool)
      modifies this
      ensures found == (id in old(rows)) && Contents() == UpdateRow(old(Contents()), id, cred)
    {
      if id !in rows { return false; }
      rows := rows[id := rows[id].(cred := cred)];
      found := true;
    }

    method Remove(id: AccountId) returns (found: bool)
      modifies this
      ensures found == (id in old(rows)) && Contents() == DeleteRow(old(Contents()), id)
    {
      found := id in rows;
      rows := rows - {id};
    }

    method SetCooldown(id: AccountId, on: bool)
      requires id in rows
      modifies this
      ensures nextId == old(nextId) && rows == old(rows)[id := old(rows)[id].(cooldown := on)]
    {
      rows := rows[id := rows[id].(cooldown := on)];
    }

    method FindByIdentity(p: Provider, i: Identity) returns (owner: Option<AccountId>)
      ensures MayFind(Contents(), p, i, owner)
    {
      if i != NO_IDENTITY && exists id :: id in rows && Owns(rows[id], p, i) {
        var id :| id in rows && Owns(rows[id], p, i);
        return Some(id);
      }
      return None;
    }

    method Persist(p: Provider, account: AccountId, ex: Exchanged) returns (r: LoginResult)
      requires Good(Contents()) && ExchangeOk(ex)
      modifies this
      ensures Good(Contents())
      ensures exists owner :: MayFind(old(Contents()), p, ex.identity, owner)
                              && (Contents(), r) == PersistOnce(old(Contents()), p, account, ex, owner)
    {
      var targetIdentity := NO_IDENTITY;
      ghost var someOwner := FindOwner(Contents(), p, ex.identity);
      if account != NO_ACCOUNT {
        if account !in rows || rows[account].provider != p { return Refused(UnknownAccount); }
        if rows[account].kind != OAuthKind { return Refused(NotOAuthAccount); }
        targetIdentity := rows[account].identity;
      }
      var owner := FindByIdentity(p, ex.identity);
      PersistChangesOneRow(Contents(), p, account, ex, owner);
      if account != NO_ACCOUNT && ex.identity == NO_IDENTITY && targetIdentity != NO_IDENTITY {
        return Refused(IdentityUnverified);
      } else if account != NO_ACCOUNT && ex.identity == NO_IDENTITY {
        var _ := Replace(account, OAuthKind, ex.cred, Clear);
        return Replaced(account, false);
      } else if account != NO_ACCOUNT && owner == Some(account) {
        var _ := Replace(account, OAuthKind, ex.cred, Keep);
        return Replaced(account, false);
      } else if account != NO_ACCOUNT && targetIdentity != NO_IDENTITY {
        return Refused(IdentityMismatch);
      } else if account != NO_ACCOUNT && owner.Some? {
        return Refused(IdentityInUse);
      } else if account != NO_ACCOUNT {
        var written := Replace(account, OAuthKind, ex.cred, Adopt(ex.identity));
        assert written == Written;
        return Replaced(account, true);
      } else if owner.Some? {
        var _ := Replace(owner.value, OAuthKind, ex.cred, Keep);
        return Replaced(owner.value, false);
      }
      var created := Create(Row(p, OAuthKind, ex.cred, ex.identity, false));
      assert created.Some?;
      return Created(created.value);
    }

    /** EnsureFresh run alone: `answer` is the refresher's, None when it failed. */
    method EnsureFresh(id: AccountId, now: int, answer: Option<TokenResponse>) returns (r: Option<Row>)
      requires Good(Contents())
      modifies this
      ensures Good(Contents())
      ensures var st := old(Contents());
        if id !in st.rows || st.rows[id].kind != OAuthKind then Contents() == st && r == None
        else if !Due(st.rows[id].cred, now) then Contents() == st && r == Some(st.rows[id])
        else if answer.None? then Contents() == st && r == None
        else
          var (was, tok) := (st.rows[id].cred, answer.value);
          var refresh := if tok.refresh != NO_TOKEN then tok.refresh else was.refresh;
          && r == Some(st.rows[id].(cred := OAuth(tok.access, refresh, tok.expires, was.vendor)))
          && Contents() == st.(rows := st.rows[id := r.value])
    {
      if id !in rows || rows[id].kind != OAuthKind { return None; }
      var row := rows[id];
      if now + EXPIRY_BUFFER < row.cred.expires { return Some(row); }
      if answer.None? { return None; }
      var _ := Update(id, RefreshedCredential(row.cred, answer.value));
      return Some(rows[id]);
    }
  }
}
