/**
 * Accounts, login sessions, refresh tokens and activation tokens, and the transactions
 * over them.  Each transaction locks the rows it reads, so it is one step.  Tokens
 * appear as their hashes; a new token's hash is a fresh value.
 */
module AuthModel {
  import opened Common

  datatype UserId = UserId(num: int)
  datatype TenantId = TenantId(num: int)
  datatype SessionId = SessionId(num: int)
  datatype Hash = Hash(num: int)

  datatype AccountStatus = Active | Disabled | Deleted

  datatype Account = Account(
    status: AccountStatus, version: nat, pendingActivation: bool, userType: int, tenant: Option<TenantId>)

  datatype Session = Session(user: UserId, version: nat, active: bool, expires: int)

  datatype RefreshToken = RefreshToken(session: SessionId, active: bool, expires: int, replacedBy: Option<Hash>)

  datatype ActivationToken = ActivationToken(user: UserId, expires: int, consumed: bool)

  datatype Db = Db(
    accounts: map<UserId, Account>,
    tenants: map<TenantId, bool>,              // tenant status = 'active'
    sessions: map<SessionId, Session>,
    tokens: map<Hash, RefreshToken>,
    activations: map<Hash, ActivationToken>)

  /** COALESCE(t.status, 'active'): an account without a tenant row passes. */
  predicate TenantActive(db: Db, a: Account) {
    a.tenant.Some? && a.tenant.value in db.tenants ==> db.tenants[a.tenant.value]
  }

  // ----- writing an account fires the trigger -----

  predicate TriggerFires(before: Account, after: Account) {
    before.status != after.status || before.version != after.version
    || before.userType != after.userType || before.tenant != after.tenant
  }

  function RevokeUser(sessions: map<SessionId, Session>, user: UserId): map<SessionId, Session> {
    map s | s in sessions :: if sessions[s].user == user then sessions[s].(active := false) else sessions[s]
  }

  /** The trigger revokes the user's sessions; it does not touch their refresh tokens. */
  function WriteAccount(db: Db, user: UserId, after: Account): Db
    requires user in db.accounts
  {
    db.(accounts := db.accounts[user := after],
        sessions := if TriggerFires(db.accounts[user], after) then RevokeUser(db.sessions, user) else db.sessions)
  }

  // ----- sessions -----

  datatype Principal = Principal(user: UserId, version: nat, userType: int)

  predicate MayCreate(db: Db, p: Principal) {
    && p.user in db.accounts
    && db.accounts[p.user].status.Active? && !db.accounts[p.user].pendingActivation
    && db.accounts[p.user].version == p.version
    && (p.userType >= 3 ==> TenantActive(db, db.accounts[p.user]))
  }

  function Create(db: Db, p: Principal, sid: SessionId, h: Hash, expires: int): Db {
    if MayCreate(db, p) then
      db.(sessions := db.sessions[sid := Session(p.user, p.version, true, expires)],
          tokens := db.tokens[h := RefreshToken(sid, true, expires, None)])
    else db
  }

  function RevokeSessionTx(db: Db, sid: SessionId): Db {
    db.(sessions := map s | s in db.sessions :: if s == sid then db.sessions[s].(active := false) else db.sessions[s],
        tokens := map h | h in db.tokens ::
          if db.tokens[h].session == sid then db.tokens[h].(active := false) else db.tokens[h])
  }

  datatype Refusal = Expired | AccountInactive | CredentialInactive | CredentialChanged | TenantInactive

  datatype RotateAnswer = Rotated(session: SessionId) | UnknownToken | SessionInactive | Reused | Refused(why: Refusal)

  function RefusalOf(db: Db, t: RefreshToken, s: Session, a: Account, now: int): Option<Refusal> {
    if now >= t.expires || now >= s.expires then Some(Expired)
    else if !a.status.Active? then Some(AccountInactive)
    else if a.pendingActivation then Some(CredentialInactive)
    else if s.version != a.version then Some(CredentialChanged)
    else if a.userType >= 3 && !TenantActive(db, a) then Some(TenantInactive)
    else None
  }

  /** The token joined to its session and account. */
  predicate Joined(db: Db, h: Hash) {
    h in db.tokens && db.tokens[h].session in db.sessions && db.sessions[db.tokens[h].session].user in db.accounts
  }

  function RotateAnswerOf(db: Db, h: Hash, now: int): RotateAnswer {
    if !Joined(db, h) then UnknownToken
    else
      var t := db.tokens[h];
      var s := db.sessions[t.session];
      if !s.active then SessionInactive
      else if !t.active then Reused
      else
        var why := RefusalOf(db, t, s, db.accounts[s.user], now);
        if why.Some? then Refused(why.value) else Rotated(t.session)
  }

  function Rotate(db: Db, h: Hash, next: Hash, now: int): Db {
    match RotateAnswerOf(db, h, now)
    case Rotated(sid) =>
      if sid in db.sessions && h in db.tokens then
        db.(tokens := db.tokens[h := db.tokens[h].(active := false, replacedBy := Some(next))]
                               [next := RefreshToken(sid, true, db.sessions[sid].expires, None)])
      else db
    case Reused => if h in db.tokens then RevokeSessionTx(db, db.tokens[h].session) else db
    case Refused(_) => if h in db.tokens then RevokeSessionTx(db, db.tokens[h].session) else db
    case _ => db
  }

  /** Deleting sessions deletes their tokens (ON DELETE CASCADE). */
  function DropSessions(db: Db, gone: set<SessionId>): Db {
    db.(sessions := db.sessions - gone,
        tokens := map h | h in db.tokens && db.tokens[h].session !in gone :: db.tokens[h])
  }

  // ----- access tokens -----

  datatype Claims = Claims(session: SessionId, user: UserId, version: nat, userType: int, tenant: Option<TenantId>)

  /** What both validation queries ask of the session and its account. */
  predicate SessionLive(db: Db, c: Claims, now: int) {
    && c.session in db.sessions && c.user in db.accounts
    && var s := db.sessions[c.session]; var a := db.accounts[c.user];
       && s.user == c.user && s.active && s.expires > now && s.version == c.version
       && a.version == c.version && a.status.Active? && !a.pendingActivation
  }

  predicate ValidAccess(db: Db, c: Claims, now: int) {
    && c.version > 0 && SessionLive(db, c, now)
    && var a := db.accounts[c.user];
       && a.userType == c.userType && a.tenant == c.tenant
       && (a.userType < 3 || (a.tenant.Some? && a.tenant.value in db.tenants && db.tenants[a.tenant.value]))
  }

  // ----- activation -----

  function Store(db: Db, user: UserId, h: Hash, expires: int): Db {
    db.(activations :=
      (map g | g in db.activations ::
         if db.activations[g].user == user then db.activations[g].(consumed := true) else db.activations[g])
      [h := ActivationToken(user, expires, false)])
  }

  predicate MayReset(db: Db, user: UserId) { user in db.accounts && !db.accounts[user].status.Deleted? }

  function Reset(db: Db, user: UserId, h: Hash, expires: int): Db {
    if MayReset(db, user) then
      var a := db.accounts[user];
      Store(WriteAccount(db, user, a.(pendingActivation := true, version := a.version + 1)), user, h, expires)
    else db
  }

  datatype ActivateAnswer = Activated(user: UserId) | UnknownActivation | UsedActivation | ExpiredActivation
      | WeakPassword

  function ActivateAnswerOf(db: Db, h: Hash, strong: bool, now: int): ActivateAnswer {
    if h !in db.activations || db.activations[h].user !in db.accounts then UnknownActivation
    else
      var t := db.activations[h];
      var a := db.accounts[t.user];
      if t.consumed then UsedActivation
      else if now >= t.expires then ExpiredActivation
      else if a.status.Deleted? || !a.pendingActivation then UnknownActivation
      else if !strong then WeakPassword
      else Activated(t.user)
  }

  function Activate(db: Db, h: Hash, strong: bool, now: int): Db {
    match ActivateAnswerOf(db, h, strong, now)
    case Activated(user) =>
      if user in db.accounts then
        var a := db.accounts[user];
        var db1 := WriteAccount(db, user, a.(pendingActivation := false, version := a.version + 1));
        db1.(activations := map g | g in db1.activations ::
               if db1.activations[g].user == user then db1.activations[g].(consumed := true) else db1.activations[g])
      else db
    case _ => db
  }
}
