/** What refresh-token families promise, over every run. */
module SessionTheorems {
  import opened Common
  import opened AuthModel
  import opened SessionFamilies

  lemma ReachableInv(es: seq<Event>)
    requires Legal(EMPTY, es)
    ensures Inv(Run(EMPTY, es))
  {
    RunKeepsInv(EMPTY, es);
  }

  // ----- one chain per session -----

  function ActiveTokens(db: Db, sid: SessionId): set<Hash> {
    set h | h in db.tokens && db.tokens[h].session == sid && db.tokens[h].active
  }

  lemma ActiveTokensOf(w: World, sid: SessionId)
    requires Inv(w) && sid in w.db.sessions
    ensures sid in w.chains && w.chains[sid] != []
    ensures ActiveTokens(w.db, sid) == (if sid in w.swept then {} else {Newest(w.chains[sid])})
  {
    assert FamilyOk(w, sid);
    forall h | h in ActiveTokens(w.db, sid) ensures h == Newest(w.chains[sid]) {
      ActiveIsNewest(w, h);
    }
  }

  /**
   * A session's tokens form one chain in order of issue, each linked to its replacement.
   * While the session is active exactly the newest is active.  Once it is revoked none is
   * if revokeSessionTx did it, and the newest still is if only the account trigger did.
   */
  lemma OneChainOneActiveToken(es: seq<Event>, sid: SessionId)
    requires Legal(EMPTY, es) && sid in Run(EMPTY, es).db.sessions
    ensures var w := Run(EMPTY, es);
            && sid in w.chains && Linked(w.db.tokens, sid, w.db.sessions[sid].expires, w.chains[sid])
            && ActiveTokens(w.db, sid) == (if sid in w.swept then {} else {Newest(w.chains[sid])})
            && (w.db.sessions[sid].active ==> sid !in w.swept)
  {
    ReachableInv(es);
    var w := Run(EMPTY, es);
    assert FamilyOk(w, sid);
    ActiveTokensOf(w, sid);
  }

  /** So "no active token once revoked" fails: the trigger leaves one behind, which can never be rotated. */
  lemma TriggerLeavesAToken(w: World, sid: SessionId, after: Account)
    requires Inv(w) && sid in w.db.sessions && w.db.sessions[sid].active
    requires Enabled(w, ChangeAccount(w.db.sessions[sid].user, after))
    requires TriggerFires(w.db.accounts[w.db.sessions[sid].user], after)
    ensures var w' := Apply(w, ChangeAccount(w.db.sessions[sid].user, after));
            && !w'.db.sessions[sid].active
            && sid in w.chains && w.chains[sid] != []
            && ActiveTokens(w'.db, sid) == {Newest(w.chains[sid])}
            && RotateAnswerOf(w'.db, Newest(w.chains[sid]), w'.now) == SessionInactive
  {
    assert FamilyOk(w, sid);
    ActiveTokensOf(w, sid);
    assert Newest(w.chains[sid]) in ActiveTokens(w.db, sid);
    assert Apply(w, ChangeAccount(w.db.sessions[sid].user, after)).db.tokens == w.db.tokens;
  }

  /** Because of the trigger, three of Rotate's five refusals never happen. */
  lemma RefusalsLeft(w: World, h: Hash)
    requires Inv(w) && RotateAnswerOf(w.db, h, w.now).Refused?
    ensures RotateAnswerOf(w.db, h, w.now).why.Expired? || RotateAnswerOf(w.db, h, w.now).why.TenantInactive?
  {
    assert FamilyOk(w, w.db.tokens[h].session);
  }

  // ----- revoked is for good -----

  predicate Over(w: World, sid: SessionId) { sid in w.db.sessions ==> !w.db.sessions[sid].active }

  lemma StepKeepsOver(w: World, ev: Event, sid: SessionId)
    requires Enabled(w, ev) && sid in w.issuedSessions && Over(w, sid)
    ensures sid in Apply(w, ev).issuedSessions && Over(Apply(w, ev), sid)
  {}

  /** No access token of the session validates, in either query, and no token of its family rotates. */
  ghost predicate Unusable(w: World, sid: SessionId) {
    && (forall c: Claims | c.session == sid :: !SessionLive(w.db, c, w.now) && !ValidAccess(w.db, c, w.now))
    && (forall h | h in w.db.tokens && w.db.tokens[h].session == sid :: !RotateAnswerOf(w.db, h, w.now).Rotated?)
  }

  lemma {:induction false} RevokedForGood(w: World, es: seq<Event>, sid: SessionId)
    requires Legal(w, es) && sid in w.issuedSessions && Over(w, sid)
    ensures Over(Run(w, es), sid) && Unusable(Run(w, es), sid)
    decreases |es|
  {
    if es != [] {
      StepKeepsOver(w, es[0], sid);
      RevokedForGood(Apply(w, es[0]), es[1..], sid);
    }
  }

  lemma ReuseRevokes(w: World, h: Hash, next: Hash)
    requires Inv(w) && Enabled(w, Refresh(h, next))
    requires h in w.db.tokens && !w.db.tokens[h].active && w.db.sessions[w.db.tokens[h].session].active
    ensures RotateAnswerOf(w.db, h, w.now) == Reused
    ensures var sid := w.db.tokens[h].session; var w' := Apply(w, Refresh(h, next));
            sid in w'.issuedSessions && w'.db == RevokeSessionTx(w.db, sid) && Over(w', sid)
  {
    assert FamilyOk(w, w.db.tokens[h].session);
  }

  /** Presenting a consumed token of an active session ends the family and its access tokens, for every run after. */
  lemma ReuseEndsFamily(w: World, h: Hash, next: Hash, es: seq<Event>)
    requires Inv(w) && Enabled(w, Refresh(h, next))
    requires h in w.db.tokens && !w.db.tokens[h].active && w.db.sessions[w.db.tokens[h].session].active
    requires Legal(Apply(w, Refresh(h, next)), es)
    ensures RotateAnswerOf(w.db, h, w.now) == Reused
    ensures Unusable(Run(Apply(w, Refresh(h, next)), es), w.db.tokens[h].session)
    ensures ActiveTokens(Apply(w, Refresh(h, next)).db, w.db.tokens[h].session) == {}
  {
    ReuseRevokes(w, h, next);
    RevokedForGood(Apply(w, Refresh(h, next)), es, w.db.tokens[h].session);
  }

  lemma LogoutRevokes(w: World, sid: SessionId)
    requires Inv(w) && sid in w.db.sessions
    ensures Enabled(w, Logout(sid)) && sid in w.issuedSessions
    ensures var w' := Apply(w, Logout(sid));
            sid in w'.issuedSessions && Over(w', sid) && ActiveTokens(w'.db, sid) == {}
  {
    assert FamilyOk(w, sid);
  }

  /** A logout ends its session for good. */
  lemma LogoutEndsSession(w: World, sid: SessionId, es: seq<Event>)
    requires Inv(w) && sid in w.db.sessions && Legal(Apply(w, Logout(sid)), es)
    ensures Unusable(Run(Apply(w, Logout(sid)), es), sid)
    ensures ActiveTokens(Apply(w, Logout(sid)).db, sid) == {}
  {
    LogoutRevokes(w, sid);
    RevokedForGood(Apply(w, Logout(sid)), es, sid);
  }

  lemma SuspendedAccess(w: World, tenant: TenantId, sid: SessionId, c: Claims)
    requires sid in w.db.sessions && w.db.sessions[sid].user in w.db.accounts && c.session == sid
    requires var a := w.db.accounts[w.db.sessions[sid].user]; a.userType >= 3 && a.tenant == Some(tenant)
    ensures !ValidAccess(Apply(w, ChangeTenant(tenant, false)).db, c, w.now)
  {}

  lemma SuspendedRefresh(w: World, tenant: TenantId, h: Hash, next: Hash)
    requires h in w.db.tokens && w.db.tokens[h].active && w.now < w.db.tokens[h].expires && next !in w.issued
    requires w.db.tokens[h].session in w.db.sessions
    requires var s := w.db.sessions[w.db.tokens[h].session];
             && s.active && w.now < s.expires && SessionMatches(w.db, s)
             && w.db.accounts[s.user].userType >= 3 && w.db.accounts[s.user].tenant == Some(tenant)
    ensures var w1 := Apply(w, ChangeTenant(tenant, false));
            && RotateAnswerOf(w1.db, h, w1.now) == Refused(TenantInactive)
            && Enabled(w1, Refresh(h, next)) && Over(Apply(w1, Refresh(h, next)), w.db.tokens[h].session)
  {}

  /**
   * Suspending a tenant stops its users at once: their access tokens no longer validate,
   * and the next refresh of a session is refused and ends it.
   */
  lemma SuspensionStops(w: World, tenant: TenantId, sid: SessionId, next: Hash)
    requires Inv(w) && sid in w.db.sessions && w.db.sessions[sid].active && w.now < w.db.sessions[sid].expires
    requires w.db.sessions[sid].user in w.db.accounts && next !in w.issued
    requires var a := w.db.accounts[w.db.sessions[sid].user]; a.userType >= 3 && a.tenant == Some(tenant)
    ensures var w1 := Apply(w, ChangeTenant(tenant, false));
            && (forall c: Claims | c.session == sid :: !ValidAccess(w1.db, c, w1.now))
            && sid in w.chains && w.chains[sid] != []
            && var refresh := Refresh(Newest(w.chains[sid]), next);
               && RotateAnswerOf(w1.db, refresh.h, w1.now) == Refused(TenantInactive)
               && Enabled(w1, refresh) && Over(Apply(w1, refresh), sid)
  {
    FamilyFacts(w, sid);
    forall c: Claims | c.session == sid ensures !ValidAccess(Apply(w, ChangeTenant(tenant, false)).db, c, w.now) {
      SuspendedAccess(w, tenant, sid, c);
    }
    SuspendedRefresh(w, tenant, Newest(w.chains[sid]), next);
  }

  /** A purge takes the sessions it chose with their tokens, and no others. */
  lemma PurgeDrops(w: World, gone: set<SessionId>)
    requires Enabled(w, Purge(gone))
    ensures var db' := Apply(w, Purge(gone)).db;
            && (forall s :: s in db'.sessions <==> s in w.db.sessions && s !in gone)
            && (forall h :: h in db'.tokens <==> h in w.db.tokens && w.db.tokens[h].session !in gone)
            && (forall h | h in db'.tokens :: db'.tokens[h] == w.db.tokens[h])
  {}

  /** Accounts come and change as written. */
  lemma AccountsAreWritten(w: World, ev: Event)
    requires Enabled(w, ev) && (ev.NewAccount? || ev.ChangeAccount?)
    ensures Apply(w, ev).db.accounts == w.db.accounts[ev.user := ev.account]
    ensures Apply(w, ev).db.tokens == w.db.tokens && Apply(w, ev).db.tenants == w.db.tenants
  {}

  predicate ChangesCredential(w: World, ev: Event, user: UserId) {
    || (ev.ResetPassword? && ev.user == user && MayReset(w.db, user))
    || (ev.ActivateAccount? && ActivateAnswerOf(w.db, ev.h, ev.strong, w.now) == Activated(user))
  }

  lemma CredentialChangeRevokes(w: World, ev: Event, user: UserId, sid: SessionId)
    requires Enabled(w, ev) && ChangesCredential(w, ev, user)
    requires sid in w.db.sessions && w.db.sessions[sid].user == user && sid in w.issuedSessions
    ensures user in w.db.accounts && user in Apply(w, ev).db.accounts
    ensures Apply(w, ev).db.accounts[user].version == w.db.accounts[user].version + 1
    ensures sid in Apply(w, ev).issuedSessions && Over(Apply(w, ev), sid)
  {}

  /** A password reset or an activation ends every session the user had. */
  lemma CredentialChangeEndsSessions(w: World, ev: Event, user: UserId, sid: SessionId, es: seq<Event>)
    requires Inv(w) && Enabled(w, ev)
    requires ChangesCredential(w, ev, user)
    requires sid in w.db.sessions && w.db.sessions[sid].user == user
    requires Legal(Apply(w, ev), es)
    ensures user in w.db.accounts && user in Apply(w, ev).db.accounts
    ensures Apply(w, ev).db.accounts[user].version == w.db.accounts[user].version + 1
    ensures Unusable(Run(Apply(w, ev), es), sid)
  {
    assert FamilyOk(w, sid);
    CredentialChangeRevokes(w, ev, user, sid);
    RevokedForGood(Apply(w, ev), es, sid);
  }

  // ----- each token once -----

  predicate Spent(w: World, h: Hash) { h in w.issued && (h in w.db.tokens ==> !w.db.tokens[h].active) }

  lemma StepKeepsSpent(w: World, ev: Event, h: Hash)
    requires Enabled(w, ev) && Spent(w, h)
    ensures Spent(Apply(w, ev), h)
  {}

  lemma {:induction false} SpentForGood(w: World, es: seq<Event>, h: Hash)
    requires Legal(w, es) && Spent(w, h)
    ensures Spent(Run(w, es), h)
    decreases |es|
  {
    if es != [] {
      StepKeepsSpent(w, es[0], h);
      SpentForGood(Apply(w, es[0]), es[1..], h);
    }
  }

  lemma RotatedIsSpent(w: World, h: Hash, next: Hash)
    requires Enabled(w, Refresh(h, next)) && RotateAnswerOf(w.db, h, w.now).Rotated? && h in w.issued
    ensures Spent(Apply(w, Refresh(h, next)), h)
  {}

  /** A refresh token yields at most one token pair in its life. */
  lemma OnePairPerToken(w: World, h: Hash, next: Hash, es: seq<Event>)
    requires Inv(w) && Enabled(w, Refresh(h, next)) && RotateAnswerOf(w.db, h, w.now).Rotated?
    requires Legal(Apply(w, Refresh(h, next)), es)
    ensures var w' := Run(Apply(w, Refresh(h, next)), es); !RotateAnswerOf(w'.db, h, w'.now).Rotated?
  {
    RotatedIsSpent(w, h, next);
    SpentForGood(Apply(w, Refresh(h, next)), es, h);
  }

  // ----- and what does rotate -----

  /** The account's tenant, if it has a row and the account is of a tenant's types, is not suspended. */
  predicate TenantOpen(db: Db, a: Account) {
    a.userType < 3 || a.tenant.None? || a.tenant.value !in db.tenants || db.tenants[a.tenant.value]
  }

  /** A session's newest token, and what its account is while it is active. */
  lemma FamilyFacts(w: World, sid: SessionId)
    requires Inv(w) && sid in w.db.sessions
    ensures sid in w.chains && w.chains[sid] != [] && SessionMatches(w.db, w.db.sessions[sid])
    ensures var h := Newest(w.chains[sid]);
            && h in w.db.tokens && w.db.tokens[h].session == sid
            && w.db.tokens[h].expires == w.db.sessions[sid].expires
            && (w.db.sessions[sid].active ==> w.db.tokens[h].active)
  {
    assert FamilyOk(w, sid);
  }

  /** Before its expiry the session is active and its tenant open. */
  predicate Live(w: World, sid: SessionId) {
    && sid in w.db.sessions && sid in w.chains && w.chains[sid] != []
    && w.db.sessions[sid].active && w.now < w.db.sessions[sid].expires
    && w.db.sessions[sid].user in w.db.accounts && TenantOpen(w.db, w.db.accounts[w.db.sessions[sid].user])
  }

  lemma LiveNewestRotates(w: World, sid: SessionId)
    requires Inv(w) && Live(w, sid)
    ensures RotateAnswerOf(w.db, Newest(w.chains[sid]), w.now) == Rotated(sid)
  {
    FamilyFacts(w, sid);
  }

  lemma RotatedIsLive(w: World, h: Hash, sid: SessionId)
    requires Inv(w) && RotateAnswerOf(w.db, h, w.now) == Rotated(sid)
    ensures Live(w, sid) && h == Newest(w.chains[sid])
  {
    FamilyFacts(w, sid);
    ActiveIsNewest(w, h);
  }

  /**
   * In every reachable state the tokens that rotate are exactly the newest of each active
   * session before its expiry, unless the account's tenant is suspended.
   */
  lemma RotatesExactly(w: World, h: Hash, sid: SessionId)
    requires Inv(w)
    ensures RotateAnswerOf(w.db, h, w.now) == Rotated(sid) <==>
              && sid in w.db.sessions && sid in w.chains && w.chains[sid] != []
              && h == w.chains[sid][|w.chains[sid]| - 1]
              && w.db.sessions[sid].active && w.now < w.db.sessions[sid].expires
              && w.db.sessions[sid].user in w.db.accounts && TenantOpen(w.db, w.db.accounts[w.db.sessions[sid].user])
  {
    if RotateAnswerOf(w.db, h, w.now) == Rotated(sid) { RotatedIsLive(w, h, sid); }
    if Live(w, sid) { LiveNewestRotates(w, sid); }
  }

  /**
   * The steps a session outlives: all but its expiry, its logout, a change or reset of its
   * account, the suspension of its tenant and the use of an old token of its own.
   */
  predicate Spares(w: World, ev: Event, sid: SessionId) {
    Live(w, sid) ==>
      var s := w.db.sessions[sid];
      var a := w.db.accounts[s.user];
      match ev
      case Tick(t) => t < s.expires
      case ChangeAccount(u, b) =>
        u == s.user ==>
          b.status == a.status && b.version == a.version && b.userType == a.userType && b.tenant == a.tenant
      case ChangeTenant(t, open) => a.tenant == Some(t) ==> open
      case Refresh(h, _) => h in w.db.tokens && w.db.tokens[h].session == sid ==> h == Newest(w.chains[sid])
      case Logout(other) => other != sid
      case ResetPassword(u, _, _) => u != s.user
      case _ => true
  }

  predicate AllSpare(w: World, es: seq<Event>, sid: SessionId)
    requires Legal(w, es)
    decreases |es|
  {
    es == [] || (Spares(w, es[0], sid) && AllSpare(Apply(w, es[0]), es[1..], sid))
  }

  /** Steps on accounts, whoever's, leave a spared session and its account as they were. */
  lemma AccountStepSpares(w: World, ev: Event, sid: SessionId)
    requires Live(w, sid) && SessionMatches(w.db, w.db.sessions[sid]) && Enabled(w, ev) && Spares(w, ev, sid)
    requires ev.ChangeAccount? || ev.ResetPassword? || ev.ActivateAccount?
    ensures var s := w.db.sessions[sid]; var db' := DbAfter(w, ev);
            && sid in db'.sessions && db'.sessions[sid] == s && s.user in db'.accounts && db'.tenants == w.db.tenants
            && db'.accounts[s.user] == w.db.accounts[s.user]
  {}

  lemma OtherStepSpares(w: World, ev: Event, sid: SessionId)
    requires Live(w, sid) && sid in w.issuedSessions && Enabled(w, ev) && Spares(w, ev, sid)
    requires !ev.ChangeAccount? && !ev.ResetPassword? && !ev.ActivateAccount? && !ev.Refresh?
    ensures var s := w.db.sessions[sid]; var db' := DbAfter(w, ev);
            && sid in db'.sessions && db'.sessions[sid] == s && s.user in db'.accounts
            && TenantOpen(db', db'.accounts[s.user])
  {}

  lemma RefreshSpares(w: World, ev: Event, sid: SessionId)
    requires Live(w, sid) && Enabled(w, ev) && Spares(w, ev, sid) && ev.Refresh?
    requires ev.h in w.db.tokens && w.db.tokens[ev.h].session == sid ==>
        RotateAnswerOf(w.db, ev.h, w.now) == Rotated(sid)
    ensures var db' := DbAfter(w, ev);
            && sid in db'.sessions && db'.sessions[sid] == w.db.sessions[sid]
            && db'.accounts == w.db.accounts && db'.tenants == w.db.tenants
  {}

  lemma ChainFollows(w: World, ev: Event, sid: SessionId)
    requires Live(w, sid) && sid in w.issuedSessions && Enabled(w, ev)
    requires ev.Refresh? ==>
        (RotateAnswerOf(w.db, ev.h, w.now) == Rotated(sid) <==> ev.h == Newest(w.chains[sid]))
    ensures var chains := ChainsAfter(w, ev);
            var own := ev.Refresh? && ev.h == Newest(w.chains[sid]);
            sid in chains && chains[sid] == w.chains[sid] + (if own then [ev.next] else [])
  {}

  lemma ChainAfter(w: World, ev: Event, sid: SessionId)
    requires Inv(w) && Live(w, sid) && Enabled(w, ev) && Spares(w, ev, sid)
    ensures var chains := ChainsAfter(w, ev);
            var own := ev.Refresh? && ev.h == Newest(w.chains[sid]);
            && sid in chains && chains[sid] == w.chains[sid] + (if own then [ev.next] else [])
            && (own ==> RotateAnswerOf(w.db, ev.h, w.now) == Rotated(sid))
  {
    assert sid in w.issuedSessions by { assert FamilyOk(w, sid); }
    if ev.Refresh? { RotatesExactly(w, ev.h, sid); }
    ChainFollows(w, ev, sid);
  }

  lemma StepSpares(w: World, ev: Event, sid: SessionId)
    requires Inv(w) && Live(w, sid) && Enabled(w, ev) && Spares(w, ev, sid)
    ensures Live(Apply(w, ev), sid) && Apply(w, ev).db.sessions[sid] == w.db.sessions[sid]
  {
    FamilyFacts(w, sid);
    ChainAfter(w, ev, sid);
    if ev.ChangeAccount? || ev.ResetPassword? || ev.ActivateAccount? {
      AccountStepSpares(w, ev, sid);
    } else if ev.Refresh? {
      RefreshSpares(w, ev, sid);
    } else {
      assert FamilyOk(w, sid);
      OtherStepSpares(w, ev, sid);
    }
  }

  /** How many refreshes of the run present the session's newest token. */
  function Refreshes(w: World, es: seq<Event>, sid: SessionId): nat
    requires Legal(w, es)
    decreases |es|
  {
    if es == [] then 0
    else
      (if es[0].Refresh? && sid in w.chains && w.chains[sid] != [] && es[0].h == Newest(w.chains[sid]) then 1 else 0)
      + Refreshes(Apply(w, es[0]), es[1..], sid)
  }

  /**
   * A client that presents only its newest token keeps its session until the expiry,
   * whatever else goes on: every refresh of the run rotates, and the newest token after
   * it would rotate again.
   */
  lemma {:induction false} NewestKeepsRotating(w: World, es: seq<Event>, sid: SessionId)
    requires Inv(w) && Live(w, sid) && Legal(w, es) && AllSpare(w, es, sid)
    ensures var w' := Run(w, es);
            && Live(w', sid) && RotateAnswerOf(w'.db, Newest(w'.chains[sid]), w'.now) == Rotated(sid)
            && |w'.chains[sid]| == |w.chains[sid]| + Refreshes(w, es, sid)
    decreases |es|
  {
    if es == [] {
      RotatesExactly(w, Newest(w.chains[sid]), sid);
    } else {
      StepKeepsInv(w, es[0]);
      ChainAfter(w, es[0], sid);
      StepSpares(w, es[0], sid);
      NewestKeepsRotating(Apply(w, es[0]), es[1..], sid);
    }
  }

  /**
   * From a login on: its token rotates at any time before the expiry, and so does each
   * token that replaces it, while the account, its tenant and the session are left alone.
   */
  lemma LoginKeepsRotating(w: World, p: Principal, sid: SessionId, h: Hash, ttl: nat, es: seq<Event>)
    requires Inv(w) && Enabled(w, Login(p, sid, h, ttl)) && ttl > 0
    requires p.user in w.db.accounts
    requires var a := w.db.accounts[p.user];
             a.status.Active? && !a.pendingActivation && a.version == p.version && a.userType == p.userType
             && TenantOpen(w.db, a)
    requires var w1 := Apply(w, Login(p, sid, h, ttl)); Legal(w1, es) && AllSpare(w1, es, sid)
    ensures var w1 := Apply(w, Login(p, sid, h, ttl)); var w' := Run(w1, es);
            && RotateAnswerOf(w1.db, h, w1.now) == Rotated(sid)
            && Live(w', sid) && RotateAnswerOf(w'.db, Newest(w'.chains[sid]), w'.now) == Rotated(sid)
            && |w'.chains[sid]| == 1 + Refreshes(w1, es, sid)
            && w'.db.sessions[sid].expires == w.now + ttl
  {
    var login := Login(p, sid, h, ttl);
    var w1 := Apply(w, login);
    StepKeepsInv(w, login);
    assert w1.chains[sid] == [h] && Newest([h]) == h;
    RotatesExactly(w1, h, sid);
    NewestKeepsRotating(w1, es, sid);
    ExpiryNeverMoves(w1, es, sid);
  }

  /**
   * A live session's access token validates too, with the claims its account gives,
   * provided an account of a tenant's types has an active tenant row.  Rotation lets a
   * missing row pass, validation does not; a foreign key keeps rows from missing.
   */
  lemma LiveAccessValidates(w: World, sid: SessionId)
    requires Inv(w) && Live(w, sid)
    ensures var s := w.db.sessions[sid]; var a := w.db.accounts[s.user];
            ValidAccess(w.db, Claims(sid, s.user, a.version, a.userType, a.tenant), w.now) <==>
              a.version > 0
              && (a.userType < 3 || (a.tenant.Some? && a.tenant.value in w.db.tenants && w.db.tenants[a.tenant.value]))
  {
    assert FamilyOk(w, sid);
  }

  /** An access token validates only for its own live session and its account as it is now. */
  lemma ValidAccessIsCurrent(w: World, c: Claims)
    requires Inv(w) && ValidAccess(w.db, c, w.now)
    ensures Live(w, c.session) && w.db.sessions[c.session].user == c.user
    ensures var a := w.db.accounts[c.user];
            && a.status.Active? && !a.pendingActivation
            && c == Claims(c.session, c.user, a.version, a.userType, a.tenant)
  {
    assert FamilyOk(w, c.session);
  }

  // ----- the family's absolute expiry -----

  lemma StepKeepsExpiry(w: World, ev: Event, sid: SessionId)
    requires Enabled(w, ev) && sid in w.issuedSessions
    ensures sid in Apply(w, ev).db.sessions ==>
              sid in w.db.sessions && Apply(w, ev).db.sessions[sid].expires == w.db.sessions[sid].expires
    ensures sid in Apply(w, ev).issuedSessions
  {}

  lemma {:induction false} ExpiryNeverMoves(w: World, es: seq<Event>, sid: SessionId)
    requires Legal(w, es) && sid in w.issuedSessions
    ensures sid in Run(w, es).db.sessions ==>
              sid in w.db.sessions && Run(w, es).db.sessions[sid].expires == w.db.sessions[sid].expires
    decreases |es|
  {
    if es != [] {
      StepKeepsExpiry(w, es[0], sid);
      ExpiryNeverMoves(Apply(w, es[0]), es[1..], sid);
    }
  }

  /** However often it is rotated, no token of a session rotates at or after the time set at login. */
  lemma RotationsEndWithTheLogin(w: World, login: Event, es: seq<Event>, h: Hash)
    requires Inv(w) && Enabled(w, login) && login.Login? && MayCreate(w.db, login.p)
    requires Legal(Apply(w, login), es)
    requires var w' := Run(Apply(w, login), es);
             h in w'.db.tokens && w'.db.tokens[h].session == login.sid && RotateAnswerOf(w'.db, h, w'.now).Rotated?
    ensures Run(Apply(w, login), es).now < w.now + login.ttl
  {
    StepKeepsInv(w, login);
    ExpiryNeverMoves(Apply(w, login), es, login.sid);
  }
}
