/** Refresh-token families over every run of the transactions that touch them. */
module SessionFamilies {
  import opened Common
  import opened AuthModel

  /**
   * `chains` lists each session's token hashes in the order they were issued; `swept`
   * is the sessions revokeSessionTx has run on.  Both only record what happened.
   */
  datatype World = World(
    db: Db, now: int,
    issuedSessions: set<SessionId>, issued: set<Hash>,
    chains: map<SessionId, seq<Hash>>, swept: set<SessionId>)

  datatype Event =
    | Tick(time: int)
    | NewAccount(user: UserId, account: Account)
    | ChangeAccount(user: UserId, account: Account)
    | ChangeTenant(tenant: TenantId, active: bool)
    | Login(p: Principal, sid: SessionId, h: Hash, ttl: nat)
    | Refresh(h: Hash, next: Hash)
    | Logout(sid: SessionId)
    | Purge(gone: set<SessionId>)
    | ResetPassword(user: UserId, h: Hash, expires: int)
    | ActivateAccount(h: Hash, strong: bool)

  /**
   * Credential versions are only ever incremented, and the only writer that asks for a
   * new activation (Reset) increments them.
   */
  predicate Enabled(w: World, ev: Event) {
    match ev
    case Tick(t) => w.now <= t
    case NewAccount(u, a) => u !in w.db.accounts
    case ChangeAccount(u, a) =>
      u in w.db.accounts && w.db.accounts[u].version <= a.version
      && (a.pendingActivation != w.db.accounts[u].pendingActivation ==> w.db.accounts[u].version < a.version)
    case Login(_, sid, h, _) => sid !in w.issuedSessions && h !in w.issued
    case Refresh(_, next) => next !in w.issued
    case Purge(gone) => forall s | s in gone :: s in w.db.sessions && w.db.sessions[s].expires <= w.now
    case _ => true
  }

  function DbAfter(w: World, ev: Event): Db
    requires Enabled(w, ev)
  {
    match ev
    case NewAccount(u, a) => w.db.(accounts := w.db.accounts[u := a])
    case ChangeAccount(u, a) => WriteAccount(w.db, u, a)
    case ChangeTenant(t, active) => w.db.(tenants := w.db.tenants[t := active])
    case Login(p, sid, h, ttl) => Create(w.db, p, sid, h, w.now + ttl)
    case Refresh(h, next) => Rotate(w.db, h, next, w.now)
    case Logout(sid) => RevokeSessionTx(w.db, sid)
    case Purge(gone) => DropSessions(w.db, gone)
    case ResetPassword(u, h, expires) => Reset(w.db, u, h, expires)
    case ActivateAccount(h, strong) => Activate(w.db, h, strong, w.now)
    case _ => w.db
  }

  /** The session revokeSessionTx runs on in this step, if any. */
  function SweptBy(w: World, ev: Event): set<SessionId> {
    match ev
    case Logout(sid) => if sid in w.db.sessions then {sid} else {}
    case Refresh(h, _) =>
      var answer := RotateAnswerOf(w.db, h, w.now);
      if (answer.Reused? || answer.Refused?) && h in w.db.tokens then {w.db.tokens[h].session} else {}
    case _ => {}
  }

  function ChainsAfter(w: World, ev: Event): map<SessionId, seq<Hash>> {
    match ev
    case Login(p, sid, h, _) => if MayCreate(w.db, p) then w.chains[sid := [h]] else w.chains
    case Refresh(h, next) =>
      var answer := RotateAnswerOf(w.db, h, w.now);
      if answer.Rotated? && answer.session in w.chains
      then w.chains[answer.session := w.chains[answer.session] + [next]] else w.chains
    case _ => w.chains
  }

  function Apply(w: World, ev: Event): World
    requires Enabled(w, ev)
  {
    World(DbAfter(w, ev),
          if ev.Tick? then ev.time else w.now,
          if ev.Login? then w.issuedSessions + {ev.sid} else w.issuedSessions,
          if ev.Login? then w.issued + {ev.h} else if ev.Refresh? then w.issued + {ev.next} else w.issued,
          ChainsAfter(w, ev),
          w.swept + SweptBy(w, ev))
  }

  predicate Legal(w: World, es: seq<Event>)
    decreases |es|
  {
    es == [] || (Enabled(w, es[0]) && Legal(Apply(w, es[0]), es[1..]))
  }

  function Run(w: World, es: seq<Event>): World
    requires Legal(w, es)
    decreases |es|
  {
    if es == [] then w else Run(Apply(w, es[0]), es[1..])
  }

  const EMPTY: World := World(Db(map[], map[], map[], map[], map[]), 0, {}, {}, map[], {})

  // ----- the invariant -----

  /** Every token but the newest was consumed by the rotation that issued the next. */
  predicate LinkAt(tokens: map<Hash, RefreshToken>, sid: SessionId, expires: int, chain: seq<Hash>, i: nat)
    requires i < |chain|
  {
    && chain[i] in tokens
    && var t := tokens[chain[i]];
       && t.session == sid && t.expires == expires
       && if i == |chain| - 1 then t.replacedBy.None? else !t.active && t.replacedBy == Some(chain[i + 1])
  }

  predicate Distinct(chain: seq<Hash>) { forall i, j | 0 <= i < j < |chain| :: chain[i] != chain[j] }

  /** A family: its tokens, linked in the order of issue, all expiring with the session. */
  ghost predicate Linked(tokens: map<Hash, RefreshToken>, sid: SessionId, expires: int, chain: seq<Hash>) {
    && chain != [] && Distinct(chain)
    && (forall i | 0 <= i < |chain| :: LinkAt(tokens, sid, expires, chain, i))
    && (forall h | h in tokens && tokens[h].session == sid :: h in chain)
  }

  function Newest(chain: seq<Hash>): Hash
    requires chain != []
  {
    chain[|chain| - 1]
  }

  ghost predicate FamilyOk(w: World, sid: SessionId)
    requires sid in w.db.sessions
  {
    && sid in w.issuedSessions && sid in w.chains
    && Linked(w.db.tokens, sid, w.db.sessions[sid].expires, w.chains[sid])
    && LinkAt(w.db.tokens, sid, w.db.sessions[sid].expires, w.chains[sid], |w.chains[sid]| - 1)
    && (w.db.tokens[Newest(w.chains[sid])].active <==> sid !in w.swept)
    && (sid in w.swept ==> !w.db.sessions[sid].active)
    && SessionMatches(w.db, w.db.sessions[sid])
  }

  /** Because of the trigger, an active session agrees with its account. */
  predicate SessionMatches(db: Db, s: Session) {
    && s.user in db.accounts && s.version <= db.accounts[s.user].version
    && (s.active ==>
          && db.accounts[s.user].status.Active? && !db.accounts[s.user].pendingActivation
          && db.accounts[s.user].version == s.version)
  }

  ghost predicate Inv(w: World) {
    && w.swept <= w.issuedSessions
    && (forall sid | sid in w.db.sessions :: FamilyOk(w, sid))
    && (forall h | h in w.db.tokens :: h in w.issued && w.db.tokens[h].session in w.db.sessions)
  }

  // ----- every step keeps it -----

  predicate Narrowed(w: World, w': World, sid: SessionId) {
    && sid in w.db.sessions && sid in w'.db.sessions
    && w'.db.sessions[sid].expires == w.db.sessions[sid].expires
    && (w'.db.sessions[sid].active ==> w.db.sessions[sid].active)
    && SessionMatches(w'.db, w'.db.sessions[sid])
  }

  /** Steps that write no token: sessions may only be revoked, and still match their accounts. */
  lemma SameTokensKeep(w: World, w': World)
    requires Inv(w)
    requires w'.db.tokens == w.db.tokens && w'.chains == w.chains && w'.swept == w.swept
    requires w'.issued == w.issued && w'.issuedSessions == w.issuedSessions
    requires w'.db.sessions.Keys == w.db.sessions.Keys
    requires forall sid | sid in w.db.sessions :: Narrowed(w, w', sid)
    ensures Inv(w')
  {
    forall sid | sid in w'.db.sessions ensures FamilyOk(w', sid) {
      assert FamilyOk(w, sid);
    }
  }

  /** Writing an account with a version no lower leaves each session matching it, or revoked. */
  lemma WriteKeepsMatches(db: Db, user: UserId, after: Account, s: Session)
    requires user in db.accounts && SessionMatches(db, s)
    requires db.accounts[user].version <= after.version
    requires after.pendingActivation != db.accounts[user].pendingActivation ==>
        db.accounts[user].version < after.version
    ensures var s' := if TriggerFires(db.accounts[user], after) && s.user == user then s.(active := false) else s;
            SessionMatches(WriteAccount(db, user, after), s')
  {}

  lemma WriteKeeps(w: World, user: UserId, after: Account, w': World)
    requires Inv(w) && user in w.db.accounts
    requires w.db.accounts[user].version <= after.version
    requires after.pendingActivation != w.db.accounts[user].pendingActivation ==>
        w.db.accounts[user].version < after.version
    requires w'.db.accounts == WriteAccount(w.db, user, after).accounts
    requires w'.db.sessions == WriteAccount(w.db, user, after).sessions
    requires w'.db.tokens == w.db.tokens && w'.chains == w.chains && w'.swept == w.swept
    requires w'.issued == w.issued && w'.issuedSessions == w.issuedSessions
    ensures Inv(w')
  {
    forall sid | sid in w.db.sessions ensures Narrowed(w, w', sid) {
      assert FamilyOk(w, sid);
      WriteKeepsMatches(w.db, user, after, w.db.sessions[sid]);
    }
    SameTokensKeep(w, w');
  }

  lemma AccountStepKeeps(w: World, ev: Event)
    requires Inv(w) && Enabled(w, ev)
    requires ev.NewAccount? || ev.ChangeTenant? || ev.Tick?
    ensures Inv(Apply(w, ev))
  {
    var w' := Apply(w, ev);
    forall sid | sid in w.db.sessions ensures Narrowed(w, w', sid) {
      assert FamilyOk(w, sid);
    }
    SameTokensKeep(w, w');
  }

  lemma CredentialStepKeeps(w: World, ev: Event)
    requires Inv(w) && Enabled(w, ev)
    requires ev.ChangeAccount? || ev.ResetPassword? || ev.ActivateAccount?
    ensures Inv(Apply(w, ev))
  {
    var w' := Apply(w, ev);
    if ev.ChangeAccount? {
      WriteKeeps(w, ev.user, ev.account, w');
    } else if ev.ResetPassword? && MayReset(w.db, ev.user) {
      var a := w.db.accounts[ev.user];
      WriteKeeps(w, ev.user, a.(pendingActivation := true, version := a.version + 1), w');
    } else if ev.ActivateAccount? && ActivateAnswerOf(w.db, ev.h, ev.strong, w.now).Activated? {
      var user := w.db.activations[ev.h].user;
      var a := w.db.accounts[user];
      WriteKeeps(w, user, a.(pendingActivation := false, version := a.version + 1), w');
    } else {
      IdleKeeps(w, w');
    }
  }

  lemma NewFamily(w: World, ev: Event)
    requires Enabled(w, ev) && ev.Login? && MayCreate(w.db, ev.p) && w.swept <= w.issuedSessions
    requires forall h | h in w.db.tokens :: w.db.tokens[h].session in w.issuedSessions
    ensures FamilyOk(Apply(w, ev), ev.sid)
  {
    var w' := Apply(w, ev);
    assert w'.chains[ev.sid] == [ev.h] && Newest([ev.h]) == ev.h;
    assert LinkAt(w'.db.tokens, ev.sid, w.now + ev.ttl, [ev.h], 0);
  }

  lemma OldFamily(w: World, ev: Event, s: SessionId)
    requires Enabled(w, ev) && ev.Login? && MayCreate(w.db, ev.p)
    requires s in w.db.sessions && FamilyOk(w, s) && ev.h !in w.db.tokens
    ensures FamilyOk(Apply(w, ev), s)
  {
    OtherFamily(w.db.tokens, Apply(w, ev).db.tokens, s, w.db.sessions[s].expires, w.chains[s]);
  }

  lemma LoginKeeps(w: World, ev: Event)
    requires Inv(w) && Enabled(w, ev) && ev.Login?
    ensures Inv(Apply(w, ev))
  {
    var w' := Apply(w, ev);
    if MayCreate(w.db, ev.p) {
      forall h | h in w.db.tokens ensures w.db.tokens[h].session in w.issuedSessions {
        assert FamilyOk(w, w.db.tokens[h].session);
      }
      NewFamily(w, ev);
      forall s | s in w.db.sessions ensures FamilyOk(w', s) {
        OldFamily(w, ev, s);
      }
    } else {
      IdleKeeps(w, w');
    }
  }

  /** Deactivating every token of one family leaves the links of every family as they were. */
  lemma SweptLinks(before: map<Hash, RefreshToken>, after: map<Hash, RefreshToken>, sid: SessionId, expires: int,
      chain: seq<Hash>)
    requires Linked(before, sid, expires, chain) && after.Keys == before.Keys
    requires forall h | h in before :: after[h] == before[h] || after[h] == before[h].(active := false)
    ensures Linked(after, sid, expires, chain)
  {
    forall i | 0 <= i < |chain| ensures LinkAt(after, sid, expires, chain, i) {
      assert LinkAt(before, sid, expires, chain, i);
    }
  }

  ghost predicate Sweeps(w: World, sid: SessionId, w': World) {
    && w'.db.accounts == w.db.accounts
    && w'.db.sessions == RevokeSessionTx(w.db, sid).sessions && w'.db.tokens == RevokeSessionTx(w.db, sid).tokens
    && w'.chains == w.chains && w'.swept == w.swept + {sid}
    && w'.issued >= w.issued && w'.issuedSessions == w.issuedSessions
  }

  lemma SweepFamily(w: World, sid: SessionId, w': World, s: SessionId)
    requires s in w.db.sessions && FamilyOk(w, s) && Sweeps(w, sid, w')
    ensures s in w'.db.sessions && FamilyOk(w', s)
  {
    SweptLinks(w.db.tokens, w'.db.tokens, s, w.db.sessions[s].expires, w.chains[s]);
  }

  lemma SweepKeeps(w: World, sid: SessionId, w': World)
    requires Inv(w) && sid in w.db.sessions && Sweeps(w, sid, w')
    ensures Inv(w')
  {
    forall s | s in w'.db.sessions ensures FamilyOk(w', s) {
      SweepFamily(w, sid, w', s);
    }
    assert sid in w.issuedSessions by { assert FamilyOk(w, sid); }
  }

  /** A rotation appends one token to its family and consumes the one before it. */
  lemma RotationExtends(tokens: map<Hash, RefreshToken>, sid: SessionId, expires: int, chain: seq<Hash>, h: Hash,
      next: Hash)
    requires Linked(tokens, sid, expires, chain) && h == Newest(chain) && next !in tokens
    ensures h in tokens
    ensures var after := tokens[h := tokens[h].(active := false, replacedBy := Some(next))]
                               [next := RefreshToken(sid, true, expires, None)];
            Linked(after, sid, expires, chain + [next])
  {
    assert LinkAt(tokens, sid, expires, chain, |chain| - 1);
    var after := tokens[h := tokens[h].(active := false, replacedBy := Some(next))]
                       [next := RefreshToken(sid, true, expires, None)];
    forall i | 0 <= i < |chain| ensures chain[i] != next && (i < |chain| - 1 ==> chain[i] != h) {
      assert LinkAt(tokens, sid, expires, chain, i);
    }
    forall i | 0 <= i < |chain + [next]| ensures LinkAt(after, sid, expires, chain + [next], i) {
      assert i < |chain| ==> LinkAt(tokens, sid, expires, chain, i);
    }
  }

  /** Only the newest token of a family can be active. */
  lemma ActiveIsLast(tokens: map<Hash, RefreshToken>, sid: SessionId, expires: int, chain: seq<Hash>, h: Hash)
    requires Linked(tokens, sid, expires, chain) && h in tokens && tokens[h].session == sid && tokens[h].active
    ensures h == Newest(chain)
  {
    var i :| 0 <= i < |chain| && chain[i] == h;
    assert LinkAt(tokens, sid, expires, chain, i);
  }

  lemma ActiveIsNewest(w: World, h: Hash)
    requires Inv(w) && h in w.db.tokens && w.db.tokens[h].active
    ensures w.db.tokens[h].session in w.chains && w.chains[w.db.tokens[h].session] != []
    ensures h == Newest(w.chains[w.db.tokens[h].session])
  {
    var sid := w.db.tokens[h].session;
    assert FamilyOk(w, sid);
    ActiveIsLast(w.db.tokens, sid, w.db.sessions[sid].expires, w.chains[sid], h);
  }

  lemma OtherFamily(before: map<Hash, RefreshToken>, after: map<Hash, RefreshToken>, sid: SessionId, expires: int,
      chain: seq<Hash>)
    requires Linked(before, sid, expires, chain)
    requires forall h | h in before && before[h].session == sid :: h in after && after[h] == before[h]
    requires forall h | h in after && after[h].session == sid :: h in before
    requires forall h | h in after && h in before :: after[h].session == before[h].session
    ensures Linked(after, sid, expires, chain)
  {
    forall i | 0 <= i < |chain| ensures LinkAt(after, sid, expires, chain, i) {
      assert LinkAt(before, sid, expires, chain, i);
    }
  }

  /** What a successful rotation of h writes. */
  ghost predicate Rotates(w: World, h: Hash, next: Hash, w': World) {
    && h in w.db.tokens && next !in w.issued
    && var sid := w.db.tokens[h].session;
       && sid in w.db.sessions && sid in w.chains
       && w'.db.accounts == w.db.accounts && w'.db.sessions == w.db.sessions
       && w'.db.tokens == w.db.tokens[h := w.db.tokens[h].(active := false, replacedBy := Some(next))]
                                     [next := RefreshToken(sid, true, w.db.sessions[sid].expires, None)]
       && w'.chains == w.chains[sid := w.chains[sid] + [next]]
       && w'.issued == w.issued + {next} && w'.issuedSessions == w.issuedSessions && w'.swept == w.swept
  }

  lemma RotatedFamily(w: World, h: Hash, next: Hash, w': World)
    requires Rotates(w, h, next, w') && next !in w.db.tokens && w.db.tokens[h].active
    requires var sid := w.db.tokens[h].session; FamilyOk(w, sid)
    ensures FamilyOk(w', w.db.tokens[h].session)
  {
    var sid := w.db.tokens[h].session;
    var expires := w.db.sessions[sid].expires;
    ActiveIsLast(w.db.tokens, sid, expires, w.chains[sid], h);
    RotationExtends(w.db.tokens, sid, expires, w.chains[sid], h, next);
    assert Newest(w'.chains[sid]) == next;
    assert LinkAt(w'.db.tokens, sid, expires, w'.chains[sid], |w'.chains[sid]| - 1);
  }

  lemma UnrotatedFamily(w: World, h: Hash, next: Hash, w': World, s: SessionId)
    requires Rotates(w, h, next, w') && next !in w.db.tokens && s != w.db.tokens[h].session
    requires s in w.db.sessions && FamilyOk(w, s)
    ensures s in w'.db.sessions && FamilyOk(w', s)
  {
    OtherFamily(w.db.tokens, w'.db.tokens, s, w.db.sessions[s].expires, w.chains[s]);
  }

  lemma RotationFamily(w: World, h: Hash, next: Hash, w': World, s: SessionId)
    requires Rotates(w, h, next, w') && next !in w.db.tokens && w.db.tokens[h].active
    requires s in w.db.sessions && FamilyOk(w, s)
    ensures s in w'.db.sessions && FamilyOk(w', s)
  {
    if s == w.db.tokens[h].session { RotatedFamily(w, h, next, w'); } else { UnrotatedFamily(w, h, next, w', s); }
  }

  lemma RotationTokens(w: World, h: Hash, next: Hash, w': World)
    requires Rotates(w, h, next, w')
    requires forall g | g in w.db.tokens :: g in w.issued && w.db.tokens[g].session in w.db.sessions
    ensures forall g | g in w'.db.tokens :: g in w'.issued && w'.db.tokens[g].session in w'.db.sessions
  {
    assert next !in w.db.tokens;
  }

  lemma RotateKeeps(w: World, h: Hash, next: Hash, w': World)
    requires Inv(w) && Rotates(w, h, next, w') && w.db.tokens[h].active
    ensures Inv(w')
  {
    RotationTokens(w, h, next, w');
    forall s | s in w'.db.sessions ensures FamilyOk(w', s) {
      RotationFamily(w, h, next, w', s);
    }
  }

  lemma PurgeKeeps(w: World, ev: Event)
    requires Inv(w) && Enabled(w, ev) && ev.Purge?
    ensures Inv(Apply(w, ev))
  {
    var w' := Apply(w, ev);
    forall s | s in w'.db.sessions ensures FamilyOk(w', s) {
      assert FamilyOk(w, s);
      OtherFamily(w.db.tokens, w'.db.tokens, s, w.db.sessions[s].expires, w.chains[s]);
    }
  }

  lemma IdleKeeps(w: World, w': World)
    requires Inv(w) && w'.chains == w.chains && w'.swept == w.swept
    requires w'.db.accounts == w.db.accounts && w'.db.sessions == w.db.sessions && w'.db.tokens == w.db.tokens
    requires w.issued <= w'.issued && w.issuedSessions <= w'.issuedSessions
    ensures Inv(w')
  {
    forall sid | sid in w'.db.sessions ensures FamilyOk(w', sid) { assert FamilyOk(w, sid); }
  }

  lemma IsRotation(w: World, ev: Event)
    requires Enabled(w, ev) && ev.Refresh? && RotateAnswerOf(w.db, ev.h, w.now).Rotated?
    requires RotateAnswerOf(w.db, ev.h, w.now).session in w.chains
    ensures w.db.tokens[ev.h].active && Rotates(w, ev.h, ev.next, Apply(w, ev))
  {}

  lemma IsSweep(w: World, ev: Event)
    requires Enabled(w, ev) && ev.Refresh?
    requires RotateAnswerOf(w.db, ev.h, w.now).Reused? || RotateAnswerOf(w.db, ev.h, w.now).Refused?
    ensures w.db.tokens[ev.h].session in w.db.sessions
    ensures Sweeps(w, w.db.tokens[ev.h].session, Apply(w, ev))
  {}

  lemma IsIdle(w: World, ev: Event)
    requires Enabled(w, ev) && ev.Refresh?
    requires RotateAnswerOf(w.db, ev.h, w.now).UnknownToken? || RotateAnswerOf(w.db, ev.h, w.now).SessionInactive?
    ensures var w' := Apply(w, ev);
            && w'.db == w.db && w'.chains == w.chains && w'.swept == w.swept
            && w.issued <= w'.issued && w.issuedSessions == w'.issuedSessions
  {}

  lemma RefreshKeeps(w: World, ev: Event)
    requires Inv(w) && Enabled(w, ev) && ev.Refresh?
    ensures Inv(Apply(w, ev))
  {
    var w' := Apply(w, ev);
    match RotateAnswerOf(w.db, ev.h, w.now) {
      case Rotated(sid) =>
        assert FamilyOk(w, sid);
        IsRotation(w, ev);
        RotateKeeps(w, ev.h, ev.next, w');
      case Reused =>
        IsSweep(w, ev);
        SweepKeeps(w, w.db.tokens[ev.h].session, w');
      case Refused(_) =>
        IsSweep(w, ev);
        SweepKeeps(w, w.db.tokens[ev.h].session, w');
      case _ =>
        IsIdle(w, ev);
        IdleKeeps(w, w');
    }
  }

  lemma RevokeNothing(db: Db, sid: SessionId)
    requires sid !in db.sessions && forall h | h in db.tokens :: db.tokens[h].session != sid
    ensures RevokeSessionTx(db, sid) == db
  {
    assert RevokeSessionTx(db, sid).sessions == db.sessions && RevokeSessionTx(db, sid).tokens == db.tokens;
  }

  lemma LogoutKeeps(w: World, ev: Event)
    requires Inv(w) && Enabled(w, ev) && ev.Logout?
    ensures Inv(Apply(w, ev))
  {
    if ev.sid in w.db.sessions {
      SweepKeeps(w, ev.sid, Apply(w, ev));
    } else {
      RevokeNothing(w.db, ev.sid);
      IdleKeeps(w, Apply(w, ev));
    }
  }

  lemma StepKeepsInv(w: World, ev: Event)
    requires Inv(w) && Enabled(w, ev)
    ensures Inv(Apply(w, ev))
  {
    match ev {
      case Login(_, _, _, _) => LoginKeeps(w, ev);
      case Purge(_) => PurgeKeeps(w, ev);
      case Logout(_) => LogoutKeeps(w, ev);
      case Refresh(_, _) => RefreshKeeps(w, ev);
      case ChangeAccount(_, _) => CredentialStepKeeps(w, ev);
      case ResetPassword(_, _, _) => CredentialStepKeeps(w, ev);
      case ActivateAccount(_, _) => CredentialStepKeeps(w, ev);
      case _ => AccountStepKeeps(w, ev);
    }
  }

  lemma {:induction false} RunKeepsInv(w: World, es: seq<Event>)
    requires Inv(w) && Legal(w, es)
    ensures Inv(Run(w, es))
    decreases |es|
  {
    if es != [] {
      StepKeepsInv(w, es[0]);
      RunKeepsInv(Apply(w, es[0]), es[1..]);
    }
  }
}
