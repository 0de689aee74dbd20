/** The session and activation services as they change their tables. */
module AuthStore {
  import opened Common
  import opened AuthModel

  datatype LoginAnswer = LoggedIn | AccountRefused | TenantRefused

  class AuthTables {
    var accounts: map<UserId, Account>
    var tenants: map<TenantId, bool>
    var sessions: map<SessionId, Session>
    var tokens: map<Hash, RefreshToken>
    var activations: map<Hash, ActivationToken>

    ghost function Contents(): Db
      reads this
    {
      Db(accounts, tenants, sessions, tokens, activations)
    }

    method TenantIsActive(user: UserId) returns (active: bool)
      requires user in accounts
      ensures active <==> TenantActive(Contents(), accounts[user])
      ensures active <==> accounts[user].tenant.Some? && accounts[user].tenant.value in tenants ==>
                tenants[accounts[user].tenant.value]
    {
      var tenant := accounts[user].tenant;
      if tenant.None? || tenant.value !in tenants {
        return true;
      }
      return tenants[tenant.value];
    }

    method Login(p: Principal, sid: SessionId, h: Hash, expires: int) returns (answer: LoginAnswer)
      modifies this`sessions, this`tokens
      ensures Contents() == Create(old(Contents()), p, sid, h, expires)
      ensures var known := p.user in accounts && accounts[p.user].status.Active? && !accounts[p.user].pendingActivation
                && accounts[p.user].version == p.version;
              var suspended := p.userType >= 3 && p.user in accounts && accounts[p.user].tenant.Some?
                && accounts[p.user].tenant.value in tenants && !tenants[accounts[p.user].tenant.value];
              && (answer.LoggedIn? <==> known && !suspended)
              && (answer.TenantRefused? <==> known && suspended)
      ensures answer.LoggedIn? ==>
                && sessions == old(sessions)[sid := Session(p.user, p.version, true, expires)]
                && tokens == old(tokens)[h := RefreshToken(sid, true, expires, None)]
      ensures !answer.LoggedIn? ==> sessions == old(sessions) && tokens == old(tokens)
    {
      if p.user !in accounts {
        return AccountRefused;
      }
      var a := accounts[p.user];
      if !a.status.Active? || a.pendingActivation || a.version != p.version {
        return AccountRefused;
      }
      if p.userType >= 3 {
        var active := TenantIsActive(p.user);
        if !active {
          return TenantRefused;
        }
      }
      sessions := sessions[sid := Session(p.user, p.version, true, expires)];
      tokens := tokens[h := RefreshToken(sid, true, expires, None)];
      answer := LoggedIn;
    }

    /** Afterwards nothing of the session is active; nothing else changed, and no row came or went. */
    method RevokeSession(sid: SessionId)
      modifies this`sessions, this`tokens
      ensures Contents() == RevokeSessionTx(old(Contents()), sid)
      ensures sessions.Keys == old(sessions).Keys && tokens.Keys == old(tokens).Keys
      ensures sid in sessions ==> !sessions[sid].active
      ensures forall h | h in tokens && tokens[h].session == sid :: !tokens[h].active
      ensures forall s | s in sessions && s != sid :: sessions[s] == old(sessions)[s]
      ensures forall h | h in tokens && (tokens[h].session != sid || !old(tokens)[h].active) ::
          tokens[h] == old(tokens)[h]
    {
      sessions := map s | s in sessions :: if s == sid then sessions[s].(active := false) else sessions[s];
      tokens := map h | h in tokens :: if tokens[h].session == sid then tokens[h].(active := false) else tokens[h];
    }

    method WhyRefuse(h: Hash, now: int) returns (why: Option<Refusal>)
      requires Joined(Contents(), h)
      ensures var s := sessions[tokens[h].session];
              why == RefusalOf(Contents(), tokens[h], s, accounts[s.user], now)
    {
      var t := tokens[h];
      var s := sessions[t.session];
      var a := accounts[s.user];
      if now >= t.expires || now >= s.expires {
        return Some(Expired);
      }
      if !a.status.Active? {
        return Some(AccountInactive);
      }
      if a.pendingActivation {
        return Some(CredentialInactive);
      }
      if s.version != a.version {
        return Some(CredentialChanged);
      }
      if a.userType >= 3 {
        var active := TenantIsActive(s.user);
        if !active {
          return Some(TenantInactive);
        }
      }
      why := None;
    }

    method RotateToken(h: Hash, next: Hash, now: int) returns (answer: RotateAnswer)
      modifies this`sessions, this`tokens
      ensures answer == RotateAnswerOf(old(Contents()), h, now)
      ensures Contents() == Rotate(old(Contents()), h, next, now)
      ensures answer.UnknownToken? <==>
                !(h in old(tokens) && old(tokens)[h].session in old(sessions)
                  && old(sessions)[old(tokens)[h].session].user in accounts)
      ensures !answer.UnknownToken? ==>
                var t := old(tokens)[h]; var s := old(sessions)[t.session]; var a := accounts[s.user];
                var live := s.active && t.active;
                var unexpired := now < t.expires && now < s.expires;
                var suspended := a.tenant.Some? && a.tenant.value in tenants && !tenants[a.tenant.value];
                var closed := a.userType >= 3 && suspended;
                var settled := a.status.Active? && !a.pendingActivation && s.version == a.version;
                && (answer.SessionInactive? <==> !s.active)
                && (answer.Reused? <==> s.active && !t.active)
                && (answer == Refused(Expired) <==> live && !unexpired)
                && (answer == Refused(AccountInactive) <==> live && unexpired && !a.status.Active?)
                && (answer == Refused(CredentialInactive) <==>
                      live && unexpired && a.status.Active? && a.pendingActivation)
                && (answer == Refused(CredentialChanged) <==>
                      live && unexpired && a.status.Active? && !a.pendingActivation && s.version != a.version)
                && (answer == Refused(TenantInactive) <==> live && unexpired && settled && closed)
                && (answer == Rotated(t.session) <==> live && unexpired && settled && !closed)
      ensures answer.Rotated? ==>
                var t := old(tokens)[h];
                && tokens == old(tokens)[h := t.(active := false, replacedBy := Some(next))]
                               [next := RefreshToken(t.session, true, old(sessions)[t.session].expires, None)]
                && sessions == old(sessions)
      ensures answer.UnknownToken? || answer.SessionInactive? ==> Contents() == old(Contents())
      ensures answer.Reused? || answer.Refused? ==>
                var sid := old(tokens)[h].session;
                && sessions == old(sessions)[sid := old(sessions)[sid].(active := false)]
                && tokens.Keys == old(tokens).Keys
                && forall g | g in tokens :: tokens[g] ==
                     if old(tokens)[g].session == sid then old(tokens)[g].(active := false) else old(tokens)[g]
    {
      if h !in tokens || tokens[h].session !in sessions || sessions[tokens[h].session].user !in accounts {
        return UnknownToken;
      }
      var t := tokens[h];
      var sid := t.session;
      var s := sessions[sid];
      if !s.active {
        return SessionInactive;
      }
      if !t.active {
        RevokeSession(sid);
        return Reused;
      }
      var why := WhyRefuse(h, now);
      if why.Some? {
        RevokeSession(sid);
        return Refused(why.value);
      }
      tokens := tokens[h := t.(active := false, replacedBy := Some(next))];
      tokens := tokens[next := RefreshToken(sid, true, s.expires, None)];
      answer := Rotated(sid);
    }

    /**
     * An account update, and the trigger it fires.  If the user's sessions matched the
     * account before, those still active afterwards match it as it is now.
     */
    method UpdateAccount(user: UserId, after: Account)
      requires user in accounts
      modifies this`accounts, this`sessions
      ensures Contents() == WriteAccount(old(Contents()), user, after)
      ensures user in accounts && accounts[user] == after && accounts.Keys == old(accounts).Keys
      ensures forall u | u in accounts && u != user :: accounts[u] == old(accounts)[u]
      ensures sessions.Keys == old(sessions).Keys
      ensures forall s | s in sessions && sessions[s].user != user :: sessions[s] == old(sessions)[s]
      ensures var before := old(accounts)[user];
              if before.status == after.status && before.version == after.version
                 && before.userType == after.userType && before.tenant == after.tenant
              then sessions == old(sessions)
              else forall s | s in sessions && sessions[s].user == user ::
                  sessions[s] == old(sessions)[s].(active := false)
      ensures (forall s | s in old(sessions) && old(sessions)[s].user == user && old(sessions)[s].active ::
                 old(sessions)[s].version == old(accounts)[user].version) ==>
              forall s | s in sessions && sessions[s].user == user && sessions[s].active ::
                  sessions[s].version == after.version
    {
      var before := accounts[user];
      accounts := accounts[user := after];
      if TriggerFires(before, after) {
        sessions := map s | s in sessions ::
          if sessions[s].user == user then sessions[s].(active := false) else sessions[s];
      }
    }

    method ConsumeActivations(user: UserId)
      modifies this`activations
      ensures activations == map g | g in old(activations) ::
                if old(activations)[g].user == user then old(activations)[g].(consumed := true) else old(activations)[g]
    {
      activations := map g | g in activations ::
        if activations[g].user == user then activations[g].(consumed := true) else activations[g];
    }

    /** Afterwards the account's one unconsumed token is the new one; other accounts keep theirs. */
    method StoreActivation(user: UserId, h: Hash, expires: int)
      modifies this`activations
      ensures Contents() == Store(old(Contents()), user, h, expires)
      ensures activations.Keys == old(activations).Keys + {h}
      ensures forall g | g in activations && activations[g].user == user :: !activations[g].consumed <==> g == h
      ensures forall g | g in activations && activations[g].user != user :: activations[g] == old(activations)[g]
    {
      ConsumeActivations(user);
      activations := activations[h := ActivationToken(user, expires, false)];
    }

    method ResetCredential(user: UserId, h: Hash, expires: int) returns (ok: bool)
      modifies this`accounts, this`sessions, this`activations
      ensures Contents() == Reset(old(Contents()), user, h, expires)
      ensures ok <==> user in old(accounts) && !old(accounts)[user].status.Deleted?
      ensures !ok ==> Contents() == old(Contents())
      ensures ok ==>
                var a := old(accounts)[user];
                && accounts == old(accounts)[user := a.(pendingActivation := true, version := a.version + 1)]
                && sessions.Keys == old(sessions).Keys
                && (forall s | s in sessions :: sessions[s] ==
                      if old(sessions)[s].user == user then old(sessions)[s].(active := false) else old(sessions)[s])
                && activations.Keys == old(activations).Keys + {h}
                && activations[h] == ActivationToken(user, expires, false)
                && forall g | g in activations && g != h :: activations[g] ==
                     if old(activations)[g].user == user then old(activations)[g].(consumed := true)
                     else old(activations)[g]
    {
      if user !in accounts || accounts[user].status.Deleted? {
        return false;
      }
      var a := accounts[user];
      UpdateAccount(user, a.(pendingActivation := true, version := a.version + 1));
      StoreActivation(user, h, expires);
      ok := true;
    }

    method ActivateCredential(h: Hash, strong: bool, now: int) returns (answer: ActivateAnswer)
      modifies this`accounts, this`sessions, this`activations
      ensures answer == ActivateAnswerOf(old(Contents()), h, strong, now)
      ensures Contents() == Activate(old(Contents()), h, strong, now)
      ensures var found := h in old(activations) && old(activations)[h].user in old(accounts);
              if !found then answer.UnknownActivation? else
                var t := old(activations)[h]; var a := old(accounts)[t.user];
                var awaited := !a.status.Deleted? && a.pendingActivation;
                && (answer.UsedActivation? <==> t.consumed)
                && (answer.ExpiredActivation? <==> !t.consumed && t.expires <= now)
                && (answer.UnknownActivation? <==> !t.consumed && now < t.expires && !awaited)
                && (answer.WeakPassword? <==> !t.consumed && now < t.expires && awaited && !strong)
                && (answer == Activated(t.user) <==> !t.consumed && now < t.expires && awaited && strong)
      ensures !answer.Activated? ==> Contents() == old(Contents())
      ensures answer.Activated? ==>
                var user := old(activations)[h].user; var a := old(accounts)[user];
                && accounts == old(accounts)[user := a.(pendingActivation := false, version := a.version + 1)]
                && sessions.Keys == old(sessions).Keys
                && (forall s | s in sessions :: sessions[s] ==
                      if old(sessions)[s].user == user then old(sessions)[s].(active := false) else old(sessions)[s])
                && activations.Keys == old(activations).Keys
                && forall g | g in activations :: activations[g] ==
                     if old(activations)[g].user == user then old(activations)[g].(consumed := true)
                     else old(activations)[g]
    {
      if h !in activations || activations[h].user !in accounts {
        return UnknownActivation;
      }
      var t := activations[h];
      var a := accounts[t.user];
      if t.consumed {
        return UsedActivation;
      }
      if now >= t.expires {
        return ExpiredActivation;
      }
      if a.status.Deleted? || !a.pendingActivation {
        return UnknownActivation;
      }
      if !strong {
        return WeakPassword;
      }
      UpdateAccount(t.user, a.(pendingActivation := false, version := a.version + 1));
      ConsumeActivations(t.user);
      answer := Activated(t.user);
    }

    /** The subquery: expired sessions, soonest expiry first, at most `limit`. */
    method ChooseExpired(limit: nat, now: int) returns (gone: set<SessionId>)
      ensures |gone| <= limit && gone <= Lapsed(now)
      ensures forall t | t in Lapsed(now) - gone ::
                |gone| == limit && forall s | s in gone :: sessions[s].expires <= sessions[t].expires
    {
      gone := ChooseFirst(Lapsed(now), ByExpiry(sessions), limit);
      forall t | t in Lapsed(now) - gone
        ensures |gone| == limit && forall s | s in gone :: sessions[s].expires <= sessions[t].expires
      {
        SubsetSize(gone, Lapsed(now));
        assert forall s | s in gone :: Upto(ByExpiry(sessions)(s), ByExpiry(sessions)(t));
      }
    }

    function Lapsed(now: int): set<SessionId>
      reads this
    {
      set s | s in sessions && sessions[s].expires <= now
    }

    /** Deletes expired sessions in one bounded batch, soonest expiry first; their tokens go with them. */
    method DeleteExpired(limit: nat, now: int) returns (gone: set<SessionId>)
      modifies this`sessions, this`tokens
      ensures Contents() == DropSessions(old(Contents()), gone)
      ensures |gone| <= limit && forall s | s in gone :: s in old(sessions) && old(sessions)[s].expires <= now
      ensures sessions == old(sessions) - gone
      ensures forall h :: h in tokens <==> h in old(tokens) && old(tokens)[h].session !in gone
      ensures forall h | h in tokens :: tokens[h] == old(tokens)[h]
      ensures forall t | t in sessions && sessions[t].expires <= now ::
                |gone| == limit && forall s | s in gone :: old(sessions)[s].expires <= sessions[t].expires
    {
      gone := ChooseExpired(limit, now);
      sessions := sessions - gone;
      tokens := map h | h in tokens && tokens[h].session !in gone :: tokens[h];
    }
  }

  function ByExpiry(sessions: map<SessionId, Session>): SessionId -> SortKey {
    s => (if s in sessions then sessions[s].expires else 0, 0)
  }
}
