/** Activation tokens: one live token per account, used at most once. */
module Activations {
  import opened Common
  import opened AuthModel

  /** `latest` records the token stored last for each user. */
  datatype World = World(db: Db, now: int, issued: set<Hash>, latest: map<UserId, Hash>)

  datatype Event =
    | Tick(time: int)
    | NewAccount(user: UserId, account: Account)
    | ChangeAccount(user: UserId, account: Account)
    | StoreToken(user: UserId, h: Hash, expires: int)       // a new account's first token
    | ResetPassword(user: UserId, h: Hash, expires: int)
    | ActivateAccount(h: Hash, strong: bool)
    | Purge(gone: set<Hash>)

  predicate Enabled(w: World, ev: Event) {
    match ev
    case Tick(t) => w.now <= t
    case NewAccount(u, _) => u !in w.db.accounts
    case ChangeAccount(u, a) => u in w.db.accounts && w.db.accounts[u].version <= a.version
    case StoreToken(u, h, _) => u in w.db.accounts && h !in w.issued
    case ResetPassword(_, h, _) => h !in w.issued
    case _ => true
  }

  function Apply(w: World, ev: Event): World
    requires Enabled(w, ev)
  {
    match ev
    case Tick(t) => w.(now := t)
    case NewAccount(u, a) => w.(db := w.db.(accounts := w.db.accounts[u := a]))
    case ChangeAccount(u, a) => w.(db := WriteAccount(w.db, u, a))
    case StoreToken(u, h, expires) =>
      World(Store(w.db, u, h, expires), w.now, w.issued + {h}, w.latest[u := h])
    case ResetPassword(u, h, expires) =>
      World(Reset(w.db, u, h, expires), w.now, w.issued + {h}, if MayReset(w.db, u) then w.latest[u := h] else w.latest)
    case ActivateAccount(h, strong) => w.(db := Activate(w.db, h, strong, w.now))
    case Purge(gone) => w.(db := w.db.(activations := w.db.activations - gone))
  }

  predicate Legal(w: World, es: seq<Event>)
    decreases |es|
  {
    es == [] || (Enabled(w, es[0]) && Legal(Apply(w, es[0]), es[1..]))
  }

  function Run(w: World, es: seq<Event>): World
    requires Legal(w, es)
    decreases |es|
  {
    if es == [] then w else Run(Apply(w, es[0]), es[1..])
  }

  const EMPTY: World := World(Db(map[], map[], map[], map[], map[]), 0, {}, map[])

  /** An unconsumed token is its user's latest. */
  ghost predicate Inv(w: World) {
    && w.db.activations.Keys <= w.issued
    && (forall h | h in w.db.activations && !w.db.activations[h].consumed ::
          w.db.activations[h].user in w.latest && w.latest[w.db.activations[h].user] == h)
  }

  lemma StepKeepsInv(w: World, ev: Event)
    requires Inv(w) && Enabled(w, ev)
    ensures Inv(Apply(w, ev))
  {}

  lemma {:induction false} RunKeepsInv(w: World, es: seq<Event>)
    requires Inv(w) && Legal(w, es)
    ensures Inv(Run(w, es))
    decreases |es|
  {
    if es != [] {
      StepKeepsInv(w, es[0]);
      RunKeepsInv(Apply(w, es[0]), es[1..]);
    }
  }

  /** In every reachable state an account has at most one unconsumed token, and only the latest can activate. */
  lemma OneLiveToken(es: seq<Event>, g: Hash, h: Hash)
    requires Legal(EMPTY, es)
    ensures (var w := Run(EMPTY, es);
             && g in w.db.activations && h in w.db.activations && w.db.activations[g].user == w.db.activations[h].user
             && !w.db.activations[g].consumed && !w.db.activations[h].consumed) ==> g == h
    ensures forall strong :: ActivateAnswerOf(Run(EMPTY, es).db, h, strong, Run(EMPTY, es).now).Activated? ==>
              (var w := Run(EMPTY, es); var user := w.db.activations[h].user; user in w.latest && w.latest[user] == h)
  {
    RunKeepsInv(EMPTY, es);
  }

  predicate Used(w: World, h: Hash) {
    h in w.issued && (h in w.db.activations ==> w.db.activations[h].consumed)
  }

  lemma StepKeepsUsed(w: World, ev: Event, h: Hash)
    requires Enabled(w, ev) && Used(w, h)
    ensures Used(Apply(w, ev), h)
  {}

  lemma {:induction false} UsedForGood(w: World, es: seq<Event>, h: Hash)
    requires Legal(w, es) && Used(w, h)
    ensures Used(Run(w, es), h)
    decreases |es|
  {
    if es != [] {
      StepKeepsUsed(w, es[0], h);
      UsedForGood(Apply(w, es[0]), es[1..], h);
    }
  }

  /** A token activates at most once; afterwards it reads as used, or unknown once purged. */
  lemma ActivatesOnce(w: World, h: Hash, strong: bool, es: seq<Event>, again: bool)
    requires Inv(w) && ActivateAnswerOf(w.db, h, strong, w.now).Activated?
    requires Legal(Apply(w, ActivateAccount(h, strong)), es)
    ensures var w' := Run(Apply(w, ActivateAccount(h, strong)), es);
            var answer := ActivateAnswerOf(w'.db, h, again, w'.now);
            answer.UsedActivation? || answer.UnknownActivation?
  {
    UsedForGood(Apply(w, ActivateAccount(h, strong)), es, h);
  }

  /** A newer token, whoever asked for it, retires the older ones for good. */
  lemma NewerTokenRetiresOlder(w: World, ev: Event, user: UserId, earlier: Hash, es: seq<Event>, strong: bool)
    requires Inv(w) && Enabled(w, ev) && earlier in w.db.activations && w.db.activations[earlier].user == user
    requires (ev.StoreToken? && ev.user == user) || (ev.ResetPassword? && ev.user == user && MayReset(w.db, user))
    requires Legal(Apply(w, ev), es)
    ensures var w' := Run(Apply(w, ev), es); !ActivateAnswerOf(w'.db, earlier, strong, w'.now).Activated?
  {
    assert Used(Apply(w, ev), earlier);
    UsedForGood(Apply(w, ev), es, earlier);
  }

  /** Accounts come and change as written. */
  lemma AccountsAreWritten(w: World, ev: Event)
    requires Enabled(w, ev) && (ev.NewAccount? || ev.ChangeAccount?)
    ensures Apply(w, ev).db.accounts == w.db.accounts[ev.user := ev.account]
    ensures Apply(w, ev).db.activations == w.db.activations
  {}

  // ----- a token that waits -----

  /** The token can still be used: unconsumed, unexpired, its account pending and not deleted. */
  predicate Awaits(w: World, h: Hash) {
    && h in w.db.activations && !w.db.activations[h].consumed && w.now < w.db.activations[h].expires
    && w.db.activations[h].user in w.db.accounts
    && w.db.accounts[w.db.activations[h].user].pendingActivation
    && !w.db.accounts[w.db.activations[h].user].status.Deleted?
  }

  /** Neither its expiry nor its purge, no newer token, no other write that settles its account, and no use of it. */
  predicate Spares(w: World, ev: Event, h: Hash) {
    Awaits(w, h) ==>
      var user := w.db.activations[h].user;
      match ev
      case Tick(t) => t < w.db.activations[h].expires
      case ChangeAccount(u, a) => u == user ==> a.pendingActivation && !a.status.Deleted?
      case StoreToken(u, _, _) => u != user
      case ResetPassword(u, _, _) => u != user
      case ActivateAccount(g, strong) => g == h ==> !strong
      case Purge(gone) => h !in gone
      case _ => true
  }

  predicate AllSpare(w: World, es: seq<Event>, h: Hash)
    requires Legal(w, es)
    decreases |es|
  {
    es == [] || (Spares(w, es[0], h) && AllSpare(Apply(w, es[0]), es[1..], h))
  }

  lemma StepSpares(w: World, ev: Event, h: Hash)
    requires Inv(w) && Awaits(w, h) && Enabled(w, ev) && Spares(w, ev, h)
    ensures Awaits(Apply(w, ev), h) && Apply(w, ev).db.activations[h] == w.db.activations[h]
  {}

  lemma {:induction false} TokenWaits(w: World, es: seq<Event>, h: Hash)
    requires Inv(w) && Awaits(w, h) && Legal(w, es) && AllSpare(w, es, h)
    ensures Awaits(Run(w, es), h) && Run(w, es).db.activations[h] == w.db.activations[h]
    decreases |es|
  {
    if es != [] {
      StepKeepsInv(w, es[0]);
      StepSpares(w, es[0], h);
      TokenWaits(Apply(w, es[0]), es[1..], h);
    }
  }

  /**
   * A reset's token works until it expires: whatever other accounts do, and however often
   * older tokens or weak passwords are tried, a strong password then activates the account.
   */
  lemma ResetThenActivates(w: World, user: UserId, h: Hash, expires: int, es: seq<Event>)
    requires Inv(w) && Enabled(w, ResetPassword(user, h, expires)) && w.now < expires
    requires user in w.db.accounts && !w.db.accounts[user].status.Deleted?
    requires var w1 := Apply(w, ResetPassword(user, h, expires)); Legal(w1, es) && AllSpare(w1, es, h)
    ensures var w' := Run(Apply(w, ResetPassword(user, h, expires)), es);
            && ActivateAnswerOf(w'.db, h, true, w'.now) == Activated(user)
            && var w2 := Apply(w', ActivateAccount(h, true));
               && user in w2.db.accounts && !w2.db.accounts[user].pendingActivation
               && h in w2.db.activations && w2.db.activations[h].consumed
  {
    var reset := ResetPassword(user, h, expires);
    StepKeepsInv(w, reset);
    TokenWaits(Apply(w, reset), es, h);
  }

  /** Credential versions never fall, and each reset or activation raises its account's by one. */
  lemma VersionsRise(w: World, ev: Event, user: UserId)
    requires Enabled(w, ev) && user in w.db.accounts
    ensures user in Apply(w, ev).db.accounts
    ensures Apply(w, ev).db.accounts[user].version >= w.db.accounts[user].version
    ensures (ev.ResetPassword? && ev.user == user && MayReset(w.db, user))
            || (ev.ActivateAccount? && ActivateAnswerOf(w.db, ev.h, ev.strong, w.now) == Activated(user)) ==>
              Apply(w, ev).db.accounts[user].version == w.db.accounts[user].version + 1
  {}
}
