/** Login challenges answered with a one-time code: the Redis keys and the consuming script. */
module Mfa {
  import opened Common

  datatype UserId = UserId(num: int)
  datatype Token = Token(num: int)
  datatype VerificationId = VerificationId(num: int)

  const CHALLENGE_TTL: nat := 300000        // milliseconds; also the life of the accepted-counter key
  const STEP: nat := 30000
  const MAX_ATTEMPTS: nat := 5

  datatype Challenge = Challenge(user: UserId, expires: int)
  datatype Attempts = Attempts(count: nat, expires: Option<int>)
  datatype Accepted = Accepted(counter: nat, expires: int)

  datatype Phase = Loaded | Passed | Checked(counter: nat, at: int)
  datatype Verification = Verification(token: Token, user: UserId, phase: Phase)

  /** An accepted code: read as `counter` at `checkedAt`, consumed at `at`. */
  datatype Success = Success(token: Token, user: UserId, counter: nat, checkedAt: int, at: int)

  /**
   * A key is gone once its deadline is reached.  `created`, `passes` (how often a
   * token's attempt gate let a request through) and `log` only record.
   */
  datatype World = World(
    now: int,
    challenges: map<Token, Challenge>, attempts: map<Token, Attempts>, accepted: map<UserId, Accepted>,
    running: map<VerificationId, Verification>,
    created: set<Token>, passes: map<Token, nat>, log: seq<Success>)

  datatype Event =
    | Tick(time: int)
    | CreateChallenge(token: Token, user: UserId)
    | Load(v: VerificationId, token: Token)
    | Attempt(v: VerificationId, expireOk: bool, deleteOk: bool)   // INCR, then EXPIRE or DEL, whose errors are ignored
    | Check(v: VerificationId, counter: nat)
    | Consume(v: VerificationId)
    | Abandon(v: VerificationId)

  // ----- the code window -----

  predicate InWindow(counter: nat, at: int) { at / STEP - 1 <= counter <= at / STEP + 1 }

  predicate Matches(code: nat -> int, given: int, c: int) { c >= 0 && code(c) == given }

  /** `code` is the code of each counter under the user's secret. */
  method VerifyTotpCounter(code: nat -> int, given: int, at: int) returns (r: Option<nat>)
    ensures r.Some? ==> InWindow(r.value, at) && Matches(code, given, r.value)
    ensures r.Some? ==> forall c | at / STEP - 1 <= c < r.value :: !Matches(code, given, c)
    ensures r.None? ==> forall c: nat | InWindow(c, at) :: !Matches(code, given, c)
  {
    var base := at / STEP;
    var offset := -1;
    while offset <= 1
      invariant -1 <= offset <= 2
      invariant forall c | base - 1 <= c < base + offset :: !Matches(code, given, c)
    {
      var candidate := base + offset;
      if candidate >= 0 && code(candidate) == given {
        return Some(candidate);
      }
      offset := offset + 1;
    }
    return None;
  }

  // ----- the keys -----

  predicate LiveChallenge(w: World, t: Token) { t in w.challenges && w.now < w.challenges[t].expires }

  predicate Alive(expires: Option<int>, now: int) { expires.Some? ==> now < expires.value }

  predicate LiveAttempts(w: World, t: Token) { t in w.attempts && Alive(w.attempts[t].expires, w.now) }

  predicate LiveAccepted(w: World, u: UserId) { u in w.accepted && w.now < w.accepted[u].expires }

  function PassesOf(w: World, t: Token): nat { if t in w.passes then w.passes[t] else 0 }

  /** INCR, and EXPIRE on the first attempt. */
  function Incremented(w: World, t: Token, expireOk: bool): Attempts {
    if LiveAttempts(w, t) then w.attempts[t].(count := w.attempts[t].count + 1)
    else Attempts(1, if expireOk then Some(w.now + CHALLENGE_TTL) else None)
  }

  function AttemptStep(w: World, v: VerificationId, expireOk: bool, deleteOk: bool): World
    requires v in w.running
  {
    var t := w.running[v].token;
    var a := Incremented(w, t, expireOk);
    if a.count <= MAX_ATTEMPTS then
      w.(attempts := w.attempts[t := a], passes := w.passes[t := PassesOf(w, t) + 1],
         running := w.running[v := w.running[v].(phase := Passed)])
    else if deleteOk then
      w.(attempts := w.attempts - {t}, challenges := w.challenges - {t}, running := w.running - {v})
    else
      w.(attempts := w.attempts[t := a], running := w.running - {v})
  }

  /** What the script finds: the challenge as it was loaded, and no counter at or past this one. */
  predicate ScriptAccepts(w: World, v: Verification) {
    && v.phase.Checked? && LiveChallenge(w, v.token) && w.challenges[v.token].user == v.user
    && !(LiveAccepted(w, v.user) && w.accepted[v.user].counter >= v.phase.counter)
  }

  function ConsumeStep(w: World, v: VerificationId): World
    requires v in w.running && w.running[v].phase.Checked?
  {
    var r := w.running[v];
    if ScriptAccepts(w, r) then
      w.(accepted := w.accepted[r.user := Accepted(r.phase.counter, w.now + CHALLENGE_TTL)],
         challenges := w.challenges - {r.token}, attempts := w.attempts - {r.token}, running := w.running - {v},
         log := w.log + [Success(r.token, r.user, r.phase.counter, r.phase.at, w.now)])
    else w.(running := w.running - {v})
  }

  /** The three Redis keys as the service and its script change them. */
  class ChallengeKeys {
    var challenges: map<Token, Challenge>
    var attempts: map<Token, Attempts>
    var accepted: map<UserId, Accepted>

    ghost predicate Holds(w: World)
      reads this
    {
      challenges == w.challenges && attempts == w.attempts && accepted == w.accepted
    }

    method Attempt(v: VerificationId, t: Token, now: int, expireOk: bool, deleteOk: bool, ghost w: World)
        returns (pass: bool)
      requires Holds(w) && now == w.now && v in w.running && w.running[v].token == t
      modifies this`challenges, this`attempts
      ensures Holds(AttemptStep(w, v, expireOk, deleteOk))
      ensures var live := t in old(attempts) &&
                (old(attempts)[t].expires.Some? ==> now < old(attempts)[t].expires.value);
              var count := if live then old(attempts)[t].count + 1 else 1;
              var expires := if live then old(attempts)[t].expires else if expireOk then Some(now + 300000) else None;
              && (pass <==> count <= 5)
              && (pass || !deleteOk ==>
                    challenges == old(challenges) && attempts == old(attempts)[t := Attempts(count, expires)])
              && (!pass && deleteOk ==> challenges == old(challenges) - {t} && attempts == old(attempts) - {t})
    {
      var live := t in attempts && (attempts[t].expires.Some? ==> now < attempts[t].expires.value);
      var count := if live then attempts[t].count + 1 else 1;
      var expires := if live then attempts[t].expires else None;
      if count == 1 && expireOk && !live {
        expires := Some(now + CHALLENGE_TTL);
      }
      attempts := attempts[t := Attempts(count, expires)];
      if count > MAX_ATTEMPTS {
        if deleteOk {
          challenges := challenges - {t};
          attempts := attempts - {t};
        }
        return false;
      }
      pass := true;
    }

    /** The script: 1 accepts, 0 finds no such challenge, -1 a counter already used or passed. */
    method RunScript(v: VerificationId, r: Verification, now: int, ghost w: World) returns (code: int)
      requires Holds(w) && now == w.now && v in w.running && w.running[v] == r && r.phase.Checked?
      modifies this
      ensures Holds(ConsumeStep(w, v))
      ensures var known := r.token in old(challenges) && now < old(challenges)[r.token].expires
                && old(challenges)[r.token].user == r.user;
              var used := r.user in old(accepted) && now < old(accepted)[r.user].expires
                && r.phase.counter <= old(accepted)[r.user].counter;
              code == if !known then 0 else if used then -1 else 1
      ensures code == 1 ==>
                && accepted == old(accepted)[r.user := Accepted(r.phase.counter, now + 300000)]
                && challenges == old(challenges) - {r.token} && attempts == old(attempts) - {r.token}
      ensures code != 1 ==>
                accepted == old(accepted) && challenges == old(challenges) && attempts == old(attempts)
    {
      if r.token !in challenges || now >= challenges[r.token].expires || challenges[r.token].user != r.user {
        return 0;
      }
      if r.user in accepted && now < accepted[r.user].expires && accepted[r.user].counter >= r.phase.counter {
        return -1;
      }
      accepted := accepted[r.user := Accepted(r.phase.counter, now + CHALLENGE_TTL)];
      challenges := challenges - {r.token};
      attempts := attempts - {r.token};
      code := 1;
    }
  }

  predicate InPhase(w: World, v: VerificationId, p: Phase) { v in w.running && w.running[v].phase == p }

  predicate Enabled(w: World, ev: Event) {
    match ev
    case Tick(t) => w.now <= t
    case CreateChallenge(t, _) => t !in w.created
    case Load(v, t) => v !in w.running && LiveChallenge(w, t)
    case Attempt(v, _, _) => InPhase(w, v, Loaded)
    case Check(v, c) => InPhase(w, v, Passed) && InWindow(c, w.now)
    case Consume(v) => v in w.running && w.running[v].phase.Checked?
    case Abandon(v) => v in w.running
  }

  function Apply(w: World, ev: Event): World
    requires Enabled(w, ev)
  {
    match ev
    case Tick(t) => w.(now := t)
    case CreateChallenge(t, u) =>
      w.(challenges := w.challenges[t := Challenge(u, w.now + CHALLENGE_TTL)], created := w.created + {t})
    case Load(v, t) => w.(running := w.running[v := Verification(t, w.challenges[t].user, Loaded)])
    case Attempt(v, expireOk, deleteOk) => AttemptStep(w, v, expireOk, deleteOk)
    case Check(v, c) => w.(running := w.running[v := w.running[v].(phase := Checked(c, w.now))])
    case Consume(v) => ConsumeStep(w, v)
    case Abandon(v) => w.(running := w.running - {v})
  }

  /** The script runs at most `delay` after the code was checked. */
  predicate Prompt(w: World, ev: Event, delay: nat) {
    ev.Consume? && ev.v in w.running && w.running[ev.v].phase.Checked? ==> w.now - w.running[ev.v].phase.at <= delay
  }

  predicate Legal(w: World, es: seq<Event>, delay: nat)
    decreases |es|
  {
    es == [] || (Enabled(w, es[0]) && Prompt(w, es[0], delay) && Legal(Apply(w, es[0]), es[1..], delay))
  }

  function Run(w: World, es: seq<Event>, delay: nat): World
    requires Legal(w, es, delay)
    decreases |es|
  {
    if es == [] then w else Run(Apply(w, es[0]), es[1..], delay)
  }

  const EMPTY: World := World(0, map[], map[], map[], map[], {}, map[], [])

  // ----- invariants -----

  predicate CheckedOk(v: Verification, now: int) {
    v.phase.Checked? ==> InWindow(v.phase.counter, v.phase.at) && v.phase.at <= now
  }

  predicate SuccessOk(w: World, s: Success) {
    && s.token in w.created && s.token !in w.challenges
    && InWindow(s.counter, s.checkedAt) && s.checkedAt <= s.at <= w.now
  }

  /** While a challenge lives, so does its attempt key, counting every request let through. */
  predicate GateOk(w: World, t: Token) {
    LiveChallenge(w, t) ==>
      && PassesOf(w, t) <= MAX_ATTEMPTS
      && (PassesOf(w, t) > 0 ==> t in w.attempts && PassesOf(w, t) <= w.attempts[t].count)
      && (t in w.attempts && w.attempts[t].expires.Some? ==> w.challenges[t].expires <= w.attempts[t].expires.value)
  }

  ghost predicate TokensOk(w: World) {
    && w.challenges.Keys <= w.created && w.passes.Keys <= w.created && w.attempts.Keys <= w.created
    && (forall t | t in w.challenges :: w.challenges[t].expires <= w.now + CHALLENGE_TTL)
    && (forall v | v in w.running :: w.running[v].token in w.created && CheckedOk(w.running[v], w.now))
  }

  ghost predicate LogOk(w: World) {
    && (forall i | 0 <= i < |w.log| :: SuccessOk(w, w.log[i]))
    && (forall i, j | 0 <= i < j < |w.log| :: w.log[i].token != w.log[j].token)
  }

  ghost predicate Inv(w: World) {
    TokensOk(w) && LogOk(w) && (forall t :: GateOk(w, t))
  }

  lemma StepKeepsTokens(w: World, ev: Event)
    requires TokensOk(w) && Enabled(w, ev)
    ensures TokensOk(Apply(w, ev))
  {
    if ev.Attempt? {
      var t := w.running[ev.v].token;
      assert t in w.created;
    }
  }

  lemma StepKeepsLog(w: World, ev: Event)
    requires TokensOk(w) && LogOk(w) && Enabled(w, ev)
    ensures LogOk(Apply(w, ev))
  {
    var w' := Apply(w, ev);
    forall i | 0 <= i < |w.log| ensures SuccessOk(w', w.log[i]) {
      assert SuccessOk(w, w.log[i]);
    }
  }

  lemma AttemptKeepsGate(w: World, v: VerificationId, expireOk: bool, deleteOk: bool, t: Token)
    requires Inv(w) && v in w.running
    ensures GateOk(AttemptStep(w, v, expireOk, deleteOk), t)
  {
    assert GateOk(w, t);
  }

  lemma StepKeepsGate(w: World, ev: Event, t: Token)
    requires Inv(w) && Enabled(w, ev)
    ensures GateOk(Apply(w, ev), t)
  {
    assert GateOk(w, t);
    if ev.Attempt? {
      AttemptKeepsGate(w, ev.v, ev.expireOk, ev.deleteOk, t);
    }
  }

  lemma StepKeepsInv(w: World, ev: Event)
    requires Inv(w) && Enabled(w, ev)
    ensures Inv(Apply(w, ev))
  {
    StepKeepsTokens(w, ev);
    StepKeepsLog(w, ev);
    forall t ensures GateOk(Apply(w, ev), t) {
      StepKeepsGate(w, ev, t);
    }
  }

  lemma {:induction false} RunKeepsInv(w: World, es: seq<Event>, delay: nat)
    requires Inv(w) && Legal(w, es, delay)
    ensures Inv(Run(w, es, delay))
    decreases |es|
  {
    if es != [] {
      StepKeepsInv(w, es[0]);
      RunKeepsInv(Apply(w, es[0]), es[1..], delay);
    }
  }

  /** However requests race, a challenge succeeds at most once, and while it lives at most five have passed its gate. */
  lemma ChallengesAreOneShot(es: seq<Event>, delay: nat, i: nat, j: nat, t: Token)
    requires Legal(EMPTY, es, delay)
    ensures var log := Run(EMPTY, es, delay).log; i < j < |log| ==> log[i].token != log[j].token
    ensures var w := Run(EMPTY, es, delay);
            LiveChallenge(w, t) ==>
              PassesOf(w, t) <= MAX_ATTEMPTS && (forall k | 0 <= k < |w.log| :: w.log[k].token != t)
  {
    RunKeepsInv(EMPTY, es, delay);
    assert GateOk(Run(EMPTY, es, delay), t);
  }

  /** One verification run alone: the challenge loaded, counted, the code checked and the script run. */
  function Verified(w: World, v: VerificationId, t: Token, counter: nat, expireOk: bool, deleteOk: bool): World
    requires v !in w.running && LiveChallenge(w, t) && InWindow(counter, w.now)
  {
    var w1 := Apply(w, Load(v, t));
    var w2 := Apply(w1, Attempt(v, expireOk, deleteOk));
    if !Enabled(w2, Check(v, counter)) then w2
    else
      var w3 := Apply(w2, Check(v, counter));
      Apply(w3, Consume(v))
  }

  predicate GateOpen(w: World, t: Token) {
    t in w.attempts && (w.attempts[t].expires.Some? ==> w.now < w.attempts[t].expires.value) ==> w.attempts[t].count < 5
  }

  lemma OpenGateLetsThrough(w: World, v: VerificationId, t: Token, counter: nat, expireOk: bool, deleteOk: bool)
    requires v !in w.running && LiveChallenge(w, t) && InWindow(counter, w.now)
    ensures var w2 := Apply(Apply(w, Load(v, t)), Attempt(v, expireOk, deleteOk));
            && w2.accepted == w.accepted && w2.log == w.log && w2.now == w.now
            && (Enabled(w2, Check(v, counter)) <==> GateOpen(w, t))
            && (GateOpen(w, t) ==>
                  w2.challenges == w.challenges && w2.running[v] == Verification(t, w.challenges[t].user, Passed))
  {}

  /**
   * A code of the window lets its user in exactly if fewer than five attempts were
   * counted on the challenge and its counter is past the one remembered.
   */
  lemma RightCodeGetsIn(w: World, v: VerificationId, t: Token, counter: nat, expireOk: bool, deleteOk: bool)
    requires v !in w.running && LiveChallenge(w, t) && InWindow(counter, w.now)
    ensures var u := w.challenges[t].user; var w' := Verified(w, v, t, counter, expireOk, deleteOk);
            var unused := u in w.accepted && w.now < w.accepted[u].expires ==> w.accepted[u].counter < counter;
            if GateOpen(w, t) && unused then
              && w'.log == w.log + [Success(t, u, counter, w.now, w.now)]
              && w'.accepted == w.accepted[u := Accepted(counter, w.now + 300000)]
              && t !in w'.challenges && t !in w'.attempts
            else w'.log == w.log && w'.accepted == w.accepted
  {
    OpenGateLetsThrough(w, v, t, counter, expireOk, deleteOk);
  }

  // ----- one-time use of codes (RFC 6238, section 5.2) -----

  /** A success is remembered by the counter key, or is at least the key's life ago. */
  predicate Remembered(w: World, s: Success) {
    && s.user in w.accepted && s.counter <= w.accepted[s.user].counter
    && s.at + CHALLENGE_TTL <= w.accepted[s.user].expires
  }

  predicate Increasing(log: seq<Success>) {
    forall i, j | 0 <= i < j < |log| && log[i].user == log[j].user :: log[i].counter < log[j].counter
  }

  ghost predicate ReplayInv(w: World) {
    && Inv(w) && Increasing(w.log)
    && (forall i | 0 <= i < |w.log| :: Remembered(w, w.log[i]))
  }

  const SAFE_DELAY: nat := 210000

  /** A window is shut 90 s after its check, and the key outlives that by more than the delay allowed. */
  lemma LaterCounterIsLarger(w: World, s: Success, v: Verification)
    requires Remembered(w, s) && SuccessOk(w, s) && s.user == v.user
    requires ScriptAccepts(w, v) && CheckedOk(v, w.now) && w.now - v.phase.at <= SAFE_DELAY
    ensures s.counter < v.phase.counter
  {}

  lemma SuccessIsLater(w: World, v: VerificationId)
    requires ReplayInv(w) && Enabled(w, Consume(v)) && Prompt(w, Consume(v), SAFE_DELAY)
    requires ScriptAccepts(w, w.running[v])
    ensures forall i | 0 <= i < |w.log| && w.log[i].user == w.running[v].user ::
              w.log[i].counter < w.running[v].phase.counter
  {
    forall i | 0 <= i < |w.log| && w.log[i].user == w.running[v].user
      ensures w.log[i].counter < w.running[v].phase.counter
    {
      LaterCounterIsLarger(w, w.log[i], w.running[v]);
    }
  }

  lemma StepKeepsReplay(w: World, ev: Event)
    requires ReplayInv(w) && Enabled(w, ev) && Prompt(w, ev, SAFE_DELAY)
    ensures ReplayInv(Apply(w, ev))
  {
    StepKeepsInv(w, ev);
    if ev.Consume? && ScriptAccepts(w, w.running[ev.v]) {
      SuccessIsLater(w, ev.v);
    }
  }

  lemma {:induction false} RunKeepsReplay(w: World, es: seq<Event>, delay: nat)
    requires ReplayInv(w) && Legal(w, es, delay) && delay <= SAFE_DELAY
    ensures ReplayInv(Run(w, es, delay))
    decreases |es|
  {
    if es != [] {
      StepKeepsReplay(w, es[0]);
      RunKeepsReplay(Apply(w, es[0]), es[1..], delay);
    }
  }

  ghost predicate CodesAreOneTime(delay: nat) {
    forall es | Legal(EMPTY, es, delay) :: Increasing(Run(EMPTY, es, delay).log)
  }

  // ----- a slower script lets a code in twice -----

  lemma {:induction false} Snoc(w: World, es: seq<Event>, ev: Event, delay: nat)
    requires Legal(w, es, delay) && Enabled(Run(w, es, delay), ev) && Prompt(Run(w, es, delay), ev, delay)
    ensures Legal(w, es + [ev], delay) && Run(w, es + [ev], delay) == Apply(Run(w, es, delay), ev)
    decreases |es|
  {
    if es == [] {
      assert es + [ev] == [ev];
      assert Legal(Apply(w, ev), [], delay);
    } else {
      Snoc(Apply(w, es[0]), es[1..], ev, delay);
      assert (es + [ev])[1..] == es[1..] + [ev];
    }
  }

  /** One more login: a challenge, whose code is checked in the window of counter 1. */
  lemma ReadCode(es: seq<Event>, delay: nat, t: Token) returns (es': seq<Event>)
    requires Legal(EMPTY, es, delay)
    requires var w := Run(EMPTY, es, delay);
             w.running == map[] && t !in w.created && t !in w.attempts && InWindow(1, w.now)
    ensures Legal(EMPTY, es', delay)
    ensures var w := Run(EMPTY, es, delay); var w' := Run(EMPTY, es', delay);
            && w'.now == w.now && w'.accepted == w.accepted && w'.log == w.log && w'.created == w.created + {t}
            && w'.attempts.Keys <= w.attempts.Keys + {t}
            && t in w'.challenges && w'.challenges[t] == Challenge(UserId(1), w.now + CHALLENGE_TTL)
            && w'.running == map[VerificationId(1) := Verification(t, UserId(1), Checked(1, w.now))]
  {
    var v := VerificationId(1);
    var w := Run(EMPTY, es, delay);
    Snoc(EMPTY, es, CreateChallenge(t, UserId(1)), delay);
    es' := es + [CreateChallenge(t, UserId(1))];
    Snoc(EMPTY, es', Load(v, t), delay);
    es' := es' + [Load(v, t)];
    Snoc(EMPTY, es', Attempt(v, true, true), delay);
    es' := es' + [Attempt(v, true, true)];
    Snoc(EMPTY, es', Check(v, 1), delay);
    es' := es' + [Check(v, 1)];
  }

  lemma FirstAccept(delay: nat) returns (es: seq<Event>)
    ensures Legal(EMPTY, es, delay)
    ensures var w := Run(EMPTY, es, delay);
            && w.now == 89999 && w.running == map[] && w.attempts.Keys <= {Token(1)} && w.created == {Token(1)}
            && w.log == [Success(Token(1), UserId(1), 1, 0, 0)]
            && UserId(1) in w.accepted && w.accepted[UserId(1)] == Accepted(1, CHALLENGE_TTL)
  {
    es := ReadCode([], delay, Token(1));
    Snoc(EMPTY, es, Consume(VerificationId(1)), delay);
    es := es + [Consume(VerificationId(1))];
    Snoc(EMPTY, es, Tick(89999), delay);
    es := es + [Tick(89999)];
  }

  /** The same code, checked at the last moment of its window and consumed once the counter key has gone. */
  lemma SlowReplay(delay: nat) returns (es: seq<Event>)
    requires delay > SAFE_DELAY
    ensures Legal(EMPTY, es, delay) && !Increasing(Run(EMPTY, es, delay).log)
  {
    es := FirstAccept(delay);
    es := ReadCode(es, delay, Token(2));
    Snoc(EMPTY, es, Tick(300000), delay);
    es := es + [Tick(300000)];
    Snoc(EMPTY, es, Consume(VerificationId(1)), delay);
    es := es + [Consume(VerificationId(1))];
    var log := Run(EMPTY, es, delay).log;
    assert log[0].user == log[1].user && log[0].counter == log[1].counter;
  }

  /**
   * The counters accepted for a user strictly increase over every run exactly when the
   * script never runs more than 210 s after its check, which a check and script at one
   * clock reading meet.
   */
  lemma OneTimeIffPrompt(delay: nat)
    ensures CodesAreOneTime(delay) <==> delay <= SAFE_DELAY
  {
    if delay <= SAFE_DELAY {
      forall es | Legal(EMPTY, es, delay) ensures Increasing(Run(EMPTY, es, delay).log) {
        RunKeepsReplay(EMPTY, es, delay);
      }
    } else {
      var es := SlowReplay(delay);
      assert !Increasing(Run(EMPTY, es, delay).log);
    }
  }
}
