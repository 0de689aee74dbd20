/**
 * The webhook outbox as a second leased queue: claim, send, finish, reap, hand back.
 * Fencing is by process (worker_id), not by attempt, so a send that outlives its
 * lease can still write; what keeps deliveries moving is that no send does.
 */
module Deliveries {
  import opened Common
  import opened TaskModel

  type Outbox = map<TaskId, Delivery>

  datatype SendError = UnsafeTarget | OtherError

  datatype DeliveryOutcome = Succeed | GiveUp | Retry(after: int)

  /** Client timeout plus the finish write's own deadline. */
  const SEND_SECONDS: int := 15

  // ----- pure parts of webhook.go -----

  function RetryDelay(attempt: int): Option<int> {
    if attempt == 1 then Some(10)
    else if attempt == 2 then Some(60)
    else if attempt == 3 then Some(300)
    else if attempt == 4 then Some(1800)
    else if attempt == 5 then Some(7200)
    else None
  }

  function Classify(attempt: int, maxAttempts: int, code: int, err: Option<SendError>): DeliveryOutcome {
    if err.None? && 200 <= code < 300 then Succeed
    else if code == 410 || err == Some(UnsafeTarget) then GiveUp
    else
      var delay := RetryDelay(attempt);
      if attempt >= maxAttempts || delay.None? then GiveUp else Retry(delay.value)
  }

  /** Seconds between the first send and the earliest time of attempt `n`, when every answer is transient. */
  function Span(n: nat): int {
    if n <= 1 then 0
    else Span(n - 1) + (if RetryDelay(n - 1).Some? then RetryDelay(n - 1).value else 0)
  }

  /**
   * Only a 2xx without error succeeds.  Of the others all but a 410 and an unsafe target
   * are retried, up to the row's bound or the sixth attempt, whichever comes first, each
   * wait longer than the one before; the sixth comes 9370 s after the first.
   */
  lemma RetriesBackOff(attempt: nat, maxAttempts: nat, code: int, err: Option<SendError>)
    requires attempt >= 1
    ensures var answer := Classify(attempt, maxAttempts, code, err);
            && (answer.Succeed? <==> err.None? && 200 <= code <= 299)
            && (answer.Retry? <==>
                  !answer.Succeed? && code != 410 && err != Some(UnsafeTarget) && attempt < maxAttempts && attempt < 6)
            && (answer.Retry? && attempt > 1 ==> RetryDelay(attempt - 1).value < answer.after)
    ensures Span(6) == 9370
  {
    assert Span(1) == 0 && Span(2) == 10 && Span(3) == 70;
    assert Span(4) == 370 && Span(5) == 2170;
  }

  /** WebhookLeaseTTL after withDefaults, in seconds: never less than a send and its finish write may take. */
  function LeaseSeconds(configured: int): (r: int)
    ensures r >= SEND_SECONDS && (r == configured || (configured < SEND_SECONDS && r == 30))
  {
    if configured < 15 then 30 else configured
  }

  // ----- statements -----

  predicate Expired(d: Delivery, now: int) { d.status.Sending? && d.lease.Some? && d.lease.value < now }

  predicate Claimable(d: Delivery, now: int) {
    ((d.status.Queued? && d.availableAt <= now) || Expired(d, now)) && d.attempt < d.maxAttempts
  }

  predicate Reapable(d: Delivery, now: int) { Expired(d, now) && d.attempt >= d.maxAttempts }

  function ClaimedDelivery(d: Delivery, w: WorkerId, until: int): Delivery {
    d.(status := Sending, worker := Some(w), lease := Some(until), attempt := d.attempt + 1)
  }

  function FinishedDelivery(d: Delivery, o: DeliveryOutcome, now: int): Delivery {
    d.(status := match o case Succeed => Delivered case GiveUp => GaveUp case Retry(_) => Queued,
       availableAt := if o.Retry? then now + o.after else d.availableAt,
       worker := None, lease := None)
  }

  function ReleasedDelivery(d: Delivery, now: int): Delivery {
    d.(status := Queued, worker := None, lease := None, availableAt := now, attempt := Max(d.attempt - 1, 0))
  }

  predicate Held(d: Delivery, w: WorkerId) { d.worker == Some(w) && d.status.Sending? }

  function Finish(ds: Outbox, id: TaskId, w: WorkerId, o: DeliveryOutcome, now: int): Outbox {
    if id in ds && Held(ds[id], w) then ds[id := FinishedDelivery(ds[id], o, now)] else ds
  }

  function ReapDead(ds: Outbox, chosen: set<TaskId>): Outbox {
    map id | id in ds :: if id in chosen then ds[id].(status := GaveUp, worker := None, lease := None) else ds[id]
  }

  function Release(ds: Outbox, w: WorkerId, now: int): Outbox {
    map id | id in ds :: if Held(ds[id], w) then ReleasedDelivery(ds[id], now) else ds[id]
  }

  // ----- runs -----

  datatype SendId = SendId(num: int)

  /** A send in flight: what its goroutine was told when it claimed. */
  datatype Send = Send(worker: WorkerId, task: TaskId, attempt: nat, maxAttempts: nat, claimedAt: int, until: int)

  datatype World = World(
    ds: Outbox, now: int,
    sends: map<SendId, Send>,
    drained: set<WorkerId>,           // processes whose goroutines have all exited
    seen: set<TaskId>,                // tasks that have had a delivery
    claims: map<TaskId, nat>, releases: map<TaskId, nat>)

  datatype Event =
    | Tick(time: int)
    | Appear(id: TaskId, d: Delivery)
    | Vanish(id: TaskId)
    | Claim(id: TaskId, proc: WorkerId, send: SendId, configured: int)   // the configured lease, in seconds
    | Answer(s: SendId, code: int, err: Option<SendError>)
    | Abandon(s: SendId)
    | Reap(chosen: set<TaskId>)
    | Drain(proc: WorkerId)
    | HandBack(proc: WorkerId)

  predicate Fresh(d: Delivery) {
    d.status.Queued? && d.worker.None? && d.lease.None? && d.attempt == 0 && d.maxAttempts >= 1
  }

  predicate Enabled(w: World, ev: Event) {
    match ev
    case Tick(t) => w.now <= t
    case Appear(id, d) => id !in w.seen && Fresh(d)
    case Vanish(_) => true
    case Claim(id, p, s, _) => id in w.ds && Claimable(w.ds[id], w.now) && s !in w.sends && p !in w.drained
    case Answer(s, _, _) => s in w.sends
    case Abandon(s) => s in w.sends
    case Reap(chosen) => forall id | id in chosen :: id in w.ds && Reapable(w.ds[id], w.now)
    case Drain(p) => forall s | s in w.sends :: w.sends[s].worker != p
    case HandBack(p) => p in w.drained
  }

  /** Each send's answer is written within the client and write timeouts of its claim. */
  predicate Timely(w: World, ev: Event) {
    ev.Answer? && ev.s in w.sends ==> w.now <= w.sends[ev.s].claimedAt + SEND_SECONDS
  }

  function OutboxAfter(w: World, ev: Event): Outbox {
    match ev
    case Appear(id, d) => w.ds[id := d]
    case Vanish(id) => w.ds - {id}
    case Claim(id, p, _, configured) =>
      if id in w.ds then w.ds[id := ClaimedDelivery(w.ds[id], p, w.now + LeaseSeconds(configured))] else w.ds
    case Answer(s, code, err) =>
      if s in w.sends then
        var x := w.sends[s];
        Finish(w.ds, x.task, x.worker, Classify(x.attempt, x.maxAttempts, code, err), w.now)
      else w.ds
    case Reap(chosen) => ReapDead(w.ds, chosen)
    case HandBack(p) => Release(w.ds, p, w.now)
    case _ => w.ds
  }

  function Count(m: map<TaskId, nat>, id: TaskId): nat { if id in m then m[id] else 0 }

  function Apply(w: World, ev: Event): World
    requires Enabled(w, ev)
  {
    World(
      OutboxAfter(w, ev),
      if ev.Tick? then ev.time else w.now,
      match ev {
        case Claim(id, p, s, configured) =>
          w.sends[s := Send(p, id, w.ds[id].attempt + 1, w.ds[id].maxAttempts, w.now, w.now + LeaseSeconds(configured))]
        case Answer(s, _, _) => w.sends - {s}
        case Abandon(s) => w.sends - {s}
        case _ => w.sends
      },
      if ev.Drain? then w.drained + {ev.proc} else w.drained,
      if ev.Appear? then w.seen + {ev.id} else w.seen,
      if ev.Claim? then w.claims[ev.id := Count(w.claims, ev.id) + 1] else w.claims,
      if ev.HandBack? then
        map id | id in w.seen ::
          Count(w.releases, id) + (if id in w.ds && Held(w.ds[id], ev.proc) then 1 else 0)
      else w.releases)
  }

  predicate Legal(w: World, es: seq<Event>)
    decreases |es|
  {
    es == [] || (Enabled(w, es[0]) && Legal(Apply(w, es[0]), es[1..]))
  }

  predicate AllTimely(w: World, es: seq<Event>)
    requires Legal(w, es)
    decreases |es|
  {
    es == [] || (Timely(w, es[0]) && AllTimely(Apply(w, es[0]), es[1..]))
  }

  function Run(w: World, es: seq<Event>): World
    requires Legal(w, es)
    decreases |es|
  {
    if es == [] then w else Run(Apply(w, es[0]), es[1..])
  }

  lemma RunCons(w: World, ev: Event, es: seq<Event>)
    requires Enabled(w, ev) && Legal(Apply(w, ev), es)
    ensures Legal(w, [ev] + es) && Run(w, [ev] + es) == Run(Apply(w, ev), es)
  {
    assert ([ev] + es)[1..] == es;
  }

  const EMPTY: World := World(map[], 0, map[], {}, {}, map[], map[])

  // ----- what every run keeps, timely or not -----

  predicate RowOk(d: Delivery) {
    && d.maxAttempts >= 1 && d.attempt <= d.maxAttempts
    && (d.status.Sending? ==> d.attempt >= 1 && d.worker.Some? && d.lease.Some?)
    && (!d.status.Sending? ==> d.worker.None? && d.lease.None?)
  }

  ghost predicate RowsOk(w: World) {
    && w.ds.Keys <= w.seen
    && (forall id | id in w.ds :: RowOk(w.ds[id]))
    && (forall id | id in w.ds :: Count(w.claims, id) == w.ds[id].attempt + Count(w.releases, id))
    && (forall id | id in w.claims :: id in w.seen)
    && (forall id | id in w.releases :: id in w.seen)
    && (forall s | s in w.sends :: w.sends[s].worker !in w.drained)
  }

  lemma ClaimKeepsRows(w: World, ev: Event)
    requires RowsOk(w) && Enabled(w, ev) && ev.Claim?
    ensures RowsOk(Apply(w, ev))
  {}

  lemma HandBackKeepsRows(w: World, ev: Event)
    requires RowsOk(w) && Enabled(w, ev) && ev.HandBack?
    ensures RowsOk(Apply(w, ev))
  {}

  lemma WriteKeepsRows(w: World, ev: Event)
    requires RowsOk(w) && Enabled(w, ev) && (ev.Answer? || ev.Reap?)
    ensures RowsOk(Apply(w, ev))
  {}

  lemma OtherKeepsRows(w: World, ev: Event)
    requires RowsOk(w) && Enabled(w, ev) && !ev.Claim? && !ev.HandBack? && !ev.Answer? && !ev.Reap?
    ensures RowsOk(Apply(w, ev))
  {}

  lemma StepKeepsRows(w: World, ev: Event)
    requires RowsOk(w) && Enabled(w, ev)
    ensures RowsOk(Apply(w, ev))
  {
    match ev {
      case Claim(_, _, _, _) => ClaimKeepsRows(w, ev);
      case HandBack(_) => HandBackKeepsRows(w, ev);
      case Answer(_, _, _) => WriteKeepsRows(w, ev);
      case Reap(_) => WriteKeepsRows(w, ev);
      case _ => OtherKeepsRows(w, ev);
    }
  }

  lemma {:induction false} RunKeepsRows(w: World, es: seq<Event>)
    requires RowsOk(w) && Legal(w, es)
    ensures RowsOk(Run(w, es))
    decreases |es|
  {
    if es != [] {
      StepKeepsRows(w, es[0]);
      RunKeepsRows(Apply(w, es[0]), es[1..]);
    }
  }

  /** In every run a delivery is sent at most max_attempts times, plus once per hand-back. */
  lemma SendsAreBounded(es: seq<Event>, id: TaskId)
    requires Legal(EMPTY, es) && id in Run(EMPTY, es).ds
    ensures var w := Run(EMPTY, es);
            Count(w.claims, id) <= w.ds[id].maxAttempts + Count(w.releases, id)
  {
    RunKeepsRows(EMPTY, es);
    assert RowOk(Run(EMPTY, es).ds[id]);
  }

  // ----- what timely runs keep -----

  /** Until its lease ends, a send's row is still the one it claimed. */
  predicate SendFits(w: World, x: Send) {
    x.task in w.seen && x.claimedAt + SEND_SECONDS <= x.until
    && (x.task in w.ds && w.now <= x.until ==>
          var d := w.ds[x.task];
          d.status.Sending? && d.worker == Some(x.worker) && d.attempt == x.attempt
          && d.maxAttempts == x.maxAttempts && d.lease == Some(x.until))
  }

  ghost predicate Moving(w: World) {
    && (forall s | s in w.sends :: SendFits(w, w.sends[s]))
    && (forall s, t | s in w.sends && t in w.sends && s != t && w.sends[s].task == w.sends[t].task ::
          w.sends[s].until < w.now || w.sends[t].until < w.now)
    && (forall id | id in w.ds && w.ds[id].status.Queued? :: w.ds[id].attempt < w.ds[id].maxAttempts)
  }

  lemma ClaimKeepsFit(w: World, ev: Event, s: SendId)
    requires RowsOk(w) && Enabled(w, ev) && ev.Claim? && s in w.sends && SendFits(w, w.sends[s])
    ensures SendFits(Apply(w, ev), w.sends[s])
  {}

  /** A row that can be claimed has no send within its lease. */
  lemma ClaimedLeaseIsOver(w: World, ev: Event, s: SendId)
    requires Enabled(w, ev) && ev.Claim? && s in w.sends && SendFits(w, w.sends[s]) && w.sends[s].task == ev.id
    ensures w.sends[s].until < w.now
  {}

  lemma ClaimKeepsMoving(w: World, ev: Event)
    requires RowsOk(w) && Moving(w) && Enabled(w, ev) && ev.Claim?
    ensures Moving(Apply(w, ev))
  {
    forall s | s in w.sends ensures SendFits(Apply(w, ev), w.sends[s]) {
      ClaimKeepsFit(w, ev, s);
    }
    forall s | s in w.sends && w.sends[s].task == ev.id ensures w.sends[s].until < w.now {
      ClaimedLeaseIsOver(w, ev, s);
    }
  }

  lemma AnswerKeepsMoving(w: World, ev: Event)
    requires RowsOk(w) && Moving(w) && Enabled(w, ev) && Timely(w, ev) && ev.Answer?
    ensures Moving(Apply(w, ev))
  {}

  lemma HandBackKeepsMoving(w: World, ev: Event)
    requires RowsOk(w) && Moving(w) && Enabled(w, ev) && (ev.HandBack? || ev.Reap?)
    ensures Moving(Apply(w, ev))
  {}

  lemma OtherKeepsMoving(w: World, ev: Event)
    requires RowsOk(w) && Moving(w) && Enabled(w, ev) && !ev.Claim? && !ev.HandBack? && !ev.Answer? && !ev.Reap?
    ensures Moving(Apply(w, ev))
  {}

  lemma {:induction false} TimelyRunKeepsMoving(w: World, es: seq<Event>)
    requires RowsOk(w) && Moving(w) && Legal(w, es) && AllTimely(w, es)
    ensures RowsOk(Run(w, es)) && Moving(Run(w, es))
    decreases |es|
  {
    if es != [] {
      StepKeepsRows(w, es[0]);
      match es[0] {
        case Claim(_, _, _, _) => ClaimKeepsMoving(w, es[0]);
        case HandBack(_) => HandBackKeepsMoving(w, es[0]);
        case Answer(_, _, _) => AnswerKeepsMoving(w, es[0]);
        case Reap(_) => HandBackKeepsMoving(w, es[0]);
        case _ => OtherKeepsMoving(w, es[0]);
      }
      TimelyRunKeepsMoving(Apply(w, es[0]), es[1..]);
    }
  }

  /**
   * In timely runs no delivery is ever out of reach: a queued one can be claimed once
   * its backoff is over, and one whose lease lapsed can be claimed or reaped, never both.
   */
  lemma NothingIsStuck(es: seq<Event>, id: TaskId, t: int)
    requires Legal(EMPTY, es) && AllTimely(EMPTY, es) && id in Run(EMPTY, es).ds
    ensures var d := Run(EMPTY, es).ds[id];
            && (d.status.Queued? && d.availableAt <= t ==> Claimable(d, t))
            && (d.status.Sending? && d.lease.Some? && d.lease.value < t ==> (Claimable(d, t) <==> !Reapable(d, t)))
  {
    TimelyRunKeepsMoving(EMPTY, es);
    assert RowOk(Run(EMPTY, es).ds[id]);
  }

  lemma EventStays(w: World, ev: Event, id: TaskId)
    requires w.ds.Keys <= w.seen && Enabled(w, ev) && id in w.ds && id in OutboxAfter(w, ev)
    ensures OutboxAfter(w, ev)[id].event == w.ds[id].event && OutboxAfter(w, ev)[id].url == w.ds[id].url
  {}

  /** Whatever happens to a delivery, the event it announces and the URL it goes to stay as inserted. */
  lemma {:induction false} EventIsForever(w: World, es: seq<Event>, id: TaskId)
    requires RowsOk(w) && Legal(w, es) && id in w.ds && id in Run(w, es).ds
    ensures Run(w, es).ds[id].event == w.ds[id].event && Run(w, es).ds[id].url == w.ds[id].url
    decreases |es|
  {
    if es != [] {
      var w1 := Apply(w, es[0]);
      StepKeepsRows(w, es[0]);
      if id !in w1.ds { GoneForGood(w1, es[1..], id); }
      EventStays(w, es[0], id);
      EventIsForever(w1, es[1..], id);
    }
  }

  // ----- what an answer decides -----

  predicate Acknowledged(code: int, err: Option<SendError>) { err.None? && 200 <= code <= 299 }

  /**
   * An answer whose process holds the row decides it.  A 2xx without error delivers.  A
   * 410 or an unsafe target ends it as given up, and so does any other failure once the
   * attempts are used up or the schedule of 10 s, 1 min, 5 min, 30 min and 2 h is.
   * Otherwise the row is queued again for the schedule's time.
   */
  lemma AnswerDecides(w: World, s: SendId, code: int, err: Option<SendError>)
    requires s in w.sends && w.sends[s].task in w.ds
    ensures var x := w.sends[s]; var d := w.ds[x.task];
            var ds' := Apply(w, Answer(s, code, err)).ds; var d' := ds'[x.task];
            var refused := code == 410 || err == Some(UnsafeTarget);
            var again := 1 <= x.attempt <= 5 && x.attempt < x.maxAttempts;
            if d.worker != Some(x.worker) || !d.status.Sending? then ds' == w.ds else
              && ds' == w.ds[x.task := d.(
                   status := d'.status, availableAt := d'.availableAt, worker := None, lease := None)]
              && (d'.status.Delivered? <==> err.None? && 200 <= code <= 299)
              && (d'.status.GaveUp? <==> !(err.None? && 200 <= code <= 299) && (refused || !again))
              && (d'.status.Queued? <==> !(err.None? && 200 <= code <= 299) && !refused && again)
              && d'.availableAt ==
                   if !d'.status.Queued? then d.availableAt
                   else w.now + [10, 60, 300, 1800, 7200][x.attempt - 1]
  {}

  /** A claim gives the row to the send for one more attempt, a reap gives it up, a hand-back takes the attempt back. */
  lemma OtherStepsDecide(w: World, ev: Event, id: TaskId)
    requires Enabled(w, ev) && id in w.ds
    ensures !ev.Vanish? ==> id in Apply(w, ev).ds
    ensures !ev.Vanish? ==>
            var w' := Apply(w, ev); var d, d' := w.ds[id], w'.ds[id];
            && (ev.Claim? && ev.id == id ==>
                  && d' == d.(status := Sending, worker := Some(ev.proc), attempt := d.attempt + 1,
                              lease := Some(w.now + LeaseSeconds(ev.configured)))
                  && ev.send in w'.sends && w'.sends[ev.send].task == id && w'.sends[ev.send].worker == ev.proc
                  && w'.sends[ev.send].attempt == d'.attempt && w'.sends[ev.send].maxAttempts == d.maxAttempts)
            && (ev.Reap? && id in ev.chosen ==> d' == d.(status := GaveUp, worker := None, lease := None))
            && (ev.HandBack? && d.worker == Some(ev.proc) && d.status.Sending? && d.attempt > 0 ==>
                  d' == d.(status := Queued, worker := None, lease := None, availableAt := w.now,
                           attempt := d.attempt - 1))
  {}

  predicate AcknowledgedIn(w: World, es: seq<Event>, id: TaskId)
    requires Legal(w, es)
    decreases |es|
  {
    && es != []
    && ((es[0].Answer? && Acknowledges(w, es[0].s, es[0].code, es[0].err, id))
        || AcknowledgedIn(Apply(w, es[0]), es[1..], id))
  }

  /** The answer `s` brings is a 2xx, and its process holds the row. */
  predicate Acknowledges(w: World, s: SendId, code: int, err: Option<SendError>, id: TaskId) {
    s in w.sends && w.sends[s].task == id && id in w.ds && Held(w.ds[id], w.sends[s].worker) && Acknowledged(code, err)
  }

  lemma StepDelivers(w: World, ev: Event, id: TaskId)
    requires RowsOk(w) && Enabled(w, ev) && id in OutboxAfter(w, ev)
    ensures OutboxAfter(w, ev)[id].status.Delivered? <==>
              || (id in w.ds && w.ds[id].status.Delivered?)
              || (ev.Answer? && Acknowledges(w, ev.s, ev.code, ev.err, id))
  {}

  lemma {:induction false} DeliveredFromThere(w: World, es: seq<Event>, id: TaskId)
    requires RowsOk(w) && Legal(w, es) && id in Run(w, es).ds
    ensures Run(w, es).ds[id].status.Delivered? <==>
              (id in w.ds && w.ds[id].status.Delivered?) || AcknowledgedIn(w, es, id)
    decreases |es|
  {
    if es != [] {
      var w1 := Apply(w, es[0]);
      StepKeepsRows(w, es[0]);
      if id in w1.ds {
        StepDelivers(w, es[0], id);
      } else if id in w.ds {
        GoneForGood(w1, es[1..], id);
      }
      DeliveredFromThere(w1, es[1..], id);
    }
  }

  /**
   * Over every run, a delivery stands as delivered exactly when a 2xx answer in it was
   * written by the process holding the row.
   */
  lemma DeliveredIffAcknowledged(es: seq<Event>, id: TaskId)
    requires Legal(EMPTY, es) && id in Run(EMPTY, es).ds
    ensures Run(EMPTY, es).ds[id].status.Delivered? <==> AcknowledgedIn(EMPTY, es, id)
  {
    DeliveredFromThere(EMPTY, es, id);
  }

  // ----- what goes wrong otherwise -----

  predicate Stuck(d: Delivery) { d.status.Queued? && d.attempt >= d.maxAttempts }

  /** The answer `s` brings would put its row back for another attempt, and the row has none left. */
  predicate Strands(w: World, s: SendId, code: int, err: Option<SendError>, id: TaskId) {
    && s in w.sends && w.sends[s].task == id && id in w.ds
    && Held(w.ds[id], w.sends[s].worker) && w.ds[id].attempt == w.ds[id].maxAttempts
    && Classify(w.sends[s].attempt, w.sends[s].maxAttempts, code, err).Retry?
  }

  /**
   * Which steps strand a delivery: exactly the answers to be retried that arrive while
   * their process holds the row on its last attempt.
   */
  lemma StrandedExactlyBy(w: World, ev: Event, id: TaskId)
    requires RowsOk(w) && Enabled(w, ev) && id in w.ds && !Stuck(w.ds[id])
    ensures id in OutboxAfter(w, ev) && Stuck(OutboxAfter(w, ev)[id])
            <==> ev.Answer? && Strands(w, ev.s, ev.code, ev.err, id)
  {
    assert RowOk(w.ds[id]);
  }

  /** A send that fences on its own attempt never strands its row, for Classify does not retry the last one. */
  lemma OwnAttemptNeverStrands(d: Delivery, w: WorkerId, code: int, err: Option<SendError>, now: int)
    requires RowOk(d) && Held(d, w)
    ensures !Stuck(FinishedDelivery(d, Classify(d.attempt, d.maxAttempts, code, err), now))
  {}

  /** No statement moves a stuck row: until its task is deleted it is neither sent nor failed. */
  lemma {:induction false} StuckIsForever(w: World, es: seq<Event>, id: TaskId)
    requires RowsOk(w) && Legal(w, es) && id in w.ds && Stuck(w.ds[id])
    requires id in Run(w, es).ds
    ensures Run(w, es).ds[id] == w.ds[id]
    decreases |es|
  {
    if es != [] {
      var w1 := Apply(w, es[0]);
      StepKeepsRows(w, es[0]);
      if id in w1.ds {
        assert w1.ds[id] == w.ds[id];
        StuckIsForever(w1, es[1..], id);
      } else {
        GoneForGood(w1, es[1..], id);
      }
    }
  }

  lemma {:induction false} GoneForGood(w: World, es: seq<Event>, id: TaskId)
    requires RowsOk(w) && Legal(w, es) && id in w.seen && id !in w.ds
    ensures id !in Run(w, es).ds
    decreases |es|
  {
    if es != [] {
      StepKeepsRows(w, es[0]);
      GoneForGood(Apply(w, es[0]), es[1..], id);
    }
  }

  predicate StrandedIn(w: World, es: seq<Event>, id: TaskId)
    requires Legal(w, es)
    decreases |es|
  {
    && es != []
    && ((es[0].Answer? && Strands(w, es[0].s, es[0].code, es[0].err, id))
        || StrandedIn(Apply(w, es[0]), es[1..], id))
  }

  lemma StepStrands(w: World, ev: Event, id: TaskId)
    requires RowsOk(w) && Enabled(w, ev) && (id in w.ds ==> !Stuck(w.ds[id])) && id in OutboxAfter(w, ev)
    ensures Stuck(OutboxAfter(w, ev)[id]) <==> ev.Answer? && Strands(w, ev.s, ev.code, ev.err, id)
  {
    if id in w.ds {
      StrandedExactlyBy(w, ev, id);
    }
  }

  lemma {:induction false} StuckFromThere(w: World, es: seq<Event>, id: TaskId)
    requires RowsOk(w) && Legal(w, es) && id in Run(w, es).ds && (id in w.ds ==> !Stuck(w.ds[id]))
    ensures Stuck(Run(w, es).ds[id]) <==> StrandedIn(w, es, id)
    decreases |es|
  {
    if es != [] {
      var w1 := Apply(w, es[0]);
      StepKeepsRows(w, es[0]);
      if id in w1.ds {
        StepStrands(w, es[0], id);
        if Stuck(w1.ds[id]) {
          StuckIsForever(w1, es[1..], id);
        } else {
          StuckFromThere(w1, es[1..], id);
        }
      } else if id in w.ds {
        GoneForGood(w1, es[1..], id);
      } else {
        StuckFromThere(w1, es[1..], id);
      }
    }
  }

  /** Over every run, a delivery is out of reach of claims and the reaper exactly when some answer in it stranded it. */
  lemma StuckIffStranded(es: seq<Event>, id: TaskId)
    requires Legal(EMPTY, es) && id in Run(EMPTY, es).ds
    ensures Stuck(Run(EMPTY, es).ds[id]) <==> StrandedIn(EMPTY, es, id)
  {
    StuckFromThere(EMPTY, es, id);
  }

  /** A claim whose answer does not come before its lease lapses. */
  lemma ClaimAndLapse(w: World, id: TaskId, p: WorkerId, s: SendId) returns (es: seq<Event>)
    requires id in w.ds && Claimable(w.ds[id], w.now) && p !in w.drained && s !in w.sends
    ensures Legal(w, es) && id in Run(w, es).ds
    ensures var w' := Run(w, es); var d, d' := w.ds[id], w'.ds[id];
            && w'.drained == w.drained
            && w'.sends == w.sends[s := Send(p, id, d.attempt + 1, d.maxAttempts, w.now, w.now + 15)]
            && Expired(d', w'.now) && d'.attempt == d.attempt + 1 && d'.maxAttempts == d.maxAttempts
  {
    var claim := Claim(id, p, s, 15);
    var w1 := Apply(w, claim);
    var tick := Tick(w.now + 16);
    RunCons(w1, tick, []);
    RunCons(w, claim, [tick] + []);
    es := [claim] + ([tick] + []);
  }

  lemma {:induction false} RunsJoin(w: World, a: seq<Event>, b: seq<Event>)
    requires Legal(w, a) && Legal(Run(w, a), b)
    ensures Legal(w, a + b) && Run(w, a + b) == Run(Run(w, a), b)
    decreases |a|
  {
    if a == [] {
      assert a + b == b;
    } else {
      RunsJoin(Apply(w, a[0]), a[1..], b);
      assert (a + b)[1..] == a[1..] + b;
    }
  }

  /** `n` attempts whose sends are all still out, numbered upwards. */
  lemma {:induction false} LapsedClaims(w: World, id: TaskId, p: WorkerId, n: nat) returns (es: seq<Event>)
    requires id in w.ds && w.ds[id].status.Queued? && w.ds[id].availableAt <= w.now && w.ds[id].attempt == 0
    requires 0 < n < w.ds[id].maxAttempts && p !in w.drained && w.sends == map[]
    ensures Legal(w, es)
    ensures var w' := Run(w, es);
            && id in w'.ds && Expired(w'.ds[id], w'.now) && w'.ds[id].attempt == n && p !in w'.drained
            && w'.ds[id].maxAttempts == w.ds[id].maxAttempts
            && SendId(n) in w'.sends && (forall s | s in w'.sends :: s.num <= n)
            && w'.sends[SendId(n)].worker == p && w'.sends[SendId(n)].task == id
            && w'.sends[SendId(n)].attempt == n && w'.sends[SendId(n)].maxAttempts == w.ds[id].maxAttempts
    decreases n
  {
    if n == 1 {
      es := ClaimAndLapse(w, id, p, SendId(1));
    } else {
      var first := LapsedClaims(w, id, p, n - 1);
      var next := ClaimAndLapse(Run(w, first), id, p, SendId(n));
      RunsJoin(w, first, next);
      es := first + next;
    }
  }

  /** The answer of an earlier send puts the row back while the same process holds its last attempt. */
  lemma LastClaimThenLateAnswer(w: World, id: TaskId, p: WorkerId, a: SendId, b: SendId) returns (es: seq<Event>)
    requires id in w.ds && Claimable(w.ds[id], w.now) && w.ds[id].attempt + 1 == w.ds[id].maxAttempts
    requires p !in w.drained && a in w.sends && b !in w.sends
    requires w.sends[a].worker == p && w.sends[a].task == id
    requires Classify(w.sends[a].attempt, w.sends[a].maxAttempts, 500, None).Retry?
    ensures Legal(w, es) && id in Run(w, es).ds && Stuck(Run(w, es).ds[id])
    ensures Run(w, es).ds[id].maxAttempts == w.ds[id].maxAttempts
  {
    var w1 := Apply(w, Claim(id, p, b, 15));
    assert w1.sends[a] == w.sends[a] && Held(w1.ds[id], p);
    var w2 := Apply(w1, Answer(a, 500, None));
    assert Stuck(w2.ds[id]);
    RunCons(w1, Answer(a, 500, None), []);
    RunCons(w, Claim(id, p, b, 15), [Answer(a, 500, None)] + []);
    es := [Claim(id, p, b, 15)] + ([Answer(a, 500, None)] + []);
  }

  /**
   * Fencing by process alone does let a late send strand its row, as every row is
   * inserted: five sends of one process outlive their leases, and the fifth comes back
   * after the process claimed the sixth attempt, the last.
   */
  lemma LateSendStrands() returns (es: seq<Event>, id: TaskId)
    ensures Legal(EMPTY, es) && id in Run(EMPTY, es).ds && Stuck(Run(EMPTY, es).ds[id])
    ensures Run(EMPTY, es).ds[id].maxAttempts == DELIVERY_MAX_ATTEMPTS
  {
    id := TaskId(1);
    var p := WorkerId(1);
    var row := Delivery(Completed, "https://example.com", Queued, None, None, 0, DELIVERY_MAX_ATTEMPTS, 0);
    var appear := Appear(id, row);
    RunCons(EMPTY, appear, []);
    var first := LapsedClaims(Apply(EMPTY, appear), id, p, 5);
    RunCons(EMPTY, appear, first);
    var before := [appear] + first;
    assert RetryDelay(5) == Some(7200);
    var last := LastClaimThenLateAnswer(Run(EMPTY, before), id, p, SendId(5), SendId(6));
    RunsJoin(EMPTY, before, last);
    es := before + last;
  }

  // ----- and every delivery can come to an end -----

  /** The reaper or a claimer brings an unfinished delivery one attempt closer to its end. */
  lemma OneStepOn(w: World, id: TaskId, p: WorkerId) returns (ev: Event)
    requires RowsOk(w) && Moving(w) && id in w.ds && p !in w.drained
    requires !w.ds[id].status.Done()
    requires if w.ds[id].status.Queued? then w.ds[id].availableAt <= w.now else Expired(w.ds[id], w.now)
    ensures Enabled(w, ev) && (ev.Claim? || ev.Reap?)
    ensures id in OutboxAfter(w, ev)
    ensures OutboxAfter(w, ev)[id].status.Done()
            || (OutboxAfter(w, ev)[id].attempt == w.ds[id].attempt + 1
                && OutboxAfter(w, ev)[id].maxAttempts == w.ds[id].maxAttempts)
  {
    assert RowOk(w.ds[id]);
    if w.ds[id].attempt == w.ds[id].maxAttempts {
      ev := Reap({id});
    } else {
      var s := FreshSend(w.sends.Keys);
      ev := Claim(id, p, s, SEND_SECONDS);
    }
  }

  /** From any state timely runs reach, the reaper and a claimer alone can bring a delivery to its end. */
  lemma {:induction false} CanAlwaysEnd(w: World, id: TaskId, p: WorkerId) returns (es: seq<Event>)
    requires RowsOk(w) && Moving(w) && id in w.ds && p !in w.drained
    ensures Legal(w, es) && id in Run(w, es).ds && Run(w, es).ds[id].status.Done()
    decreases w.ds[id].maxAttempts - w.ds[id].attempt, if w.ds[id].status.Done() then 0 else 1
  {
    var d := w.ds[id];
    assert RowOk(d);
    if d.status.Done() { return []; }
    var tick := Tick(if d.status.Queued? then Max(w.now, d.availableAt) else Max(w.now, d.lease.value + 1));
    StepKeepsRows(w, tick);
    OtherKeepsMoving(w, tick);
    var w1 := Apply(w, tick);
    var next := OneStepOn(w1, id, p);
    StepKeepsRows(w1, next);
    if next.Claim? { ClaimKeepsMoving(w1, next); } else { HandBackKeepsMoving(w1, next); }
    var w2 := Apply(w1, next);
    assert RowOk(w2.ds[id]);
    var rest: seq<Event> := [];
    if !w2.ds[id].status.Done() { rest := CanAlwaysEnd(w2, id, p); }
    RunCons(w1, next, rest);
    RunCons(w, tick, [next] + rest);
    es := [tick] + ([next] + rest);
  }

  lemma {:induction false} FreshSend(used: set<SendId>) returns (s: SendId)
    ensures s !in used
    ensures forall u | u in used :: u.num < s.num
    decreases |used|
  {
    if used == {} { return SendId(0); }
    var u :| u in used;
    var t := FreshSend(used - {u});
    s := SendId(Max(t.num, u.num + 1));
    forall v | v in used ensures v.num < s.num { assert v == u || v in used - {u}; }
  }
}
