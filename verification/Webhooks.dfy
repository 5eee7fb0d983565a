/**
 The webhook subsystem: outbox events, subscribed endpoints, and one delivery row per event and
 endpoint that the dispatcher claims, sends and marks. A delivery is named by its position in the
 table.
 */
module Webhooks {
  import opened Common
  import Backoff

  datatype HookEvent = HookEvent(business: Id, kind: string, createdAt: Time)

  /** `activeFrom` is the number of events that existed when the endpoint last became active (history). */
  datatype Endpoint = Endpoint(business: Id, kinds: seq<string>, active: bool, activeFrom: nat)

  datatype DeliveryStatus = Pending | InFlight | Succeeded | Failed | Dead

  datatype Delivery = Delivery(
    event: nat,
    endpoint: nat,
    business: Id,
    status: DeliveryStatus,
    attempts: nat,
    nextAttemptAt: Time,
    lockedUntil: Option<Time>,
    lastStatusCode: Option<int>,
    lastError: Option<string>)

  const BATCH := 50
  const LEASE_SECS := 30
  const FAN_OUT_WINDOW_SECS := 3600

  // ---- Row updates ----

  predicate Claimable(d: Delivery, now: Time) {
    || ((d.status.Pending? || d.status.Failed?) && d.nextAttemptAt <= now)
    || (d.status.InFlight? && d.lockedUntil.Some? && d.lockedUntil.value < now)
  }

  function Claim(d: Delivery, now: Time): Delivery {
    d.(status := InFlight, lockedUntil := Some(now + LEASE_SECS), attempts := d.attempts + 1)
  }

  datatype SendResult = Response(code: int) | SendError(error: string)

  predicate IsSuccess(r: SendResult) { r.Response? && 200 <= r.code < 300 }

  /** A client error other than 408 and 429: the receiver rejects the delivery for good. */
  predicate NonRetryable(r: SendResult) {
    r.Response? && 400 <= r.code < 500 && r.code != 408 && r.code != 429
  }

  function CodeOf(r: SendResult): Option<int> { if r.Response? then Some(r.code) else None }

  function ErrorOf(r: SendResult): string { if r.Response? then "non-2xx response" else r.error }

  /** `mark_succeeded` and `mark_failed`; `attempts` is the number the sender was started with. */
  function Mark(d: Delivery, attempts: nat, r: SendResult, maxAttempts: int, now: Time, delay: nat): Delivery {
    if IsSuccess(r) then d.(status := Succeeded, lastStatusCode := CodeOf(r), lockedUntil := None)
    else if NonRetryable(r) || attempts >= maxAttempts then
      d.(status := Dead, lastStatusCode := CodeOf(r), lastError := Some(ErrorOf(r)), lockedUntil := None)
    else
      d.(status := Failed, lastStatusCode := CodeOf(r), lastError := Some(ErrorOf(r)),
         nextAttemptAt := now + delay, lockedUntil := None)
  }

  predicate Redeliverable(d: Delivery, business: Id) {
    d.business == business && (d.status.Failed? || d.status.Dead?)
  }

  function Reset(d: Delivery, now: Time): Delivery {
    d.(status := Pending, attempts := 0, nextAttemptAt := now, lockedUntil := None, lastError := None)
  }

  function ClaimRows(rows: seq<Delivery>, ids: seq<nat>, now: Time): (q: seq<Delivery>)
    ensures |q| == |rows|
    ensures forall i :: 0 <= i < |rows| ==> q[i] == if i in ids then Claim(rows[i], now) else rows[i]
  {
    seq(|rows|, i requires 0 <= i < |rows| => if i in ids then Claim(rows[i], now) else rows[i])
  }

  // ---- Fan-out ----

  datatype Pair = Pair(event: nat, endpoint: nat)

  predicate Matches(e: HookEvent, p: Endpoint) {
    p.business == e.business && p.active && (p.kinds == [] || e.kind in p.kinds)
  }

  /** The pairs that the fan-out query selects. */
  predicate Selected(events: seq<HookEvent>, endpoints: seq<Endpoint>, now: Time, pair: Pair) {
    && pair.event < |events| && pair.endpoint < |endpoints|
    && Matches(events[pair.event], endpoints[pair.endpoint])
    && events[pair.event].createdAt + FAN_OUT_WINDOW_SECS > now
  }

  predicate Has(rows: seq<Delivery>, pair: Pair) {
    exists i :: 0 <= i < |rows| && rows[i].event == pair.event && rows[i].endpoint == pair.endpoint
  }

  function NewRow(pair: Pair, business: Id, now: Time): Delivery {
    Delivery(pair.event, pair.endpoint, business, Pending, 0, now, None, None, None)
  }

  /** `INSERT ... ON CONFLICT DO NOTHING`, pair by pair. */
  function InsertAll(rows: seq<Delivery>, events: seq<HookEvent>, pairs: seq<Pair>, now: Time): seq<Delivery>
    requires forall pair :: pair in pairs ==> pair.event < |events|
    decreases |pairs|
  {
    if pairs == [] then rows
    else
      var pair := pairs[0];
      InsertAll(if Has(rows, pair) then rows else rows + [NewRow(pair, events[pair.event].business, now)],
                events, pairs[1..], now)
  }

  // ---- The system ----

  /**
   `working` holds the deliveries of the current batch that have not been marked, with the attempt
   number each was started with. `lastFanOut` and `fanned` remember the last fan-out: when it ran
   and how many events there were (history).
   */
  datatype Hooks = Hooks(
    events: seq<HookEvent>,
    endpoints: seq<Endpoint>,
    rows: seq<Delivery>,
    working: map<nat, nat>,
    now: Time,
    lastFanOut: Time,
    fanned: nat)

  function Init(): Hooks { Hooks([], [], [], map[], 0, 0, 0) }

  datatype Step =
    | Emit(business: Id, kind: string)
    | Register(business: Id, kinds: seq<string>)
    | SetActive(endpoint: nat, active: bool)
    | FanOut(pairs: seq<Pair>)
    | ClaimBatch(ids: seq<nat>)
    | Sent(id: nat, result: SendResult, delay: nat)
    | LoseMark(id: nat)
    | Crash
    | Redeliver(business: Id, id: nat)
    | Advance(seconds: nat)

  ghost predicate Enabled(s: Hooks, step: Step) {
    match step
    case SetActive(p, _) => p < |s.endpoints|
    case FanOut(pairs) => forall pair :: pair in pairs <==> Selected(s.events, s.endpoints, s.now, pair)
    case ClaimBatch(ids) =>
      && s.working == map[] && 0 < |ids| <= BATCH
      && (forall id :: id in ids ==> id < |s.rows| && Claimable(s.rows[id], s.now))
    case Sent(id, _, delay) => id in s.working && id < |s.rows| && delay <= Backoff.Ceiling(s.working[id])
    case LoseMark(id) => id in s.working
    case Redeliver(business, id) => id < |s.rows| && Redeliverable(s.rows[id], business)
    case _ => true
  }

  ghost function Apply(s: Hooks, step: Step, maxAttempts: int): Hooks {
    if !Enabled(s, step) then s
    else match step
         case Emit(business, kind) => s.(events := s.events + [HookEvent(business, kind, s.now)])
         case Register(business, kinds) =>
           s.(endpoints := s.endpoints + [Endpoint(business, kinds, true, |s.events|)])
         case SetActive(p, active) =>
           var ep := s.endpoints[p];
           s.(endpoints := s.endpoints[p := ep.(active := active,
                                                activeFrom := if ep.active then ep.activeFrom else |s.events|)])
         case FanOut(pairs) =>
           s.(rows := InsertAll(s.rows, s.events, pairs, s.now), lastFanOut := s.now, fanned := |s.events|)
         case ClaimBatch(ids) =>
           s.(rows := ClaimRows(s.rows, ids, s.now),
              working := map id | id in ids && id < |s.rows| :: s.rows[id].attempts + 1)
         case Sent(id, result, delay) =>
           s.(rows := s.rows[id := Mark(s.rows[id], s.working[id], result, maxAttempts, s.now, delay)],
              working := s.working - {id})
         case LoseMark(id) => s.(working := s.working - {id})
         case Crash => s.(working := map[])
         case Redeliver(_, id) => s.(rows := s.rows[id := Reset(s.rows[id], s.now)])
         case Advance(seconds) => s.(now := s.now + seconds)
  }

  ghost function Exec(s: Hooks, steps: seq<Step>, maxAttempts: int): Hooks {
    if steps == [] then s
    else Apply(Exec(s, steps[..|steps| - 1], maxAttempts), steps[|steps| - 1], maxAttempts)
  }

  ghost function Run(steps: seq<Step>, maxAttempts: int): Hooks { Exec(Init(), steps, maxAttempts) }

  lemma {:induction false} ExecConcat(s: Hooks, p: seq<Step>, q: seq<Step>, maxAttempts: int)
    ensures Exec(s, p + q, maxAttempts) == Exec(Exec(s, p, maxAttempts), q, maxAttempts)
  {
    if q == [] {
      assert p + q == p;
    } else {
      assert (p + q)[..|p + q| - 1] == p + q[..|q| - 1];
      ExecConcat(s, p, q[..|q| - 1], maxAttempts);
    }
  }
}
