/**
 Fan-out: one delivery per event and endpoint, however often it runs, and none forgotten as long as
 it runs at least once an hour.
 */
module WebhookFanOut {
  import opened Common
  import opened Webhooks
  import opened WebhookDelivery

  predicate UniquePairs(rows: seq<Delivery>) {
    forall i, j :: 0 <= i < j < |rows| ==> rows[i].event != rows[j].event || rows[i].endpoint != rows[j].endpoint
  }

  /** The query's result set, in whatever order the database returns it. */
  ghost predicate IsSelection(s: Hooks, pairs: seq<Pair>) {
    forall pair :: pair in pairs <==> Selected(s.events, s.endpoints, s.now, pair)
  }

  lemma {:induction false} InsertKeepsUnique(rows: seq<Delivery>, events: seq<HookEvent>, pairs: seq<Pair>, now: Time)
    requires UniquePairs(rows) && forall pair :: pair in pairs ==> pair.event < |events|
    ensures UniquePairs(InsertAll(rows, events, pairs, now))
    decreases |pairs|
  {
    if pairs != [] {
      var pair := pairs[0];
      var next := if Has(rows, pair) then rows else rows + [NewRow(pair, events[pair.event].business, now)];
      InsertKeepsUnique(next, events, pairs[1..], now);
    }
  }

  lemma HasGrows(rows: seq<Delivery>, more: seq<Delivery>, pair: Pair)
    requires rows <= more && Has(rows, pair)
    ensures Has(more, pair)
  {
    var i :| 0 <= i < |rows| && rows[i].event == pair.event && rows[i].endpoint == pair.endpoint;
    assert more[i] == rows[i];
  }

  lemma {:induction false} InsertCovers(rows: seq<Delivery>, events: seq<HookEvent>, pairs: seq<Pair>, now: Time,
                                        pair: Pair)
    requires pair in pairs && forall x :: x in pairs ==> x.event < |events|
    ensures Has(InsertAll(rows, events, pairs, now), pair)
    decreases |pairs|
  {
    var first := pairs[0];
    var next := if Has(rows, first) then rows else rows + [NewRow(first, events[first.event].business, now)];
    if pair == first {
      assert Has(next, pair) by {
        if !Has(rows, first) {
          assert next[|rows|].event == pair.event && next[|rows|].endpoint == pair.endpoint;
        }
      }
      InsertAppends(next, events, pairs[1..], now);
      HasGrows(next, InsertAll(next, events, pairs[1..], now), pair);
    } else {
      InsertCovers(next, events, pairs[1..], now, pair);
    }
  }

  /** Nothing is inserted for pairs that all have their row. */
  lemma {:induction false} InsertNothing(rows: seq<Delivery>, events: seq<HookEvent>, pairs: seq<Pair>, now: Time)
    requires forall pair :: pair in pairs ==> pair.event < |events| && Has(rows, pair)
    ensures InsertAll(rows, events, pairs, now) == rows
    decreases |pairs|
  {
    if pairs != [] {
      assert pairs[0] in pairs;
      InsertNothing(rows, events, pairs[1..], now);
    }
  }

  /**
   Running fan-out again, in any row order, adds nothing; running it at all leaves every existing
   delivery as it is, adds one fresh row for each selected pair that had none, and no other.
   */
  lemma FanOutIsIdempotent(s: Hooks, pairs: seq<Pair>, again: seq<Pair>)
    requires IsSelection(s, pairs) && IsSelection(s, again)
    ensures var q := InsertAll(s.rows, s.events, pairs, s.now);
      && s.rows <= q
      && InsertAll(q, s.events, again, s.now) == q
      && (forall pair :: Has(q, pair) <==> Has(s.rows, pair) || Selected(s.events, s.endpoints, s.now, pair))
      && (UniquePairs(s.rows) ==> UniquePairs(q))
  {
    var q := InsertAll(s.rows, s.events, pairs, s.now);
    InsertAppends(s.rows, s.events, pairs, s.now);
    forall pair | pair in pairs ensures Has(q, pair) {
      InsertCovers(s.rows, s.events, pairs, s.now, pair);
    }
    InsertNothing(q, s.events, again, s.now);
    forall pair ensures Has(q, pair) <==> Has(s.rows, pair) || Selected(s.events, s.endpoints, s.now, pair) {
      if Has(s.rows, pair) {
        HasGrows(s.rows, q, pair);
      } else if Has(q, pair) {
        InsertsOnlySelected(s.rows, s.events, pairs, s.now, pair);
      }
    }
    if UniquePairs(s.rows) {
      InsertKeepsUnique(s.rows, s.events, pairs, s.now);
    }
  }

  lemma {:induction false} InsertsOnlySelected(rows: seq<Delivery>, events: seq<HookEvent>, pairs: seq<Pair>,
                                               now: Time, pair: Pair)
    requires (forall x :: x in pairs ==> x.event < |events|) && Has(InsertAll(rows, events, pairs, now), pair)
    ensures Has(rows, pair) || pair in pairs
    decreases |pairs|
  {
    if pairs != [] {
      var first := pairs[0];
      var next := if Has(rows, first) then rows else rows + [NewRow(first, events[first.event].business, now)];
      InsertsOnlySelected(next, events, pairs[1..], now, pair);
      if Has(next, pair) {
        var i :| 0 <= i < |next| && next[i].event == pair.event && next[i].endpoint == pair.endpoint;
        if i < |rows| {
          assert rows[i] == next[i];
        }
      }
    }
  }

  // ---- One row per pair, in every run ----

  lemma SameRows(s: Hooks, step: Step, maxAttempts: int)
    requires !step.FanOut? && Enabled(s, step)
    ensures var t := Apply(s, step, maxAttempts);
      |t.rows| == |s.rows| && forall i :: 0 <= i < |s.rows| ==>
        t.rows[i].event == s.rows[i].event && t.rows[i].endpoint == s.rows[i].endpoint
  {
  }

  lemma {:induction false} OneRowPerPair(steps: seq<Step>, maxAttempts: int)
    ensures UniquePairs(Run(steps, maxAttempts).rows)
    decreases |steps|
  {
    if steps != [] {
      var front, last := steps[..|steps| - 1], steps[|steps| - 1];
      OneRowPerPair(front, maxAttempts);
      var s := Run(front, maxAttempts);
      assert Run(steps, maxAttempts) == Apply(s, last, maxAttempts);
      if last.FanOut? && Enabled(s, last) {
        InsertKeepsUnique(s.rows, s.events, last.pairs, s.now);
      } else if Enabled(s, last) {
        SameRows(s, last, maxAttempts);
      }
    }
  }

  // ---- Nobody gets what is not theirs ----

  /** The endpoint belongs to the event's business and lists the event's kind, or lists none and takes all. */
  predicate Wants(p: Endpoint, e: HookEvent) {
    p.business == e.business && (e.kind in p.kinds || |p.kinds| == 0)
  }

  predicate Rightful(s: Hooks, d: Delivery) {
    && d.event < |s.events| && d.endpoint < |s.endpoints|
    && Wants(s.endpoints[d.endpoint], s.events[d.event]) && d.business == s.events[d.event].business
  }

  predicate AllRightful(s: Hooks, rows: seq<Delivery>) { forall i :: 0 <= i < |rows| ==> Rightful(s, rows[i]) }

  lemma {:induction false} InsertsOnlyRightful(s: Hooks, rows: seq<Delivery>, pairs: seq<Pair>)
    requires AllRightful(s, rows)
    requires forall pair :: pair in pairs ==> pair.event < |s.events| && Selected(s.events, s.endpoints, s.now, pair)
    ensures AllRightful(s, InsertAll(rows, s.events, pairs, s.now))
    decreases |pairs|
  {
    if pairs != [] {
      var pair := pairs[0];
      assert Selected(s.events, s.endpoints, s.now, pair);
      var next := if Has(rows, pair) then rows else rows + [NewRow(pair, s.events[pair.event].business, s.now)];
      InsertsOnlyRightful(s, next, pairs[1..]);
    }
  }

  lemma RightfulStep(s: Hooks, step: Step, maxAttempts: int)
    requires AllRightful(s, s.rows)
    ensures AllRightful(Apply(s, step, maxAttempts), Apply(s, step, maxAttempts).rows)
  {
    var t := Apply(s, step, maxAttempts);
    if step.FanOut? && Enabled(s, step) {
      InsertsOnlyRightful(s, s.rows, step.pairs);
    }
    forall i | 0 <= i < |t.rows| ensures Rightful(t, t.rows[i]) {
      if step.FanOut? && Enabled(s, step) {
        assert Rightful(s, t.rows[i]);
      } else {
        assert Rightful(s, s.rows[i]);
      }
    }
  }

  /** In every run each delivery carries its own business's event to an endpoint of that business that asked for it. */
  lemma {:induction false} DeliveriesAreRightful(steps: seq<Step>, maxAttempts: int)
    ensures AllRightful(Run(steps, maxAttempts), Run(steps, maxAttempts).rows)
    decreases |steps|
  {
    if steps != [] {
      DeliveriesAreRightful(steps[..|steps| - 1], maxAttempts);
      RightfulStep(Run(steps[..|steps| - 1], maxAttempts), steps[|steps| - 1], maxAttempts);
    }
  }

  // ---- Events and endpoints over a run ----

  /** The last setting of an endpoint's status; it starts out active. */
  ghost function LastSetting(steps: seq<Step>, maxAttempts: int, p: nat): bool {
    if steps == [] then true
    else
      var front, last := steps[..|steps| - 1], steps[|steps| - 1];
      if last.SetActive? && last.endpoint == p && p < |Run(front, maxAttempts).endpoints| then last.active
      else LastSetting(front, maxAttempts, p)
  }

  /** In every run an endpoint is active exactly if that is how it was last set, or it never was. */
  lemma {:induction false} ActiveAsLastSet(steps: seq<Step>, maxAttempts: int, p: nat)
    ensures var s := Run(steps, maxAttempts);
      if p < |s.endpoints| then s.endpoints[p].active == LastSetting(steps, maxAttempts, p)
      else LastSetting(steps, maxAttempts, p)
    decreases |steps|
  {
    if steps != [] {
      ActiveAsLastSet(steps[..|steps| - 1], maxAttempts, p);
    }
  }

  /** Events and endpoints are added as they come, events stamped with the time, and never removed or rewritten. */
  lemma EventsAndEndpointsStay(steps: seq<Step>, step: Step, maxAttempts: int)
    ensures var s, t := Run(steps, maxAttempts), Run(steps + [step], maxAttempts);
      && t.events == (if step.Emit? then s.events + [HookEvent(step.business, step.kind, s.now)] else s.events)
      && |t.endpoints| == |s.endpoints| + (if step.Register? then 1 else 0)
      && (forall p :: 0 <= p < |s.endpoints| ==>
            t.endpoints[p].business == s.endpoints[p].business && t.endpoints[p].kinds == s.endpoints[p].kinds)
      && (step.Register? ==>
            && var added := t.endpoints[|s.endpoints|];
            && added.business == step.business && added.kinds == step.kinds && added.active)
  {
    assert (steps + [step])[..|steps|] == steps;
  }

  // ---- Exactly which rows a fan-out adds ----

  lemma {:induction false} InsertedRowsAreNew(rows: seq<Delivery>, events: seq<HookEvent>, pairs: seq<Pair>, now: Time)
    requires forall pair :: pair in pairs ==> pair.event < |events|
    ensures var q := InsertAll(rows, events, pairs, now);
      && rows <= q
      && forall i :: |rows| <= i < |q| ==>
           && q[i].event < |events| && !Has(rows, Pair(q[i].event, q[i].endpoint))
           && q[i] == Delivery(q[i].event, q[i].endpoint, events[q[i].event].business, DeliveryStatus.Pending, 0, now,
                               None, None, None)
    decreases |pairs|
  {
    if pairs != [] {
      var pair := pairs[0];
      var next := if Has(rows, pair) then rows else rows + [NewRow(pair, events[pair.event].business, now)];
      InsertedRowsAreNew(next, events, pairs[1..], now);
      var q := InsertAll(next, events, pairs[1..], now);
      forall i | |rows| <= i < |q| ensures !Has(rows, Pair(q[i].event, q[i].endpoint)) {
        if i == |rows| < |next| {
          assert q[i] == next[i];
        } else if Has(rows, Pair(q[i].event, q[i].endpoint)) {
          HasGrows(rows, next, Pair(q[i].event, q[i].endpoint));
        }
      }
    }
  }

  /** A fan-out at this moment owes the pair a row. */
  predicate Owed(s: Hooks, pair: Pair) {
    && pair.event < |s.events| && pair.endpoint < |s.endpoints|
    && s.endpoints[pair.endpoint].active && Wants(s.endpoints[pair.endpoint], s.events[pair.event])
    && s.now - s.events[pair.event].createdAt < 3600
    && !Has(s.rows, pair)
  }

  /**
   In every run, a fan-out keeps every row and adds one for exactly the pairs that have none, whose
   endpoint is active at that moment and belongs to the event's business and asked for its kind, and
   whose event is less than an hour old. A new row is pending, untried and due at once.
   */
  lemma FanOutAddsExactlyWhatIsOwed(steps: seq<Step>, pairs: seq<Pair>, maxAttempts: int)
    requires Enabled(Run(steps, maxAttempts), FanOut(pairs))
    ensures var s, t := Run(steps, maxAttempts), Run(steps + [FanOut(pairs)], maxAttempts);
      && s.rows <= t.rows && t.events == s.events && t.endpoints == s.endpoints && t.working == s.working
      && (forall pair :: Has(t.rows, pair) && !Has(s.rows, pair) <==> Owed(s, pair))
      && (forall i :: |s.rows| <= i < |t.rows| ==>
            && var d := t.rows[i];
            && Owed(s, Pair(d.event, d.endpoint))
            && d == Delivery(d.event, d.endpoint, s.events[d.event].business, DeliveryStatus.Pending, 0, s.now,
                             None, None, None))
  {
    var s, t := Run(steps, maxAttempts), Run(steps + [FanOut(pairs)], maxAttempts);
    assert (steps + [FanOut(pairs)])[..|steps|] == steps;
    InsertedRowsAreNew(s.rows, s.events, pairs, s.now);
    forall pair ensures Has(t.rows, pair) && !Has(s.rows, pair) <==> Owed(s, pair) {
      if Has(t.rows, pair) && !Has(s.rows, pair) {
        InsertsOnlySelected(s.rows, s.events, pairs, s.now, pair);
      }
      if Owed(s, pair) {
        assert Selected(s.events, s.endpoints, s.now, pair);
        InsertCovers(s.rows, s.events, pairs, s.now, pair);
      }
    }
    forall i | |s.rows| <= i < |t.rows| ensures Owed(s, Pair(t.rows[i].event, t.rows[i].endpoint)) {
      var pair := Pair(t.rows[i].event, t.rows[i].endpoint);
      assert Has(t.rows, pair) && !Has(s.rows, pair);
    }
  }

  // ---- Nothing is forgotten ----

  /** Each fan-out comes less than an hour after the one before it (or after the start). */
  ghost predicate Timely(steps: seq<Step>, maxAttempts: int) {
    forall n :: 0 <= n < |steps| && steps[n].FanOut? ==>
      var s := Run(steps[..n], maxAttempts); s.now - s.lastFanOut < 3600
  }

  /** The endpoint matches the event and has been active ever since before it happened. */
  predicate Subscribed(s: Hooks, e: nat, p: nat)
    requires e < |s.events| && p < |s.endpoints|
  {
    Wants(s.endpoints[p], s.events[e]) && s.endpoints[p].active && s.endpoints[p].activeFrom <= e
  }

  predicate Covered(s: Hooks, e: nat, p: nat)
    requires e < |s.events| && p < |s.endpoints|
  {
    e < s.fanned && Subscribed(s, e, p) ==> Has(s.rows, Pair(e, p))
  }

  predicate Punctual(s: Hooks) {
    && s.fanned <= |s.events| && s.lastFanOut <= s.now
    && (forall e :: s.fanned <= e < |s.events| ==> s.lastFanOut <= s.events[e].createdAt)
    && (forall p :: 0 <= p < |s.endpoints| ==> s.endpoints[p].activeFrom <= |s.events|)
  }

  predicate AllCovered(s: Hooks) {
    forall e, p :: 0 <= e < |s.events| && 0 <= p < |s.endpoints| ==> Covered(s, e, p)
  }

  lemma PunctualStep(s: Hooks, step: Step, maxAttempts: int)
    requires Punctual(s)
    ensures Punctual(Apply(s, step, maxAttempts))
  {
  }

  lemma FanOutCovers(s: Hooks, step: Step, maxAttempts: int)
    requires Punctual(s) && AllCovered(s) && step.FanOut? && Enabled(s, step)
    requires s.now - s.lastFanOut < 3600
    ensures AllCovered(Apply(s, step, maxAttempts))
  {
    var t := Apply(s, step, maxAttempts);
    InsertAppends(s.rows, s.events, step.pairs, s.now);
    forall e, p | 0 <= e < |t.events| && 0 <= p < |t.endpoints| ensures Covered(t, e, p) {
      assert Covered(s, e, p);
      if Subscribed(s, e, p) {
        if e < s.fanned {
          HasGrows(s.rows, t.rows, Pair(e, p));
        } else {
          assert Selected(s.events, s.endpoints, s.now, Pair(e, p));
          InsertCovers(s.rows, s.events, step.pairs, s.now, Pair(e, p));
        }
      }
    }
  }

  lemma HasAfterMove(rows: seq<Delivery>, moved: seq<Delivery>, pair: Pair)
    requires |moved| == |rows| && Has(rows, pair)
    requires forall i :: 0 <= i < |rows| ==> moved[i].event == rows[i].event && moved[i].endpoint == rows[i].endpoint
    ensures Has(moved, pair)
  {
    var i :| 0 <= i < |rows| && rows[i].event == pair.event && rows[i].endpoint == pair.endpoint;
    assert moved[i].event == pair.event && moved[i].endpoint == pair.endpoint;
  }

  lemma OtherStepsCover(s: Hooks, step: Step, maxAttempts: int)
    requires Punctual(s) && AllCovered(s) && !step.FanOut? && Enabled(s, step)
    ensures AllCovered(Apply(s, step, maxAttempts))
  {
    var t := Apply(s, step, maxAttempts);
    SameRows(s, step, maxAttempts);
    forall e, p | 0 <= e < |t.events| && 0 <= p < |t.endpoints| ensures Covered(t, e, p) {
      if e < t.fanned && Subscribed(t, e, p) {
        assert e < |s.events| && t.events[e] == s.events[e];
        assert p < |s.endpoints| && Subscribed(s, e, p);
        assert Covered(s, e, p);
        HasAfterMove(s.rows, t.rows, Pair(e, p));
      }
    }
  }

  lemma {:induction false} TimelyRunCovers(steps: seq<Step>, maxAttempts: int)
    requires Timely(steps, maxAttempts)
    ensures Punctual(Run(steps, maxAttempts)) && AllCovered(Run(steps, maxAttempts))
    decreases |steps|
  {
    if steps != [] {
      var front, last := steps[..|steps| - 1], steps[|steps| - 1];
      assert Timely(front, maxAttempts) by {
        forall n | 0 <= n < |front| && front[n].FanOut?
          ensures var s := Run(front[..n], maxAttempts); s.now - s.lastFanOut < 3600
        {
          assert front[..n] == steps[..n] && front[n] == steps[n];
        }
      }
      TimelyRunCovers(front, maxAttempts);
      var s := Run(front, maxAttempts);
      assert Run(steps, maxAttempts) == Apply(s, last, maxAttempts);
      PunctualStep(s, last, maxAttempts);
      if Enabled(s, last) {
        if last.FanOut? {
          FanOutCovers(s, last, maxAttempts);
        } else {
          OtherStepsCover(s, last, maxAttempts);
        }
      }
    }
  }

  /**
   In a run whose fan-outs are less than an hour apart, every event that existed at the last one has
   a delivery for each matching endpoint that has stayed active since before the event.
   */
  lemma NoEventIsForgotten(steps: seq<Step>, maxAttempts: int, e: nat, p: nat)
    requires Timely(steps, maxAttempts)
    requires e < |Run(steps, maxAttempts).events| && p < |Run(steps, maxAttempts).endpoints|
    ensures var s := Run(steps, maxAttempts);
      e < s.fanned && Subscribed(s, e, p) ==> Has(s.rows, Pair(e, p))
  {
    TimelyRunCovers(steps, maxAttempts);
    assert Covered(Run(steps, maxAttempts), e, p);
  }

  /** The hour is exact: an event that is an hour old without its row never gets one. */
  lemma {:induction false} TooLateIsNever(s: Hooks, steps: seq<Step>, maxAttempts: int, e: nat, p: nat)
    requires e < |s.events| && s.events[e].createdAt + 3600 <= s.now && !Has(s.rows, Pair(e, p))
    ensures var t := Exec(s, steps, maxAttempts);
      && s.events <= t.events && s.now <= t.now && !Has(t.rows, Pair(e, p))
    decreases |steps|
  {
    if steps != [] {
      var front, last := steps[..|steps| - 1], steps[|steps| - 1];
      TooLateIsNever(s, front, maxAttempts, e, p);
      var m, t := Exec(s, front, maxAttempts), Exec(s, steps, maxAttempts);
      assert m.events[e] == s.events[e];
      if Enabled(m, last) {
        if last.FanOut? {
          if Has(t.rows, Pair(e, p)) {
            InsertsOnlySelected(m.rows, m.events, last.pairs, m.now, Pair(e, p));
          }
        } else {
          SameRows(m, last, maxAttempts);
          if Has(t.rows, Pair(e, p)) {
            HasAfterMove(t.rows, m.rows, Pair(e, p));
          }
        }
      }
    }
  }
}
