/**
 Why a payment request was refused. In every run, every refusal that a client got is the right one:
 it follows from what the request asked for, from the invoice as it read it, and from the keys and
 attempts as they were when it was decided.
 */
module PaymentReasons {
  import opened Common
  import opened InvoiceLifecycle
  import opened PaymentTables
  import opened PaymentProtocol
  import opened PaymentTheorems
  import opened PaymentRetry
  import opened PaymentAdmission
  import opened PaymentEffects
  import Fingerprint

  /** The key is in use for another invoice or another card. */
  predicate UsedForOther(db: Db, id: KeyId, i: Id, token: Text) {
    && id in db.keys && db.keys[id].attempt.Some? && db.keys[id].attempt.value in db.attempts
    && var at := db.attempts[db.keys[id].attempt.value];
    && (at.invoice != i || at.token != token)
  }

  predicate IsRefusal(a: Answer) { a.Conflict? || a.BlankToken? || a.InvoiceNotFound? }

  /** Request `w` came in at the `m`th step and was decided at the `n`th, and `a` is the answer it deserved. */
  ghost predicate Deserved(steps: seq<Step>, m: nat, n: nat, w: WorkerId, a: Answer) {
    && m <= n < |steps| && steps[m].StartPay? && steps[m].w == w
    && var ask, s := steps[m], Run(steps[..n]).db;
    && var read, id := Run(steps[..m]).db.invoices, KeyId(ask.business, ask.key);
    && var found := ask.invoice in read && read[ask.invoice].business == ask.business;
    match a
    case BlankToken => IsBlank(ask.token)
    case InvoiceNotFound => !IsBlank(ask.token) && !found
    case Conflict(code) =>
      && !IsBlank(ask.token) && found
      && (|| (code == "invoice_not_payable" && id !in s.keys && read[ask.invoice].state != Open)
          || (code == "payment_in_progress" && id !in s.keys && read[ask.invoice].state == Open
              && UnderWay(s.attempts, ask.invoice))
          || (code == "idempotency_key_reuse" && UsedForOther(s, id, ask.invoice, ask.token)))
    case _ => false
  }

  lemma PrefixDeserved(steps: seq<Step>, last: Step, m: nat, n: nat, w: WorkerId, a: Answer)
    requires Deserved(steps, m, n, w, a)
    ensures Deserved(steps + [last], m, n, w, a)
  {
    assert (steps + [last])[..n] == steps[..n] && (steps + [last])[..m] == steps[..m];
  }

  /** Where refusals come from. */
  lemma RefusalComes(s: Sys, step: Step, w: WorkerId)
    requires w in Apply(s, step).answers && IsRefusal(Apply(s, step).answers[w])
    ensures var a := Apply(s, step).answers[w];
      || (w in s.answers && s.answers[w] == a)
      || (Enabled(s, step) && Actor(step) == Some(w) && (step.StartPay? || step.RunClaim? || step.RunReplay?))
  {
    if Actor(step) != Some(w) {
      OthersLeaveAlone(s, step, w);
    }
  }

  lemma StartRefuses(steps: seq<Step>, step: Step, w: WorkerId)
    requires step.StartPay? && step.w == w && Enabled(Run(steps), step)
    requires w in Apply(Run(steps), step).answers
    ensures Deserved(steps + [step], |steps|, |steps|, w, Apply(Run(steps), step).answers[w])
  {
    assert (steps + [step])[..|steps|] == steps;
  }

  lemma ClaimRefuses(steps: seq<Step>, step: Step, w: WorkerId) returns (m: nat)
    requires step.RunClaim? && step.w == w && Enabled(Run(steps), step)
    requires w in Apply(Run(steps), step).answers && w !in Run(steps).answers
    ensures Deserved(steps + [step], m, |steps|, w, Apply(Run(steps), step).answers[w])
  {
    ClaimCases(Run(steps), w, step.attempt);
    m := ReadHappened(steps, w);
    assert (steps + [step])[..m] == steps[..m] && (steps + [step])[..|steps|] == steps;
  }

  /** The amount a request read is still the invoice's total. */
  lemma TotalAsRead(steps: seq<Step>, n: nat, w: WorkerId, k: Worker)
    requires ReadAt(steps, n, w, k)
    ensures k.invoice in Run(steps).db.invoices && Run(steps).db.invoices[k.invoice].total == k.amount
  {
    assert steps == steps[..n] + steps[n..];
    ExecConcat(Init(), steps[..n], steps[n..]);
    RunOk(steps[..n]);
    TerminalIsForever(Run(steps[..n]), steps[n..]);
    assert InvoiceSettles(Run(steps[..n]).db.invoices[k.invoice], Run(steps).db.invoices[k.invoice]);
  }

  lemma ReplayRefuses(steps: seq<Step>, step: Step, w: WorkerId) returns (m: nat)
    requires step.RunReplay? && step.w == w && Enabled(Run(steps), step)
    requires Apply(Run(steps), step).answers[w].Conflict?
    ensures Deserved(steps + [step], m, |steps|, w, Apply(Run(steps), step).answers[w])
  {
    var k;
    m, k := ReplayingHappened(steps, w);
    TotalAsRead(steps, m, w, k);
    SameRequestSameDigest(steps, KeyId(k.business, k.key), k.invoice, k.token);
    assert (steps + [step])[..m] == steps[..m] && (steps + [step])[..|steps|] == steps;
  }

  lemma AnsweredWorkersAreGone(steps: seq<Step>, w: WorkerId)
    requires w in Run(steps).answers
    ensures w !in Run(steps).workers
    decreases |steps|
  {
    var front, last := steps[..|steps| - 1], steps[|steps| - 1];
    if Actor(last) != Some(w) {
      OthersLeaveAlone(Run(front), last, w);
      AnsweredWorkersAreGone(front, w);
    } else if w in Run(front).answers {
      AnsweredWorkersAreGone(front, w);
    } else if last.RunClaim? && Enabled(Run(front), last) {
      ClaimCases(Run(front), w, last.attempt);
    }
  }

  /**
   In every run: a client is told that the token is missing, that the invoice does not exist, that it
   is not payable, that a payment is in progress, or that the key was used for something else, only if
   it is so; and not payable only by the state that its own request had read.
   */
  lemma {:induction false} RefusalsAreDeserved(steps: seq<Step>, w: WorkerId) returns (m: nat, n: nat)
    requires w in Run(steps).answers && IsRefusal(Run(steps).answers[w])
    ensures Deserved(steps, m, n, w, Run(steps).answers[w])
    decreases |steps|
  {
    var front, last := steps[..|steps| - 1], steps[|steps| - 1];
    var a := Run(steps).answers[w];
    assert steps == front + [last];
    RefusalComes(Run(front), last, w);
    if w in Run(front).answers && Run(front).answers[w] == a {
      m, n := RefusalsAreDeserved(front, w);
      PrefixDeserved(front, last, m, n, w, a);
    } else {
      n := |front|;
      match last {
        case StartPay(_, _, _, _, _) =>
          m := n;
          StartRefuses(front, last, w);
        case RunClaim(_, _) =>
          if w in Run(front).answers {
            AnsweredWorkersAreGone(front, w);
          }
          m := ClaimRefuses(front, last, w);
        case RunReplay(_) => m := ReplayRefuses(front, last, w);
      }
    }
  }
}
