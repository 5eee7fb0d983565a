/**
 Finalize converges. One attempt may be finalized many times: by the request that made it, by any
 number of reconcilers, after timeouts, in any order, with admin transitions in between. The attempt
 keeps the first definite result and its key replays the last one; as long as the PSP sticks to one
 verdict, it does not matter how often or in which order.
 */
module PaymentConvergence {
  import opened Common
  import opened InvoiceLifecycle
  import opened PaymentTables

  datatype Act =
    | Finalize(result: PspResult, at: Time)
    | Admin(from: InvoiceState, to: InvoiceState, at: Time)

  function Play(db: Db, job: Job, acts: seq<Act>): Db {
    if acts == [] then db
    else
      var d := Play(db, job, acts[..|acts| - 1]);
      match acts[|acts| - 1]
      case Finalize(result, at) => FinalizeTx(d, job, result, at)
      case Admin(from, to, at) => AdminTx(d, job.business, job.invoice, from, to, at)
  }

  predicate IsDefinite(act: Act) { act.Finalize? && !act.result.Unknown? }

  predicate Decided(acts: seq<Act>) { exists n :: 0 <= n < |acts| && IsDefinite(acts[n]) }

  /** Every definite result is `r`. */
  predicate OneVerdict(acts: seq<Act>, r: PspResult) {
    !r.Unknown? && forall n :: 0 <= n < |acts| && IsDefinite(acts[n]) ==> acts[n].result == r
  }

  predicate NoAdmin(acts: seq<Act>) { forall n :: 0 <= n < |acts| ==> acts[n].Finalize? }

  /** The attempt is pending and its key is in progress. */
  predicate InFlight(db: Db, job: Job) {
    && job.attempt in db.attempts && db.attempts[job.attempt].status.Pending?
    && KeyId(job.business, job.key) in db.keys && !db.keys[KeyId(job.business, job.key)].completed
    && job.invoice in db.invoices && db.invoices[job.invoice].business == job.business
  }

  /** What the client can learn about an attempt: its outcome, and the row its key replays from. */
  datatype Standing = Standing(status: PaymentStatus, pspRef: Option<Text>, failureCode: Option<Text>, key: KeyRow)

  predicate HasRows(db: Db, job: Job) {
    job.attempt in db.attempts && KeyId(job.business, job.key) in db.keys && job.invoice in db.invoices
  }

  function StandingOf(db: Db, job: Job): Standing
    requires HasRows(db, job)
  {
    var at := db.attempts[job.attempt];
    Standing(at.status, at.pspRef, at.failureCode, db.keys[KeyId(job.business, job.key)])
  }

  lemma {:induction false} PlayKeepsRows(db: Db, job: Job, acts: seq<Act>)
    requires HasRows(db, job)
    ensures HasRows(Play(db, job, acts), job)
  {
    if acts != [] {
      PlayKeepsRows(db, job, acts[..|acts| - 1]);
    }
  }

  // ---- The law, whatever the results ----

  /** The first definite result. */
  function First(acts: seq<Act>): Option<PspResult> {
    if acts == [] then None
    else
      var front, last := acts[..|acts| - 1], acts[|acts| - 1];
      if First(front).Some? || !IsDefinite(last) then First(front) else Some(last.result)
  }

  /** The last definite result. */
  function Last(acts: seq<Act>): Option<PspResult> {
    if acts == [] then None
    else
      var front, last := acts[..|acts| - 1], acts[|acts| - 1];
      if IsDefinite(last) then Some(last.result) else Last(front)
  }

  /** What an attempt in flight stands at, given its first and its last definite result. */
  function Told(was: Standing, job: Job, first: Option<PspResult>, last: Option<PspResult>): Standing {
    if first.None? || last.None? then was
    else
      var key := was.key.(completed := true, response := Some(Respond(job, last.value)));
      match first.value
      case Charged(ref) => Standing(Succeeded, Some(ref), was.failureCode, key)
      case Declined(code) => Standing(Failed, was.pspRef, Some(code), key)
      case Unknown(_) => was
  }

  lemma {:induction false} DefiniteResults(acts: seq<Act>)
    ensures Decided(acts) <==> First(acts).Some?
    ensures Decided(acts) <==> Last(acts).Some?
    ensures First(acts).Some? ==>
      exists n :: 0 <= n < |acts| && IsDefinite(acts[n]) && acts[n].result == First(acts).value
    ensures Last(acts).Some? ==>
      exists n :: 0 <= n < |acts| && IsDefinite(acts[n]) && acts[n].result == Last(acts).value
  {
    if acts != [] {
      var front, last := acts[..|acts| - 1], acts[|acts| - 1];
      DefiniteResults(front);
      assert IsDefinite(last) ==> IsDefinite(acts[|acts| - 1]);
      assert forall n :: 0 <= n < |front| ==> acts[n] == front[n];
      if Decided(acts) {
        var n :| 0 <= n < |acts| && IsDefinite(acts[n]);
        assert n < |front| ==> IsDefinite(front[n]);
      }
    }
  }

  /** After any acts at all, the attempt tells the first definite result and its key replays the last. */
  lemma {:induction false} FirstStandsLastIsReplayed(db: Db, job: Job, acts: seq<Act>)
    requires InFlight(db, job)
    ensures HasRows(Play(db, job, acts), job)
    ensures StandingOf(Play(db, job, acts), job) == Told(StandingOf(db, job), job, First(acts), Last(acts))
  {
    PlayKeepsRows(db, job, acts);
    DefiniteResults(acts);
    if acts != [] {
      FirstStandsLastIsReplayed(db, job, acts[..|acts| - 1]);
      DefiniteResults(acts[..|acts| - 1]);
    }
  }

  predicate AnyCharge(acts: seq<Act>) { exists n :: 0 <= n < |acts| && acts[n].Finalize? && acts[n].result.Charged? }

  /** Left alone by admins, the invoice is paid by any successful charge among the results. */
  lemma {:induction false} AnyChargePays(db: Db, job: Job, acts: seq<Act>)
    requires InFlight(db, job) && NoAdmin(acts)
    ensures HasRows(Play(db, job, acts), job)
    ensures var was := db.invoices[job.invoice].state;
      Play(db, job, acts).invoices[job.invoice].state == if was.Open? && AnyCharge(acts) then Paid else was
  {
    PlayKeepsRows(db, job, acts);
    if acts != [] {
      var front := acts[..|acts| - 1];
      AnyChargePays(db, job, front);
      assert forall n :: 0 <= n < |front| ==> acts[n] == front[n];
      assert AnyCharge(acts) <==> AnyCharge(front) || acts[|acts| - 1].result.Charged?;
    }
  }

  // ---- Convergence, and exactly when ----

  /** Two histories leave the attempt and its key alike exactly if their first and their last results are alike. */
  lemma HistoriesAgreeIff(db: Db, job: Job, xs: seq<Act>, ys: seq<Act>)
    requires InFlight(db, job)
    ensures HasRows(Play(db, job, xs), job) && HasRows(Play(db, job, ys), job)
    ensures StandingOf(Play(db, job, xs), job) == StandingOf(Play(db, job, ys), job)
            <==> First(xs) == First(ys) && Last(xs) == Last(ys)
  {
    FirstStandsLastIsReplayed(db, job, xs);
    FirstStandsLastIsReplayed(db, job, ys);
    DefiniteResults(xs);
    DefiniteResults(ys);
    ToldDetermines(StandingOf(db, job), job, First(xs), Last(xs), First(ys), Last(ys));
  }

  predicate Definite(r: Option<PspResult>) { r.Some? ==> !r.value.Unknown? }

  lemma ToldDetermines(was: Standing, job: Job, f: Option<PspResult>, l: Option<PspResult>,
                       f': Option<PspResult>, l': Option<PspResult>)
    requires was.status.Pending? && Definite(f) && Definite(l) && Definite(f') && Definite(l')
    requires (f.Some? <==> l.Some?) && (f'.Some? <==> l'.Some?)
    ensures Told(was, job, f, l) == Told(was, job, f', l') <==> f == f' && l == l'
  {
  }

  /** Once an attempt is decided, the cached response is its own exactly if the last result repeats the first. */
  lemma CacheMatchesIff(db: Db, job: Job, acts: seq<Act>)
    requires InFlight(db, job) && Decided(acts)
    ensures HasRows(Play(db, job, acts), job) && First(acts).Some? && Last(acts).Some?
    ensures var st := StandingOf(Play(db, job, acts), job);
      && st.status == Respond(job, First(acts).value).body.status
      && st.key.completed && st.key.response == Some(Respond(job, Last(acts).value))
      && (st.key.response == Some(Respond(job, First(acts).value)) <==> First(acts) == Last(acts))
  {
    FirstStandsLastIsReplayed(db, job, acts);
    DefiniteResults(acts);
  }

  lemma OneVerdictIsFirstAndLast(acts: seq<Act>, r: PspResult)
    requires OneVerdict(acts, r)
    ensures First(acts) == Last(acts) == if Decided(acts) then Some(r) else None
  {
    DefiniteResults(acts);
  }

  lemma OneFinalize(db: Db, job: Job, r: PspResult, t: Time)
    requires !r.Unknown?
    ensures var one := [Finalize(r, t)];
      Play(db, job, one) == FinalizeTx(db, job, r, t) && First(one) == Last(one) == Some(r)
  {
    assert [Finalize(r, t)][..0] == [];
  }

  /** Under one verdict, the standing after any acts is the one after a single definite finalize, or what it was. */
  lemma StandingConverges(db: Db, job: Job, acts: seq<Act>, r: PspResult, t: Time)
    requires InFlight(db, job) && OneVerdict(acts, r)
    ensures HasRows(Play(db, job, acts), job)
    ensures StandingOf(Play(db, job, acts), job)
            == StandingOf(if Decided(acts) then FinalizeTx(db, job, r, t) else db, job)
  {
    FirstStandsLastIsReplayed(db, job, acts);
    OneVerdictIsFirstAndLast(acts, r);
    OneFinalize(db, job, r, t);
    FirstStandsLastIsReplayed(db, job, [Finalize(r, t)]);
  }

  /**
   Any two histories of one attempt that both contain a definite outcome agree on the attempt, the
   key and the cached response, whatever the admins did; and on the invoice if they did nothing.
   */
  lemma FinalizeConverges(db: Db, job: Job, xs: seq<Act>, ys: seq<Act>, r: PspResult)
    requires InFlight(db, job) && OneVerdict(xs, r) && OneVerdict(ys, r) && Decided(xs) && Decided(ys)
    ensures HasRows(Play(db, job, xs), job) && HasRows(Play(db, job, ys), job)
    ensures StandingOf(Play(db, job, xs), job) == StandingOf(Play(db, job, ys), job)
    ensures var row := Play(db, job, xs).keys[KeyId(job.business, job.key)];
            row.completed && row.response == Some(Respond(job, r))
    ensures NoAdmin(xs) && NoAdmin(ys) ==>
              Play(db, job, xs).invoices[job.invoice].state == Play(db, job, ys).invoices[job.invoice].state
  {
    HistoriesAgreeIff(db, job, xs, ys);
    CacheMatchesIff(db, job, xs);
    OneVerdictIsFirstAndLast(xs, r);
    OneVerdictIsFirstAndLast(ys, r);
    if NoAdmin(xs) && NoAdmin(ys) {
      AnyChargePays(db, job, xs);
      AnyChargePays(db, job, ys);
      OneVerdictCharges(xs, r);
      OneVerdictCharges(ys, r);
    }
  }

  lemma OneVerdictCharges(acts: seq<Act>, r: PspResult)
    requires OneVerdict(acts, r) && Decided(acts)
    ensures AnyCharge(acts) <==> r.Charged?
  {
    var n :| 0 <= n < |acts| && IsDefinite(acts[n]);
    assert acts[n].result == r;
    if AnyCharge(acts) {
      var m :| 0 <= m < |acts| && acts[m].Finalize? && acts[m].result.Charged?;
      assert IsDefinite(acts[m]);
    }
  }

  /** Once an attempt has settled, an unknown outcome changes nothing at all. */
  lemma UnknownAfterDefiniteIsNothing(db: Db, job: Job, acts: seq<Act>, reason: string, t: Time)
    requires InFlight(db, job) && Decided(acts)
    ensures var q := Play(db, job, acts); FinalizeTx(q, job, Unknown(reason), t) == q
  {
    FirstStandsLastIsReplayed(db, job, acts);
    DefiniteResults(acts);
    var q := Play(db, job, acts);
    assert SettleRow(q.attempts, job.attempt, Unknown(reason), t) == q.attempts;
  }
}
