/**
 The reconciler's pass over a leased batch: for each job the PSP is asked again under the job's own
 key and whatever comes back is finalized; a finalize that fails is skipped. What a whole pass does,
 job by job, and that it is what the protocol's batch worker does when nobody comes between.
 */
module PaymentBatch {
  import opened Common
  import opened PaymentTables
  import opened PaymentProtocol
  import opened PaymentInvariant
  import opened PaymentTheorems

  /** One job of a pass: what the PSP call came back with, when it was finalized, and whether that committed. */
  datatype Round = Round(job: Job, reply: HttpReply, at: Time, commits: bool)

  function DoRound(db: Db, r: Round): Db {
    if r.commits then FinalizeTx(db, r.job, Classify(r.reply), r.at) else db
  }

  function Pass(db: Db, rounds: seq<Round>): Db
    decreases |rounds|
  {
    if rounds == [] then db else Pass(DoRound(db, rounds[0]), rounds[1..])
  }

  function Jobs(rounds: seq<Round>): (jobs: seq<Job>)
    ensures |jobs| == |rounds| && forall n :: 0 <= n < |rounds| ==> jobs[n] == rounds[n].job
  {
    seq(|rounds|, n requires 0 <= n < |rounds| => rounds[n].job)
  }

  // ---- What a pass does ----

  function KeyOf(job: Job): KeyId { KeyId(job.business, job.key) }

  /** The rounds of a batch concern different attempts and different keys. */
  predicate Separate(rounds: seq<Round>) {
    forall i, j :: 0 <= i < j < |rounds| ==>
      rounds[i].job.attempt != rounds[j].job.attempt && KeyOf(rounds[i].job) != KeyOf(rounds[j].job)
  }

  /** The round's result is definite and was committed. */
  predicate Decides(r: Round) { r.commits && !Classify(r.reply).Unknown? }

  function Notice(r: Round): seq<Event> {
    if Decides(r) then [OutcomeEvent(r.job, Respond(r.job, Classify(r.reply)).body)] else []
  }

  /** The events of a pass: one for each round that decides, in order. */
  function Notices(rounds: seq<Round>): seq<Event> {
    if rounds == [] then [] else Notice(rounds[0]) + Notices(rounds[1..])
  }

  /** Attempts and keys that are not in the batch keep their rows. */
  lemma {:induction false} PassLeavesOthers(db: Db, rounds: seq<Round>, a: Id, id: KeyId)
    ensures var q := Pass(db, rounds);
      && ((forall n :: 0 <= n < |rounds| ==> rounds[n].job.attempt != a) ==>
            (a in q.attempts <==> a in db.attempts) && (a in db.attempts ==> q.attempts[a] == db.attempts[a]))
      && ((forall n :: 0 <= n < |rounds| ==> KeyOf(rounds[n].job) != id) ==>
            (id in q.keys <==> id in db.keys) && (id in db.keys ==> q.keys[id] == db.keys[id]))
    decreases |rounds|
  {
    if rounds != [] {
      assert forall n :: 0 <= n < |rounds[1..]| ==> rounds[1..][n] == rounds[n + 1];
      PassLeavesOthers(DoRound(db, rounds[0]), rounds[1..], a, id);
    }
  }

  /** Each job's attempt and key end up as the job's own result says, and nobody else's. */
  lemma {:induction false} PassSettlesEachByItsOwn(db: Db, rounds: seq<Round>, m: nat)
    requires Separate(rounds) && m < |rounds|
    requires rounds[m].job.attempt in db.attempts && KeyOf(rounds[m].job) in db.keys
    ensures var q, r := Pass(db, rounds), rounds[m];
      && r.job.attempt in q.attempts && KeyOf(r.job) in q.keys
      && var at, row := db.attempts[r.job.attempt], db.keys[KeyOf(r.job)];
      && q.attempts[r.job.attempt] == (if r.commits then Settle(at, Classify(r.reply), r.at) else at)
      && q.keys[KeyOf(r.job)]
         == if Decides(r) then row.(completed := true, response := Some(Respond(r.job, Classify(r.reply)))) else row
    decreases |rounds|
  {
    var d, rest := DoRound(db, rounds[0]), rounds[1..];
    assert forall n :: 0 <= n < |rest| ==> rest[n] == rounds[n + 1];
    if m == 0 {
      PassLeavesOthers(d, rest, rounds[0].job.attempt, KeyOf(rounds[0].job));
    } else {
      assert rounds[0].job.attempt != rounds[m].job.attempt && KeyOf(rounds[0].job) != KeyOf(rounds[m].job);
      PassSettlesEachByItsOwn(d, rest, m - 1);
    }
  }

  lemma RoundAnnounces(db: Db, r: Round)
    ensures DoRound(db, r).events == db.events + Notice(r)
  {
  }

  lemma {:induction false} PassAnnounces(db: Db, rounds: seq<Round>)
    ensures Pass(db, rounds).events == db.events + Notices(rounds)
    decreases |rounds|
  {
    if rounds != [] {
      var d, more := DoRound(db, rounds[0]), Notices(rounds[1..]);
      PassAnnounces(d, rounds[1..]);
      RoundAnnounces(db, rounds[0]);
      assert db.events + Notice(rounds[0]) + more == db.events + (Notice(rounds[0]) + more);
    }
  }

  /** In every run, the jobs of a lease concern different attempts and different keys, and their rows exist. */
  lemma LeasedRoundsAreSeparate(steps: seq<Step>, ids: seq<Id>, rounds: seq<Round>)
    requires forall i, j :: 0 <= i < j < |ids| ==> ids[i] != ids[j]
    requires forall a :: a in ids ==> a in Run(steps).db.attempts
    requires Jobs(rounds) == JobsOf(Run(steps).db.attempts, ids)
    ensures Separate(rounds)
    ensures forall n :: 0 <= n < |rounds| ==>
      rounds[n].job.attempt in Run(steps).db.attempts && KeyOf(rounds[n].job) in Run(steps).db.keys
  {
    RunOk(steps);
    var db := Run(steps).db;
    forall n | 0 <= n < |rounds|
      ensures rounds[n].job.attempt == ids[n] && ids[n] in db.attempts && KeyOf(rounds[n].job) in db.keys
      ensures db.keys[KeyOf(rounds[n].job)].attempt == Some(ids[n])
    {
      assert ids[n] in ids && rounds[n].job == Jobs(rounds)[n] == JobOf(ids[n], db.attempts[ids[n]]);
      assert AttemptOk(db.invoices, db.keys, ids[n], db.attempts[ids[n]]);
    }
  }

  // ---- A pass is a run of the protocol ----

  predicate Timely(rounds: seq<Round>, now: Time) {
    rounds != [] ==> now <= rounds[0].at && Timely(rounds[1..], rounds[0].at)
  }

  /** A readable reply is one that the PSP has given for that key. */
  predicate Heard(rounds: seq<Round>, replies: set<PspReply>) {
    forall n :: 0 <= n < |rounds| && rounds[n].reply.Http? && rounds[n].reply.body.Some? ==>
      PspReply(rounds[n].job.key, rounds[n].reply.body.value) in replies
  }

  function EndStep(w: WorkerId, r: Round): Step { if r.commits then RunFinalize(w) else FailFinalize(w) }

  function PassSteps(w: WorkerId, rounds: seq<Round>, now: Time): seq<Step>
    requires Timely(rounds, now)
  {
    if rounds == [] then []
    else [Advance(rounds[0].at - now)] + [Receive(w, rounds[0].reply)] + [EndStep(w, rounds[0])]
         + PassSteps(w, rounds[1..], rounds[0].at)
  }

  lemma ExecThree(s: Sys, x: Step, y: Step, z: Step, more: seq<Step>)
    ensures Exec(s, [x] + [y] + [z] + more) == Exec(Apply(Apply(Apply(s, x), y), z), more)
  {
    ExecConcat(s, [x] + [y] + [z], more);
    ExecConcat(s, [x] + [y], [z]);
    ExecConcat(s, [x], [y]);
    assert [x][..0] == [] && [y][..0] == [] && [z][..0] == [];
    assert Exec(s, [x]) == Apply(s, x) && Exec(Apply(s, x), [y]) == Apply(Apply(s, x), y);
    assert Exec(Apply(Apply(s, x), y), [z]) == Apply(Apply(Apply(s, x), y), z);
  }

  lemma OneRound(s: Sys, w: WorkerId, r: Round, rest: seq<Job>)
    requires w in s.workers && s.workers[w] == Calling(r.job, rest, false) && s.now <= r.at
    requires r.reply.Http? && r.reply.body.Some? ==> PspReply(r.job.key, r.reply.body.value) in s.replies
    ensures var t := Apply(Apply(Apply(s, Advance(r.at - s.now)), Receive(w, r.reply)), EndStep(w, r));
      && t.db == DoRound(s.db, r) && t.now == r.at && t.replies == s.replies
      && (rest != [] ==> w in t.workers && t.workers[w] == Calling(rest[0], rest[1..], false))
  {
    var t := Apply(s, Advance(r.at - s.now));
    assert t == s.(now := r.at);
    var u := Apply(t, Receive(w, r.reply));
    assert u == Becomes(t, w, Settling(r.job, Classify(r.reply), rest, false));
  }

  /** A batch worker that nobody disturbs takes the tables exactly where the pass does. */
  lemma {:induction false} PassIsARun(s: Sys, w: WorkerId, rounds: seq<Round>)
    requires rounds != [] && Timely(rounds, s.now) && Heard(rounds, s.replies)
    requires w in s.workers && s.workers[w] == Calling(rounds[0].job, Jobs(rounds[1..]), false)
    ensures Exec(s, PassSteps(w, rounds, s.now)).db == Pass(s.db, rounds)
    decreases |rounds|
  {
    var r, rest := rounds[0], rounds[1..];
    var x, y, z := Advance(r.at - s.now), Receive(w, r.reply), EndStep(w, r);
    var t, tail := Apply(Apply(Apply(s, x), y), z), PassSteps(w, rest, r.at);
    OneRound(s, w, r, Jobs(rest));
    assert PassSteps(w, rounds, s.now) == [x] + [y] + [z] + tail;
    ExecThree(s, x, y, z, tail);
    if rest == [] {
      assert tail == [] && Exec(t, tail) == t;
    } else {
      HeardRest(rounds, s.replies);
      assert Jobs(rest)[1..] == Jobs(rest[1..]);
      PassIsARun(t, w, rest);
    }
  }

  lemma HeardRest(rounds: seq<Round>, replies: set<PspReply>)
    requires rounds != [] && Heard(rounds, replies)
    ensures Heard(rounds[1..], replies)
  {
    assert forall n :: 0 <= n < |rounds[1..]| ==> rounds[1..][n] == rounds[n + 1];
  }
}
