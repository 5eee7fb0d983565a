/**
 The mock PSP as written. A charge looks its key up, sleeps, and only then records its outcome;
 the lookup and the record are separate critical sections, so two calls on one key can both miss.
 What survives that, and exactly when the recorded outcome is the single one the payment protocol
 counts on.
 */
module MockPsp {
  import opened Common

  datatype Outcome = Succeeded(pspRef: string) | Failed(code: string)

  datatype Reply = Ok(outcome: Outcome) | ServerError | UnknownToken

  datatype ChargeRequest = ChargeRequest(token: string, key: Option<string>)

  /** What a card token stands for. */
  datatype Behaviour = Charges | Declines(code: string) | Refuses(reply: Reply)

  function BehaviourOf(token: string): Behaviour {
    if token == "tok_success" || token == "tok_timeout" then Charges
    else if token == "tok_insufficient_funds" then Declines("insufficient_funds")
    else if token == "tok_card_declined" then Declines("card_declined")
    else if token == "tok_network_error" then Refuses(ServerError)
    else Refuses(UnknownToken)
  }

  /** The outcome of a call that slept; `ref` is the reference drawn for it. */
  function OutcomeOf(token: string, ref: string): Outcome {
    match BehaviourOf(token)
    case Declines(code) => Failed(code)
    case _ => Succeeded(ref)
  }

  /** The shared map and its two critical sections. */
  class Seen {
    var seen: map<string, Outcome>

    constructor ()
      ensures seen == map[]
    {
      seen := map[];
    }

    /** Up to the sleep: `Some` is an immediate reply, `None` means the call goes to sleep. */
    method Begin(req: ChargeRequest) returns (r: Option<Reply>)
      ensures r == Greet(seen, req)
    {
      if req.key.Some? && req.key.value in seen {
        return Some(Ok(seen[req.key.value]));
      }
      var b := BehaviourOf(req.token);
      if b.Refuses? {
        return Some(b.reply);
      }
      return None;
    }

    /** After the sleep: record, whatever may have been recorded meanwhile, and reply. */
    method Finish(req: ChargeRequest, ref: string) returns (r: Reply)
      modifies this
      ensures seen == Recorded(old(seen), req, OutcomeOf(req.token, ref))
      ensures r == Ok(OutcomeOf(req.token, ref))
    {
      var outcome := OutcomeOf(req.token, ref);
      if req.key.Some? {
        seen := seen[req.key.value := outcome];
      }
      return Ok(outcome);
    }
  }

  function Greet(seen: map<string, Outcome>, req: ChargeRequest): Option<Reply> {
    if req.key.Some? && req.key.value in seen then Some(Ok(seen[req.key.value]))
    else match BehaviourOf(req.token)
         case Refuses(reply) => Some(reply)
         case _ => None
  }

  function Recorded(seen: map<string, Outcome>, req: ChargeRequest, o: Outcome): map<string, Outcome> {
    if req.key.Some? then seen[req.key.value := o] else seen
  }

  // ---- Concurrent calls ----

  datatype Delivered = Delivered(request: ChargeRequest, reply: Reply)

  datatype Psp = Psp(seen: map<string, Outcome>, asleep: map<nat, ChargeRequest>, sent: seq<Delivered>)

  datatype Step = Arrive(call: nat, request: ChargeRequest) | Wake(call: nat, ref: string)

  function Apply(s: Psp, step: Step): Psp {
    match step
    case Arrive(c, req) =>
      if c in s.asleep then s
      else
        var r := Greet(s.seen, req);
        if r.Some? then s.(sent := s.sent + [Delivered(req, r.value)])
        else s.(asleep := s.asleep[c := req])
    case Wake(c, ref) =>
      if c !in s.asleep then s
      else
        var req := s.asleep[c];
        var o := OutcomeOf(req.token, ref);
        Psp(Recorded(s.seen, req, o), s.asleep - {c}, s.sent + [Delivered(req, Ok(o))])
  }

  function Exec(s: Psp, steps: seq<Step>): Psp {
    if steps == [] then s else Apply(Exec(s, steps[..|steps| - 1]), steps[|steps| - 1])
  }

  function Run(steps: seq<Step>): Psp { Exec(Psp(map[], map[], []), steps) }

  predicate IsFor(req: ChargeRequest, key: string) { req.key == Some(key) }

  // ---- Overlapping calls: the class of the outcome ----

  /** The outcome a token can lead to, up to the reference drawn. */
  predicate InClass(token: string, o: Outcome) {
    match BehaviourOf(token)
    case Charges => o.Succeeded?
    case Declines(code) => o == Failed(code)
    case Refuses(_) => false
  }

  predicate OneToken(steps: seq<Step>, key: string, token: string) {
    forall n :: 0 <= n < |steps| && steps[n].Arrive? && IsFor(steps[n].request, key) ==> steps[n].request.token == token
  }

  predicate ClassHolds(s: Psp, key: string, token: string) {
    && (key in s.seen ==> InClass(token, s.seen[key]))
    && (forall c :: c in s.asleep && IsFor(s.asleep[c], key) ==>
          s.asleep[c].token == token && !BehaviourOf(token).Refuses?)
    && (forall n :: 0 <= n < |s.sent| && IsFor(s.sent[n].request, key) && s.sent[n].reply.Ok? ==>
          InClass(token, s.sent[n].reply.outcome))
  }

  /**
   However calls overlap, if a key is always used with one card token then every outcome ever
   recorded or returned for it is of that token's class.
   */
  lemma {:induction false} OutcomeClassIsStable(steps: seq<Step>, key: string, token: string)
    requires OneToken(steps, key, token)
    ensures ClassHolds(Run(steps), key, token)
  {
    if steps != [] {
      var front := steps[..|steps| - 1];
      assert OneToken(front, key, token);
      OutcomeClassIsStable(front, key, token);
      ClassStep(Run(front), steps[|steps| - 1], key, token);
    }
  }

  lemma ClassStep(s: Psp, step: Step, key: string, token: string)
    requires ClassHolds(s, key, token)
    requires step.Arrive? && IsFor(step.request, key) ==> step.request.token == token
    ensures ClassHolds(Apply(s, step), key, token)
  {
  }

  // ---- What a card token is answered with ----

  predicate Befits(token: string, r: Reply) {
    if token in {"tok_success", "tok_timeout"} then r.Ok? && r.outcome.Succeeded?
    else if token == "tok_insufficient_funds" then r == Ok(Failed("insufficient_funds"))
    else if token == "tok_card_declined" then r == Ok(Failed("card_declined"))
    else if token == "tok_network_error" then r == ServerError
    else r == UnknownToken
  }

  /** Whatever is asleep is going to be charged or declined by its own token. */
  predicate SleepersSleep(s: Psp) { forall c :: c in s.asleep ==> !BehaviourOf(s.asleep[c].token).Refuses? }

  predicate AllBefit(s: Psp, key: Option<string>, token: string) {
    forall n :: 0 <= n < |s.sent| && s.sent[n].request == ChargeRequest(token, key) ==> Befits(token, s.sent[n].reply)
  }

  lemma BefitsStep(s: Psp, step: Step, key: Option<string>, token: string)
    requires SleepersSleep(s) && AllBefit(s, key, token)
    requires key.Some? && key.value in s.seen ==> InClass(token, s.seen[key.value])
    ensures SleepersSleep(Apply(s, step)) && AllBefit(Apply(s, step), key, token)
  {
  }

  /**
   However calls overlap: a call without a key is answered as its token says, and so is every call on
   a key that is always used with one token.
   */
  lemma {:induction false} TokensGetTheirAnswers(steps: seq<Step>, key: Option<string>, token: string)
    requires key.Some? ==> OneToken(steps, key.value, token)
    ensures SleepersSleep(Run(steps)) && AllBefit(Run(steps), key, token)
  {
    if steps != [] {
      var front := steps[..|steps| - 1];
      TokensGetTheirAnswers(front, key, token);
      if key.Some? {
        assert OneToken(front, key.value, token);
        OutcomeClassIsStable(front, key.value, token);
      }
      BefitsStep(Run(front), steps[|steps| - 1], key, token);
    }
  }

  /** A call that comes in is answered from the record, or refused at once by its token, or goes to sleep. */
  lemma ArrivalDecides(s: Psp, c: nat, req: ChargeRequest)
    requires c !in s.asleep
    ensures var t := Apply(s, Arrive(c, req));
      if req.key.Some? && req.key.value in s.seen
      then t == s.(sent := s.sent + [Delivered(req, Ok(s.seen[req.key.value]))])
      else if req.token in {"tok_success", "tok_timeout", "tok_insufficient_funds", "tok_card_declined"}
      then t == s.(asleep := s.asleep[c := req])
      else t == s.(sent := s.sent + [Delivered(req, if req.token == "tok_network_error" then ServerError
                                                    else UnknownToken)])
  {
  }

  // ---- Calls that do not overlap: the single outcome ----

  predicate Busy(s: Psp, key: string) { exists c :: c in s.asleep && IsFor(s.asleep[c], key) }

  /** `step` is a call on `key` that comes in, under a number no sleeping call has. */
  predicate CallsOn(s: Psp, step: Step, key: string) {
    step.Arrive? && IsFor(step.request, key) && step.call !in s.asleep
  }

  /** No call on `key` comes in while another is asleep. */
  predicate Serial(steps: seq<Step>, key: string) {
    forall n :: 0 <= n < |steps| && CallsOn(Run(steps[..n]), steps[n], key) ==> !Busy(Run(steps[..n]), key)
  }

  predicate SingleHolds(s: Psp, key: string) {
    && (forall c, d :: c in s.asleep && d in s.asleep && IsFor(s.asleep[c], key) && IsFor(s.asleep[d], key) ==> c == d)
    && (Busy(s, key) ==> key !in s.seen)
    && (forall n :: 0 <= n < |s.sent| && IsFor(s.sent[n].request, key) && s.sent[n].reply.Ok? ==>
          key in s.seen && s.sent[n].reply.outcome == s.seen[key])
  }

  lemma SingleStep(s: Psp, step: Step, key: string)
    requires SingleHolds(s, key) && (CallsOn(s, step, key) ==> !Busy(s, key))
    ensures SingleHolds(Apply(s, step), key)
    ensures key in s.seen ==> key in Apply(s, step).seen && Apply(s, step).seen[key] == s.seen[key]
  {
    var t := Apply(s, step);
    if step.Wake? && step.call in s.asleep && IsFor(s.asleep[step.call], key) {
      assert Busy(s, key);
      forall c | c in t.asleep ensures !IsFor(t.asleep[c], key) {
        assert c in s.asleep && s.asleep[c] == t.asleep[c] && c != step.call;
      }
    }
    forall c | c in t.asleep && c in s.asleep ensures t.asleep[c] == s.asleep[c] {
    }
    if Busy(t, key) {
      var c :| c in t.asleep && IsFor(t.asleep[c], key);
      assert c in s.asleep || (step.Arrive? && step.call == c);
    }
  }

  lemma SerialPrefix(p: seq<Step>, q: seq<Step>, key: string)
    requires Serial(p + q, key)
    ensures Serial(p, key)
  {
    forall n | 0 <= n < |p| && CallsOn(Run(p[..n]), p[n], key) ensures !Busy(Run(p[..n]), key) {
      assert (p + q)[..n] == p[..n] && (p + q)[n] == p[n];
    }
  }

  lemma {:induction false} SerialCallsAgree(steps: seq<Step>, key: string)
    requires Serial(steps, key)
    ensures SingleHolds(Run(steps), key)
  {
    if steps != [] {
      var front, last := steps[..|steps| - 1], steps[|steps| - 1];
      assert steps == front + [last];
      SerialPrefix(front, [last], key);
      SerialCallsAgree(front, key);
      SingleStep(Run(front), last, key);
    }
  }

  /** If calls on a key never overlap, its record is write-once: the contract of the payment protocol. */
  lemma {:induction false} SerialRecordIsWriteOnce(p: seq<Step>, q: seq<Step>, key: string)
    requires Serial(p + q, key) && key in Run(p).seen
    ensures key in Run(p + q).seen && Run(p + q).seen[key] == Run(p).seen[key]
  {
    if q == [] {
      assert p + q == p;
    } else {
      var front, last := q[..|q| - 1], q[|q| - 1];
      assert (p + q)[..|p + q| - 1] == p + front;
      assert p + q == (p + front) + [last];
      SerialPrefix(p + front, [last], key);
      SerialRecordIsWriteOnce(p, front, key);
      SerialCallsAgree(p + front, key);
      assert (p + q)[|p + q| - 1] == last;
      SingleStep(Run(p + front), last, key);
    }
  }

  /** Any two charging calls that are asleep together under one key both charge, and the later record wins. */
  lemma OverlapChargesTwice(s: Psp, c: nat, d: nat, key: string, ref: string, ref': string)
    requires c in s.asleep && d in s.asleep && c != d && ref != ref'
    requires IsFor(s.asleep[c], key) && IsFor(s.asleep[d], key)
    requires BehaviourOf(s.asleep[c].token).Charges? && BehaviourOf(s.asleep[d].token).Charges?
    ensures var t := Exec(s, [Wake(c, ref), Wake(d, ref')]);
      && t.sent == s.sent + [Delivered(s.asleep[c], Ok(Succeeded(ref))), Delivered(s.asleep[d], Ok(Succeeded(ref')))]
      && key in t.seen && t.seen[key] == Succeeded(ref')
  {
    assert [Wake(c, ref), Wake(d, ref')][..1] == [Wake(c, ref)];
    assert [Wake(c, ref)][..0] == [];
    var m := Apply(s, Wake(c, ref));
    assert Exec(s, [Wake(c, ref)]) == m;
    assert d in m.asleep && m.asleep[d] == s.asleep[d];
  }

  /** Such an overlap is reached: a caller that gives up early and a re-query that comes before the first call wakes. */
  lemma OverlapOccurs() returns (steps: seq<Step>)
    ensures var s := Run(steps);
      && 0 in s.asleep && 1 in s.asleep && IsFor(s.asleep[0], "k") && IsFor(s.asleep[1], "k")
      && BehaviourOf(s.asleep[0].token).Charges? && BehaviourOf(s.asleep[1].token).Charges?
    ensures !Serial(steps, "k")
  {
    var req := ChargeRequest("tok_timeout", Some("k"));
    var p := [Arrive(0, req)];
    steps := [Arrive(0, req), Arrive(1, req)];
    assert p[..0] == [] && steps[..1] == p;
    var m := Apply(Run([]), Arrive(0, req));
    assert Run(p) == m;
    assert BehaviourOf("tok_timeout") == Charges;
    assert m.asleep == map[0 := req] && m.seen == map[];
    assert Run(steps) == Apply(m, Arrive(1, req));
    assert 0 in Run(steps[..1]).asleep && IsFor(Run(steps[..1]).asleep[0], "k");
    assert CallsOn(Run(steps[..1]), steps[1], "k");
  }

  // ---- Exactly when the mock keeps its contract ----

  predicate Together(s: Psp, key: string) {
    exists c, d :: c in s.asleep && d in s.asleep && c != d && IsFor(s.asleep[c], key) && IsFor(s.asleep[d], key)
  }

  /** The first call that comes in too early finds no record, and joins the one that is asleep. */
  lemma JoinsTheSleeper(s: Psp, step: Step, key: string)
    requires SingleHolds(s, key) && Busy(s, key) && CallsOn(s, step, key) && !BehaviourOf(step.request.token).Refuses?
    ensures Together(Apply(s, step), key)
  {
    var c :| c in s.asleep && IsFor(s.asleep[c], key);
    var t := Apply(s, step);
    assert c in t.asleep && step.call in t.asleep && IsFor(t.asleep[c], key) && IsFor(t.asleep[step.call], key);
  }

  lemma LateCall(front: seq<Step>, last: Step, key: string)
    requires Serial(front, key) && !Serial(front + [last], key)
    ensures CallsOn(Run(front), last, key) && Busy(Run(front), key)
  {
    var s := front + [last];
    var n :| 0 <= n < |s| && CallsOn(Run(s[..n]), s[n], key) && Busy(Run(s[..n]), key);
    assert s[..n] == front[..n];
    assert front[..|front|] == front;
  }

  lemma LateCallOverlaps(front: seq<Step>, last: Step, key: string, token: string)
    requires Serial(front, key) && !Serial(front + [last], key)
    requires OneToken(front + [last], key, token) && !BehaviourOf(token).Refuses?
    ensures Together(Run(front + [last]), key)
  {
    LateCall(front, last, key);
    assert (front + [last])[|front|] == last && (front + [last])[..|front|] == front;
    SerialCallsAgree(front, key);
    JoinsTheSleeper(Run(front), last, key);
  }

  /** Going on from a serial `p`, the first call that comes too early makes an overlap. */
  lemma {:induction false} FirstOverlap(p: seq<Step>, q: seq<Step>, key: string, token: string) returns (n: nat)
    requires Serial(p, key) && !Serial(p + q, key)
    requires OneToken(p + q, key, token) && !BehaviourOf(token).Refuses?
    ensures n <= |p + q| && Together(Run((p + q)[..n]), key)
    decreases |q|
  {
    assert q == [] ==> p + q == p;
    var more := p + [q[0]];
    assert more + q[1..] == p + q;
    if Serial(more, key) {
      n := FirstOverlap(more, q[1..], key, token);
    } else {
      n := |more|;
      assert (p + q)[..n] == more;
      LateCallOverlaps(p, q[0], key, token) by {
        assert OneToken(more, key, token) by {
          assert forall m :: 0 <= m < |more| ==> more[m] == (p + q)[m];
        }
      }
    }
  }

  lemma SerialIsNeverTogether(steps: seq<Step>, n: nat, key: string)
    requires Serial(steps, key) && n <= |steps|
    ensures !Together(Run(steps[..n]), key)
  {
    assert steps == steps[..n] + steps[n..];
    SerialPrefix(steps[..n], steps[n..], key);
    SerialCallsAgree(steps[..n], key);
  }

  predicate NeverTogether(steps: seq<Step>, key: string) {
    forall n :: 0 <= n <= |steps| ==> !Together(Run(steps[..n]), key)
  }

  /** Under one token that is not refused, calls are serial exactly if two of them are never asleep together. */
  lemma SerialIffNeverTogether(steps: seq<Step>, key: string, token: string)
    requires OneToken(steps, key, token) && !BehaviourOf(token).Refuses?
    ensures Serial(steps, key) <==> NeverTogether(steps, key)
  {
    if Serial(steps, key) {
      forall n | 0 <= n <= |steps| ensures !Together(Run(steps[..n]), key) {
        SerialIsNeverTogether(steps, n, key);
      }
    } else {
      OverlapHappens(steps, key, token);
    }
  }

  lemma OverlapHappens(steps: seq<Step>, key: string, token: string)
    requires OneToken(steps, key, token) && !BehaviourOf(token).Refuses? && !Serial(steps, key)
    ensures !NeverTogether(steps, key)
  {
    assert [] + steps == steps;
    var n := FirstOverlap([], steps, key, token);
  }

  predicate OnlyWakes(q: seq<Step>) { forall n :: 0 <= n < |q| ==> q[n].Wake? }

  /** Going on from `p` with `q`, a record that `p` left for the key is still there. */
  predicate Kept(p: seq<Step>, q: seq<Step>, key: string) {
    key in Run(p).seen ==> key in Run(p + q).seen && Run(p + q).seen[key] == Run(p).seen[key]
  }

  /** However the calls that are asleep at any point of the run wake up, a record once made is not replaced. */
  ghost predicate WriteOnce(steps: seq<Step>, key: string) {
    forall n, q, r :: 0 <= n <= |steps| && OnlyWakes(q) && OnlyWakes(r) ==> Kept(steps[..n] + q, r, key)
  }

  /** Two calls on the key are asleep together, and are not declines that say the same. */
  predicate Clash(s: Psp, key: string) {
    exists c, d :: c in s.asleep && d in s.asleep && c != d && IsFor(s.asleep[c], key) && IsFor(s.asleep[d], key)
                   && OutcomeOf(s.asleep[c].token, "a") != OutcomeOf(s.asleep[d].token, "b")
  }

  predicate NeverClash(steps: seq<Step>, key: string) {
    forall n :: 0 <= n <= |steps| ==> !Clash(Run(steps[..n]), key)
  }

  /** Nothing that is asleep can change the key's record. */
  predicate Calm(s: Psp, key: string) {
    && !Clash(s, key)
    && (key in s.seen ==> forall c :: c in s.asleep && IsFor(s.asleep[c], key) ==>
          OutcomeOf(s.asleep[c].token, "a") == OutcomeOf(s.asleep[c].token, "b") == s.seen[key])
  }

  lemma WakeStaysCalm(s: Psp, c: nat, ref: string, key: string)
    requires Calm(s, key)
    ensures var t := Apply(s, Wake(c, ref));
      Calm(t, key) && (key in s.seen ==> key in t.seen && t.seen[key] == s.seen[key])
  {
  }

  lemma ArrivalStaysCalm(s: Psp, step: Step, key: string)
    requires Calm(s, key) && step.Arrive? && !Clash(Apply(s, step), key)
    ensures Calm(Apply(s, step), key)
  {
  }

  lemma {:induction false} NeverClashIsCalm(steps: seq<Step>, key: string)
    requires NeverClash(steps, key)
    ensures Calm(Run(steps), key)
  {
    assert steps[..|steps|] == steps;
    if steps != [] {
      var front, last := steps[..|steps| - 1], steps[|steps| - 1];
      assert forall n :: 0 <= n <= |front| ==> front[..n] == steps[..n];
      NeverClashIsCalm(front, key);
      if last.Wake? {
        WakeStaysCalm(Run(front), last.call, last.ref, key);
      } else {
        ArrivalStaysCalm(Run(front), last, key);
      }
    }
  }

  lemma {:induction false} WakesStayCalm(s: Psp, q: seq<Step>, key: string)
    requires Calm(s, key) && OnlyWakes(q)
    ensures var t := Exec(s, q);
      Calm(t, key) && (key in s.seen ==> key in t.seen && t.seen[key] == s.seen[key])
  {
    if q != [] {
      var front, last := q[..|q| - 1], q[|q| - 1];
      WakesStayCalm(s, front, key);
      WakeStaysCalm(Exec(s, front), last.call, last.ref, key);
    }
  }

  lemma {:induction false} ExecConcat(s: Psp, p: seq<Step>, q: seq<Step>)
    ensures Exec(s, p + q) == Exec(Exec(s, p), q)
  {
    if q == [] {
      assert p + q == p;
    } else {
      assert (p + q)[..|p + q| - 1] == p + q[..|q| - 1];
      ExecConcat(s, p, q[..|q| - 1]);
    }
  }

  lemma NeverClashKeeps(steps: seq<Step>, key: string, n: nat, q: seq<Step>, r: seq<Step>)
    requires NeverClash(steps, key) && n <= |steps| && OnlyWakes(q) && OnlyWakes(r)
    ensures Kept(steps[..n] + q, r, key)
  {
    var p := steps[..n];
    assert NeverClash(p, key) by {
      assert forall m :: 0 <= m <= n ==> p[..m] == steps[..m];
    }
    NeverClashIsCalm(p, key);
    ExecConcat(Run([]), p, q);
    ExecConcat(Run([]), p + q, r);
    WakesStayCalm(Run(p), q, key);
    WakesStayCalm(Run(p + q), r, key);
  }

  lemma ClashRewrites(s: Psp, c: nat, d: nat, key: string)
    requires c in s.asleep && d in s.asleep && c != d && IsFor(s.asleep[c], key) && IsFor(s.asleep[d], key)
    requires OutcomeOf(s.asleep[c].token, "a") != OutcomeOf(s.asleep[d].token, "b")
    ensures var t := Exec(s, [Wake(c, "a")]);
      && var u := Exec(t, [Wake(d, "b")]);
      && key in t.seen && key in u.seen && u.seen[key] != t.seen[key]
  {
    assert [Wake(c, "a")][..0] == [] && [Wake(d, "b")][..0] == [];
    var t := Apply(s, Wake(c, "a"));
    assert Exec(s, [Wake(c, "a")]) == t && d in t.asleep && t.asleep[d] == s.asleep[d];
    assert Exec(t, [Wake(d, "b")]) == Apply(t, Wake(d, "b"));
  }

  lemma ClashIsNotWriteOnce(steps: seq<Step>, key: string, n: nat)
    requires n <= |steps| && Clash(Run(steps[..n]), key)
    ensures !WriteOnce(steps, key)
  {
    var p := steps[..n];
    var s := Run(p);
    var c, d :| c in s.asleep && d in s.asleep && c != d && IsFor(s.asleep[c], key) && IsFor(s.asleep[d], key)
                && OutcomeOf(s.asleep[c].token, "a") != OutcomeOf(s.asleep[d].token, "b");
    var q, r := [Wake(c, "a")], [Wake(d, "b")];
    assert OnlyWakes(q) && OnlyWakes(r);
    assert !Kept(p + q, r, key) by {
      ExecConcat(Run([]), p, q);
      ExecConcat(Run([]), p + q, r);
      ClashRewrites(s, c, d, key);
    }
  }

  /**
   The contract that the payment protocol relies on, and exactly when the mock keeps it: a key's
   record is written once, however the calls wake, if and only if two calls on it are never asleep
   together unless both are declines that say the same.
   */
  lemma WriteOnceIffNeverClash(steps: seq<Step>, key: string)
    ensures WriteOnce(steps, key) <==> NeverClash(steps, key)
  {
    if NeverClash(steps, key) {
      forall n, q, r | 0 <= n <= |steps| && OnlyWakes(q) && OnlyWakes(r) ensures Kept(steps[..n] + q, r, key) {
        NeverClashKeeps(steps, key, n, q, r);
      }
    } else {
      var n :| 0 <= n <= |steps| && Clash(Run(steps[..n]), key);
      ClashIsNotWriteOnce(steps, key, n);
    }
  }

  lemma ClashOfOneToken(steps: seq<Step>, key: string, token: string, n: nat)
    requires OneToken(steps, key, token) && n <= |steps|
    ensures Clash(Run(steps[..n]), key) <==> Together(Run(steps[..n]), key) && BehaviourOf(token).Charges?
  {
    assert OneToken(steps[..n], key, token);
    OutcomeClassIsStable(steps[..n], key, token);
  }

  /**
   For a key that is always used with one token, what is asked of the callers: its record is written
   once if and only if no call on it comes in while another is asleep, or the token does not charge.
   */
  lemma ContractIffSerialOrNoCharge(steps: seq<Step>, key: string, token: string)
    requires OneToken(steps, key, token)
    ensures WriteOnce(steps, key) <==> Serial(steps, key) || !BehaviourOf(token).Charges?
  {
    WriteOnceIffNeverClash(steps, key);
    forall n | 0 <= n <= |steps|
      ensures Clash(Run(steps[..n]), key) <==> Together(Run(steps[..n]), key) && BehaviourOf(token).Charges?
    {
      ClashOfOneToken(steps, key, token, n);
    }
    if BehaviourOf(token).Charges? {
      SerialIffNeverTogether(steps, key, token);
    }
  }
}
