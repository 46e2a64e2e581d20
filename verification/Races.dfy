/** Concrete runs showing what goes wrong without the assumptions: a job lost by an ack after a
    failed write, and a message claimed under a live handler, with what that does to the record. */
module Races {
  import opened Wrappers
  import opened Jobs
  import opened Redis
  import opened Pipeline
  import opened Runs
  import opened Accounting
  import opened Loss
  import opened Timing

  const W := Worker(0)

  // One URL job, 0, carried by entry 1, which worker 0 has read.
  ghost predicate Scene(s: State, now: Time, rec: Record, hs: map<Consumer, Handler>) {
    && s.now == now && !s.stopping
    && s.handlers == hs
    && s.db.entries == map[1 := 0]
    && 1 in s.db.pending && s.db.pending.Keys == {1} && s.db.last == 1
    && 0 in s.db.jobs && s.db.jobs[0].rec == rec && 0 !in s.db.expired
    && s.gate.None? && s.waiting == [] && s.batch == []
    && s.past.sent == map[0 := 1]
  }

  function Worked(source: Option<Source>, pc: Pc, start: Time, since: Time): Handler {
    Handler(1, 0, source, pc, None, start, since, false)
  }

  ghost predicate Usable(cfg: Config) {
    cfg.concurrency >= 1 && cfg.queueSize >= 1 && cfg.claimCount >= 1 && cfg.jobTTL > 0 && cfg.claimMinIdle >= 0
  }

  const ASKED := QueuedRecord(Url, "", "", 0)

  lemma Enqueued(cfg: Config) returns (acts: seq<Action>, s: State)
    requires Usable(cfg)
    ensures Run(cfg, Timed, START, acts, s)
    ensures s.now == 0 && !s.stopping && s.handlers == map[] && s.db.entries == map[1 := 0]
    ensures s.db.pending == map[] && s.db.last == 0 && s.db.jobs == map[0 := Hash(ASKED, cfg.jobTTL)] && s.db.expired == {}
    ensures s.gate.None? && s.waiting == [] && s.batch == [] && s.past.sent == map[0 := 1]
  {
    var a, b, c := Http(0, StartUrl("", "")), Http(0, CheckLen(Done)), Http(0, Enqueue(Done));
    var s1 := HttpStep(cfg, START, 0, StartUrl("", "")).value;
    var s2 := HttpStep(cfg, s1, 0, CheckLen(Done)).value;
    assert s2.requests[0] == Request(Url, "", "", Adding, None);
    s := EnqueueStep(cfg, s2, 0, Done);
    assert Over(BLANK, ASKED) == ASKED;
    One(cfg, Timed, START, a, s1);
    Extend(cfg, Timed, START, [a], s1, b, s2);
    Extend(cfg, Timed, START, [a] + [b], s2, c, s);
    acts := [a] + [b] + [c];
  }

  lemma Delivered(cfg: Config) returns (acts: seq<Action>, s: State)
    requires Usable(cfg)
    ensures Run(cfg, Timed, START, acts, s)
    ensures Scene(s, 0, ASKED, map[W := Worked(None, Getting, 0, 0)])
    ensures s.db.pending[1].at == 0 && s.db.jobs == map[0 := Hash(s.db.jobs[0].rec, cfg.jobTTL)]
  {
    var first, t := Enqueued(cfg);
    assert IsNext(t.db, 1);
    s := ReadStep(cfg, t, 0, 1, Done).value;
    Extend(cfg, Timed, START, first, t, Read(0, 1, Done), s);
    acts := first + [Read(0, 1, Done)];
  }

  // The worker finds the job queued and marks it.
  lemma MarkedByWorker(cfg: Config) returns (acts: seq<Action>, s: State)
    requires Usable(cfg)
    ensures Run(cfg, Timed, START, acts, s)
    ensures Scene(s, 0, Over(ASKED, PROCESSING_PATCH), map[W := Worked(Some(Url), Fetching, 0, 0)])
    ensures s.db.pending[1].at == 0 && s.db.jobs == map[0 := Hash(s.db.jobs[0].rec, cfg.jobTTL)]
  {
    var first, s0 := Delivered(cfg);
    var s1 := GetStep(s0, W, Done);
    assert s1.handlers == map[W := Worked(Some(Url), Marking, 0, 0)];
    s := WriteStep(cfg, s1, W, PROCESSING_PATCH, Fetching, Done);
    assert s.handlers == map[W := Worked(Some(Url), Fetching, 0, 0)];
    Extend(cfg, Timed, START, first, s0, By(W, Get(Done)), s1);
    Extend(cfg, Timed, START, first + [By(W, Get(Done))], s1, By(W, Mark(Done)), s);
    acts := first + [By(W, Get(Done))] + [By(W, Mark(Done))];
  }

  // From the download to the point where the result is about to be stored.
  lemma FetchedByWorker(cfg: Config, s0: State, now: Time, rec: Record, others: map<Consumer, Handler>, start: Time, since: Time)
    returns (s: State)
    requires W !in others && Scene(s0, now, rec, others[W := Worked(Some(Url), Fetching, start, since)])
    ensures Next(cfg, s0, By(W, Fetch(true))) == Some(s) && s.db == s0.db && s.waiting == [W] && s.gate.None?
    ensures s.(waiting := []).handlers == others[W := Worked(Some(Url), Waiting(0), start, now)]
    ensures Scene(s.(waiting := []), now, rec, others[W := Worked(Some(Url), Waiting(0), start, now)])
  {
    s := FetchStep(s0, W, true);
    assert s.handlers == others[W := Worked(Some(Url), Waiting(0), start, now)];
  }

  lemma CalledByWorker(cfg: Config, s0: State, now: Time, rec: Record, others: map<Consumer, Handler>, start: Time)
    returns (s: State)
    requires W !in others && s0.waiting == [W]
    requires Scene(s0.(waiting := []), now, rec, others[W := Worked(Some(Url), Waiting(0), start, now)])
    ensures Next(cfg, s0, By(W, Acquire)) == Some(s) && s.db == s0.db && s.gate == Some(W) && s.waiting == []
    ensures Scene(s.(gate := None), now, rec, others[W := Worked(Some(Url), Calling(0), start, now)])
  {
    s := WorkStep(cfg, s0, W, Acquire).value;
    assert Without([W], W) == [];
    assert s.handlers == others[W := Worked(Some(Url), Calling(0), start, now)];
  }

  lemma AnsweredToWorker(cfg: Config, s0: State, now: Time, rec: Record, others: map<Consumer, Handler>, start: Time, body: string)
    returns (s1: State, s: State)
    requires W !in others && s0.gate == Some(W)
    requires Scene(s0.(gate := None), now, rec, others[W := Worked(Some(Url), Calling(0), start, now)])
    ensures Next(cfg, s0, By(W, Upstream(Body(body)))) == Some(s1) && Next(cfg, s1, By(W, ZeroData)) == Some(s) && s.db == s0.db
    ensures Scene(s, now, rec, others[W := Worked(Some(Url), Completing(body), start, now)])
  {
    s1 := WorkStep(cfg, s0, W, Upstream(Body(body))).value;
    assert s1.handlers == others[W := Worked(Some(Url), Zeroing(Success(body)), start, now)];
    s := Emptied(s1, W, Completing(body));
    assert s.handlers == others[W := Worked(Some(Url), Completing(body), start, now)];
  }

  lemma Transcribed(cfg: Config, p: Policy, acts0: seq<Action>, s0: State, now: Time, rec: Record, others: map<Consumer, Handler>, start: Time, since: Time, body: string)
    returns (acts: seq<Action>, s: State)
    requires Run(cfg, p, START, acts0, s0) && (p == Any || p == Timed) && W !in others
    requires Scene(s0, now, rec, others[W := Worked(Some(Url), Fetching, start, since)])
    ensures Run(cfg, p, START, acts, s) && s.db == s0.db
    ensures Scene(s, now, rec, others[W := Worked(Some(Url), Completing(body), start, now)])
  {
    var s1 := FetchedByWorker(cfg, s0, now, rec, others, start, since);
    var s2 := CalledByWorker(cfg, s1, now, rec, others, start);
    var s3;
    s3, s := AnsweredToWorker(cfg, s2, now, rec, others, start, body);
    Extend(cfg, p, START, acts0, s0, By(W, Fetch(true)), s1);
    acts := acts0 + [By(W, Fetch(true))];
    Extend(cfg, p, START, acts, s1, By(W, Acquire), s2);
    acts := acts + [By(W, Acquire)];
    Extend(cfg, p, START, acts, s2, By(W, Upstream(Body(body))), s3);
    acts := acts + [By(W, Upstream(Body(body)))];
    Extend(cfg, p, START, acts, s3, By(W, ZeroData), s);
    acts := acts + [By(W, ZeroData)];
  }

  // The write of the result does not get through, the ack does.
  lemma AcksBlind(cfg: Config, s: State) returns (m: State, t: State)
    requires Scene(s, 0, Over(ASKED, PROCESSING_PATCH), map[W := Worked(Some(Url), Completing("text"), 0, 0)])
    ensures Next(cfg, s, By(W, Complete(Refused))) == Some(m) && Next(cfg, m, By(W, Ack(Done))) == Some(t)
    ensures Lost(t, 0) && 0 in t.db.jobs && t.db.jobs[0].rec.status == Some(Processing)
  {
    m := WriteStep(cfg, s, W, CompletedPatch("text", 0), Acking, Refused);
    t := AckStep(m, W, Done);
  }

  /** Without fail-stop the no-loss law is false: the write of the result is refused, the handler
      acks anyway, and the job is neither in the stream nor ended. */
  lemma AJobCanBeLost(cfg: Config) returns (acts: seq<Action>, s: State)
    requires Usable(cfg)
    ensures Run(cfg, Any, START, acts, s) && Lost(s, 0)
    ensures 0 in s.db.jobs && s.db.jobs[0].rec.status == Some(Processing)
  {
    var first, s0 := MarkedByWorker(cfg);
    RunIsAny(cfg, Timed, START, first, s0);
    var second, s1 := Transcribed(cfg, Any, first, s0, 0, Over(ASKED, PROCESSING_PATCH), map[], 0, 0, "text");
    var s2;
    s2, s := AcksBlind(cfg, s1);
    Extend(cfg, Any, START, second, s1, By(W, Complete(Refused)), s2);
    Extend(cfg, Any, START, second + [By(W, Complete(Refused))], s2, By(W, Ack(Done)), s);
    acts := second + [By(W, Complete(Refused))] + [By(W, Ack(Done))];
  }

  // While the worker still downloads, its message has been idle long enough.
  lemma Overdue(cfg: Config) returns (acts: seq<Action>, s: State)
    requires Usable(cfg) && cfg.claimMinIdle <= cfg.downloadTimeout
    ensures Run(cfg, Timed, START, acts, s)
    ensures s.now == cfg.claimMinIdle && !s.stopping && s.batch == []
    ensures s.handlers == map[W := Worked(Some(Url), Fetching, 0, 0)]
    ensures s.db.entries == map[1 := 0] && s.db.pending.Keys == {1} && s.db.last == 1 && s.db.pending[1].at == 0
    ensures cfg.claimMinIdle < cfg.jobTTL ==>
      s.db.jobs == map[0 := Hash(Over(ASKED, PROCESSING_PATCH), cfg.jobTTL)] && 0 !in s.db.expired
    ensures s.gate.None? && s.waiting == [] && s.past.sent == map[0 := 1]
  {
    var first, s0 := MarkedByWorker(cfg);
    s := Next(cfg, s0, Tick(cfg.claimMinIdle)).value;
    Extend(cfg, Timed, START, first, s0, Tick(cfg.claimMinIdle), s);
    acts := first + [Tick(cfg.claimMinIdle)];
  }

  // The claimer is handed the same message.
  lemma Stolen(cfg: Config) returns (acts: seq<Action>, s: State, claim: Action, t: State)
    requires Usable(cfg) && cfg.claimMinIdle <= cfg.downloadTimeout
    ensures Run(cfg, Timed, START, acts, s) && Next(cfg, s, claim) == Some(t) && Allows(cfg, Timed, s, claim)
    ensures !ClaimsIdleOnly(s, claim)
    ensures t.now == cfg.claimMinIdle && !t.stopping && t.batch == [Message(1, 0)]
    ensures t.handlers == map[W := Worked(Some(Url), Fetching, 0, 0)]
    ensures t.db.entries == map[1 := 0] && t.db.pending.Keys == {1} && t.db.last == 1
    ensures cfg.claimMinIdle < cfg.jobTTL ==>
      t.db.jobs == map[0 := Hash(Over(ASKED, PROCESSING_PATCH), cfg.jobTTL)] && 0 !in t.db.expired
    ensures t.gate.None? && t.waiting == [] && t.past.sent == map[0 := 1]
  {
    acts, s := Overdue(cfg);
    assert Claimable(s.db, [1], s.now, cfg.claimMinIdle, cfg.claimCount);
    claim := Claim([1], Done);
    t := ClaimStep(cfg, s, [1], Done).value;
    assert s.handlers[W].mid in claim.mids;
    assert t.batch == [Message(1, 0)];
  }

  /** Whenever a download may take as long as the idle time a claim asks for, as with the shipped
      settings, a run that honours every timeout claims a message under its live worker. */
  lemma LiveMessageCanBeClaimed(cfg: Config) returns (acts: seq<Action>, s: State)
    requires Usable(cfg) && cfg.claimMinIdle <= cfg.downloadTimeout
    ensures Run(cfg, Timed, START, acts, s) && !Run(cfg, Exclusive, START, acts, s)
  {
    var before, s0, claim, t := Stolen(cfg);
    Extend(cfg, Timed, START, before, s0, claim, t);
    acts, s := before + [claim], t;
    if Run(cfg, Exclusive, START, acts, s) {
      LastStepAllowed(cfg, Exclusive, START, before, s0, claim, s);
    }
  }

  // In a run the last step respects the policy in the state where it is taken.
  lemma {:induction false} LastStepAllowed(cfg: Config, p: Policy, s: State, acts: seq<Action>, t: State, a: Action, u: State)
    requires Run(cfg, Timed, s, acts, t) && Run(cfg, p, s, acts + [a], u)
    ensures Allows(cfg, p, t, a)
    decreases |acts|
  {
    if acts == [] {
      assert acts + [a] == [a];
    } else {
      assert (acts + [a])[1..] == acts[1..] + [a];
      LastStepAllowed(cfg, p, Next(cfg, s, acts[0]).value, acts[1..], t, a, u);
    }
  }

  lemma ShippedSettingsAllowStealing() returns (acts: seq<Action>, s: State)
    ensures Run(SHIPPED, Timed, START, acts, s) && !Run(SHIPPED, Exclusive, START, acts, s)
  {
    acts, s := LiveMessageCanBeClaimed(SHIPPED);
  }

  function Claimed(source: Option<Source>, pc: Pc, at: Time): Handler {
    Handler(1, 0, source, pc, None, at, at, false)
  }

  // The claimer takes the stolen job up.
  lemma Taken(cfg: Config) returns (acts: seq<Action>, s: State)
    requires Usable(cfg) && cfg.claimMinIdle <= cfg.downloadTimeout && cfg.claimMinIdle < cfg.jobTTL
    ensures Run(cfg, Timed, START, acts, s)
    ensures Scene(s, cfg.claimMinIdle, Over(ASKED, PROCESSING_PATCH),
                  map[Claimer := Claimed(None, Getting, cfg.claimMinIdle)][W := Worked(Some(Url), Fetching, 0, 0)])
  {
    var before, s0, claim, t := Stolen(cfg);
    Extend(cfg, Timed, START, before, s0, claim, t);
    s := Arrive(t, Claimer, Message(1, 0)).(batch := t.batch[1..]);
    assert s.handlers == map[Claimer := Claimed(None, Getting, cfg.claimMinIdle)][W := Worked(Some(Url), Fetching, 0, 0)];
    Extend(cfg, Timed, START, before + [claim], t, Begin, s);
    acts := before + [claim] + [Begin];
  }

  // It looks at the job, which is still being processed.
  lemma SeenTwice(cfg: Config) returns (acts: seq<Action>, s: State)
    requires Usable(cfg) && cfg.claimMinIdle <= cfg.downloadTimeout && cfg.claimMinIdle < cfg.jobTTL
    ensures Run(cfg, Timed, START, acts, s)
    ensures Scene(s, cfg.claimMinIdle, Over(ASKED, PROCESSING_PATCH),
                  map[Claimer := Claimed(Some(Url), Marking, cfg.claimMinIdle)][W := Worked(Some(Url), Fetching, 0, 0)])
  {
    var before, t := Taken(cfg);
    s := GetStep(t, Claimer, Done);
    assert s.handlers == map[Claimer := Claimed(Some(Url), Marking, cfg.claimMinIdle)][W := Worked(Some(Url), Fetching, 0, 0)];
    Extend(cfg, Timed, START, before, t, By(Claimer, Get(Done)), s);
    acts := before + [By(Claimer, Get(Done))];
  }

  // The worker stores its result while the claimer is about to mark the job.
  lemma CompletedFirst(cfg: Config) returns (acts: seq<Action>, s: State, rec: Record)
    requires Usable(cfg) && cfg.claimMinIdle <= cfg.downloadTimeout && cfg.claimMinIdle < cfg.jobTTL
    ensures Run(cfg, Timed, START, acts, s)
    ensures rec.status == Some(Completed) && rec.result.Some?
    ensures Scene(s, cfg.claimMinIdle, rec,
                  map[Claimer := Claimed(Some(Url), Marking, cfg.claimMinIdle)][W := Worked(Some(Url), Acking, 0, cfg.claimMinIdle)])
  {
    var now := cfg.claimMinIdle;
    var others := map[Claimer := Claimed(Some(Url), Marking, now)];
    var first, s0 := SeenTwice(cfg);
    var second, t := Transcribed(cfg, Timed, first, s0, now, Over(ASKED, PROCESSING_PATCH), others, 0, 0, "text");
    rec := Over(Over(ASKED, PROCESSING_PATCH), CompletedPatch("text", now));
    s := WriteStep(cfg, t, W, CompletedPatch("text", now), Acking, Done);
    assert s.handlers == others[W := Worked(Some(Url), Acking, 0, now)];
    Extend(cfg, Timed, START, second, t, By(W, Complete(Done)), s);
    acts := second + [By(W, Complete(Done))];
  }

  // The record of job 0 is there with this status.
  predicate Shows(s: State, status: Status) {
    0 in s.db.jobs && s.db.jobs[0].rec.status == Some(status)
  }

  lemma MarkedByClaimer(cfg: Config, s: State, now: Time, rec: Record) returns (t: State)
    requires cfg.jobTTL > 0 && Claimer in s.handlers
    requires Scene(s, now, rec, s.handlers) && s.handlers[Claimer] == Claimed(Some(Url), Marking, now)
    ensures Run(cfg, Timed, s, [By(Claimer, Mark(Done))], t) && Shows(t, Processing)
    ensures Claimer in t.handlers && t.handlers[Claimer] == Claimed(Some(Url), Fetching, now) && !t.stopping
    ensures t.db.jobs[0].rec.result == rec.result
  {
    t := WriteStep(cfg, s, Claimer, PROCESSING_PATCH, Fetching, Done);
    One(cfg, Timed, s, By(Claimer, Mark(Done)), t);
  }

  lemma FailedByClaimer(cfg: Config, s: State, now: Time) returns (acts: seq<Action>, t: State)
    requires cfg.jobTTL > 0 && Claimer in s.handlers && s.handlers[Claimer] == Claimed(Some(Url), Fetching, now)
    requires !s.stopping && 0 in s.db.jobs && s.db.jobs[0].rec.result.Some?
    ensures Run(cfg, Timed, s, acts, t) && Shows(t, Failed)
    ensures t.db.jobs[0].rec.result.Some? && t.db.jobs[0].rec.error.Some?
  {
    var m := FetchStep(s, Claimer, false);
    t := WriteStep(cfg, m, Claimer, FailedPatch(DownloadFailed, m.now), Acking, Done);
    One(cfg, Timed, s, By(Claimer, Fetch(false)), m);
    Extend(cfg, Timed, s, [By(Claimer, Fetch(false))], m, By(Claimer, Fail(Done)), t);
    acts := [By(Claimer, Fetch(false))] + [By(Claimer, Fail(Done))];
  }

  /** On such settings the life of a record is not monotone even when every timeout is honoured:
      the worker completes the job, the claimer puts it back to processing and then fails it, and
      the record ends with both a result and an error. */
  lemma StolenJobRegresses(cfg: Config)
    returns (first: seq<Action>, s1: State, second: seq<Action>, s2: State, third: seq<Action>, s3: State)
    requires Usable(cfg) && cfg.claimMinIdle <= cfg.downloadTimeout && cfg.claimMinIdle < cfg.jobTTL
    ensures Run(cfg, Timed, START, first, s1) && Shows(s1, Completed)
    ensures Run(cfg, Timed, s1, second, s2) && Shows(s2, Processing)
    ensures Run(cfg, Timed, s2, third, s3) && Shows(s3, Failed)
    ensures s3.db.jobs[0].rec.result.Some? && s3.db.jobs[0].rec.error.Some?
  {
    var rec;
    first, s1, rec := CompletedFirst(cfg);
    second := [By(Claimer, Mark(Done))];
    s2 := MarkedByClaimer(cfg, s1, cfg.claimMinIdle, rec);
    third, s3 := FailedByClaimer(cfg, s2, cfg.claimMinIdle);
  }

  lemma ShippedJobRegresses()
    returns (first: seq<Action>, s1: State, second: seq<Action>, s2: State, third: seq<Action>, s3: State)
    ensures Run(SHIPPED, Timed, START, first, s1) && Shows(s1, Completed)
    ensures Run(SHIPPED, Timed, s1, second, s2) && Shows(s2, Processing)
    ensures Run(SHIPPED, Timed, s2, third, s3) && Shows(s3, Failed)
    ensures s3.db.jobs[0].rec.result.Some? && s3.db.jobs[0].rec.error.Some?
  {
    first, s1, second, s2, third, s3 := StolenJobRegresses(SHIPPED);
  }
}
