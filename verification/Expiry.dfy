/** When records run out before their message can be claimed: the claimer finds nothing to do, so
    no record goes backwards however long the workers take. */
module Expiry {
  import opened Wrappers
  import opened Jobs
  import opened Redis
  import opened Pipeline
  import opened Runs
  import opened Accounting
  import opened Concurrency
  import opened Loss
  import opened Lifecycle
  import opened Timing

  // A record that a handler would go on from.
  ghost predicate Live(db: Db, id: JobId) {
    id in db.jobs && !Ended(db.jobs[id].rec)
  }

  // Before the mark as processing has been written.
  predicate Early(pc: Pc) {
    pc.Getting? || pc.Marking?
  }

  // Past everything but the ack.
  predicate AtEnd(pc: Pc) {
    pc.Acking? || pc.Dropping? || pc.Wiping? || pc.Leaving?
  }

  // Nobody will bring the record of this message to life any more.
  ghost predicate Past(db: Db, handlers: map<Consumer, Handler>, mid: MsgId, id: JobId) {
    && !Live(db, id)
    && forall c :: c in handlers && c.Worker? && handlers[c].mid == mid ==> !Early(handlers[c].pc)
  }

  ghost predicate Lasts(jobs: map<JobId, Hash>, now: Time, ttl: int) {
    forall id :: id in jobs ==> now < jobs[id].deadline <= now + ttl
  }

  // A record that has not ended runs out within its time to live after the last delivery.
  ghost predicate Fades(cfg: Config, db: Db) {
    forall m :: m in db.pending && m in db.entries && Live(db, db.entries[m]) ==>
      db.jobs[db.entries[m]].deadline <= db.pending[m].at + cfg.jobTTL
  }

  ghost predicate BatchPast(db: Db, handlers: map<Consumer, Handler>, batch: seq<Message>) {
    forall m :: m in batch ==> Past(db, handlers, m.mid, m.id)
  }

  ghost predicate ClaimerPast(db: Db, handlers: map<Consumer, Handler>) {
    Claimer in handlers ==>
      || AtEnd(handlers[Claimer].pc)
      || (handlers[Claimer].pc.Getting? && Past(db, handlers, handlers[Claimer].mid, handlers[Claimer].id))
  }

  ghost predicate Fading(cfg: Config, s: State) {
    && Lasts(s.db.jobs, s.now, cfg.jobTTL) && Fades(cfg, s.db)
    && BatchPast(s.db, s.handlers, s.batch) && ClaimerPast(s.db, s.handlers)
  }

  lemma UpdateLasts(db: Db, id: JobId, patch: Record, now: Time, ttl: int)
    requires Lasts(db.jobs, now, ttl)
    ensures Lasts(UpdateTx(db, id, patch, now, ttl).jobs, now, ttl)
  {
  }

  lemma PatchLives(s: State, h: Handler, w: Work)
    requires Fits(h.pc, w) && PatchOf(s, h, w).Some? && !Ended(PatchOf(s, h, w).value)
    ensures h.pc.Marking?
  {
  }

  // Only the mark of a worker that has just read its message brings a record to life.
  lemma WorkLives(cfg: Config, s: State, c: Consumer, w: Work, t: State, id: JobId)
    requires c in s.handlers && WorkStep(cfg, s, c, w) == Some(t) && Live(t.db, id)
    ensures (Live(s.db, id) && t.db.jobs[id] == s.db.jobs[id])
            || (s.handlers[c].pc.Marking? && s.handlers[c].id == id && t.db.jobs[id].deadline == s.now + cfg.jobTTL)
  {
    HandlerMoves(cfg, s, c, w, t);
    PatchedDb(cfg, s, c, w, t);
    var h := s.handlers[c];
    if PatchOf(s, h, w).Some? && !Ended(PatchOf(s, h, w).value) {
      PatchLives(s, h, w);
    }
  }

  lemma WorkLasts(cfg: Config, s: State, c: Consumer, w: Work, t: State)
    requires Lasts(s.db.jobs, s.now, cfg.jobTTL) && c in s.handlers && WorkStep(cfg, s, c, w) == Some(t)
    ensures Lasts(t.db.jobs, s.now, cfg.jobTTL)
  {
    PatchedDb(cfg, s, c, w, t);
    match PatchOf(s, s.handlers[c], w)
    case None =>
    case Some(patch) => UpdateLasts(s.db, s.handlers[c].id, patch, s.now, cfg.jobTTL);
  }

  lemma MarkerIsWorker(cfg: Config, s: State, c: Consumer)
    requires Fading(cfg, s) && c in s.handlers && s.handlers[c].pc.Marking?
    ensures c.Worker?
  {
  }

  // What WorkLives means for the pending list.
  lemma WorkFades(cfg: Config, s: State, c: Consumer, w: Work, t: State)
    requires Sane(cfg) && Sound(cfg, s) && Punctual(cfg, s) && Fading(cfg, s)
    requires c in s.handlers && WorkStep(cfg, s, c, w) == Some(t) && OnlyHandler(s, c, t)
    ensures Fades(cfg, t.db)
  {
    forall m | m in t.db.pending && m in t.db.entries && Live(t.db, t.db.entries[m])
      ensures t.db.jobs[t.db.entries[m]].deadline <= t.db.pending[m].at + cfg.jobTTL
    {
      var id := t.db.entries[m];
      assert m in s.db.pending && s.db.pending[m] == t.db.pending[m] && s.db.entries[m] == id;
      WorkLives(cfg, s, c, w, t, id);
      if !(Live(s.db, id) && t.db.jobs[id] == s.db.jobs[id]) {
        MarkerIsWorker(cfg, s, c);
        assert OnTime(cfg, s.now, s.handlers[c]);
        assert Carried(s.db, s.past, s.handlers[c].mid, id);
      }
    }
  }

  lemma EarlyAfter(cfg: Config, s: State, h: Handler, w: Work)
    requires Fits(h.pc, w) && !w.Leave? && !Early(h.pc)
    ensures !Early(After(cfg, s, h, w).pc)
  {
  }

  lemma NoneEarly(cfg: Config, s: State, c: Consumer, w: Work, t: State, d: Consumer)
    requires c in s.handlers && WorkStep(cfg, s, c, w) == Some(t) && OnlyHandler(s, c, t)
    requires d in t.handlers && !Early(s.handlers[d].pc)
    ensures !Early(t.handlers[d].pc)
  {
    if d == c {
      HandlerMoves(cfg, s, c, w, t);
      EarlyAfter(cfg, s, s.handlers[c], w);
    }
  }

  lemma WorkPast(cfg: Config, s: State, c: Consumer, w: Work, t: State, mid: MsgId, id: JobId)
    requires Sound(cfg, s) && Fading(cfg, s) && c in s.handlers && WorkStep(cfg, s, c, w) == Some(t) && OnlyHandler(s, c, t)
    requires Carried(s.db, s.past, mid, id) && Past(s.db, s.handlers, mid, id)
    ensures Past(t.db, t.handlers, mid, id)
  {
    assert Carried(s.db, s.past, s.handlers[c].mid, s.handlers[c].id);
    if Live(t.db, id) {
      WorkLives(cfg, s, c, w, t, id);
      MarkerIsWorker(cfg, s, c);
    }
    forall d | d in t.handlers && d.Worker? && t.handlers[d].mid == mid
      ensures !Early(t.handlers[d].pc)
    {
      NoneEarly(cfg, s, c, w, t, d);
    }
  }

  lemma EndAfter(cfg: Config, s: State, h: Handler, w: Work)
    requires Fits(h.pc, w) && !w.Leave?
    requires AtEnd(h.pc) || (h.pc.Getting? && !Live(s.db, h.id))
    ensures AtEnd(After(cfg, s, h, w).pc)
  {
  }

  lemma ClaimerWorks(cfg: Config, s: State, w: Work, t: State)
    requires ClaimerPast(s.db, s.handlers) && Claimer in s.handlers && WorkStep(cfg, s, Claimer, w) == Some(t)
    ensures Claimer in t.handlers ==> AtEnd(t.handlers[Claimer].pc)
  {
    HandlerMoves(cfg, s, Claimer, w, t);
    if !w.Leave? {
      EndAfter(cfg, s, s.handlers[Claimer], w);
    }
  }

  lemma FadingWork(cfg: Config, s: State, c: Consumer, w: Work, t: State)
    requires Sane(cfg) && Sound(cfg, s) && Punctual(cfg, s) && Fading(cfg, s)
    requires c in s.handlers && WorkStep(cfg, s, c, w) == Some(t)
    ensures Fading(cfg, t)
  {
    WorkFrame(cfg, s, c, w, t);
    WorkLasts(cfg, s, c, w, t);
    WorkFades(cfg, s, c, w, t);
    forall m | m in t.batch
      ensures Past(t.db, t.handlers, m.mid, m.id)
    {
      WorkPast(cfg, s, c, w, t, m.mid, m.id);
    }
    if c == Claimer {
      ClaimerWorks(cfg, s, w, t);
    } else if Claimer in s.handlers && s.handlers[Claimer].pc.Getting? {
      WorkPast(cfg, s, c, w, t, s.handlers[Claimer].mid, s.handlers[Claimer].id);
    }
  }

  lemma FadingTick(cfg: Config, s: State, delta: nat, t: State)
    requires Fading(cfg, s) && t == s.(now := s.now + delta, db := Advance(s.db, s.now + delta))
    ensures Fading(cfg, t)
  {
    assert forall id :: Live(t.db, id) ==> Live(s.db, id) && t.db.jobs[id] == s.db.jobs[id];
    forall m | m in t.batch
      ensures Past(t.db, t.handlers, m.mid, m.id)
    {
      assert Past(s.db, s.handlers, m.mid, m.id);
    }
  }

  // Messages stay over while neither their record nor their workers change.
  lemma AllStayPast(cfg: Config, s: State, t: State)
    requires Sound(cfg, s) && BatchPast(s.db, s.handlers, s.batch) && ClaimerPast(s.db, s.handlers) && t.batch == s.batch
    requires forall id :: id in s.past.sent && Live(t.db, id) ==> Live(s.db, id)
    requires forall c :: c in s.handlers ==> c in t.handlers && t.handlers[c] == s.handlers[c]
    requires forall c :: c in t.handlers && c !in s.handlers ==> c.Worker? && s.db.last < t.handlers[c].mid
    ensures BatchPast(t.db, t.handlers, t.batch) && ClaimerPast(t.db, t.handlers)
  {
    forall m | m in t.batch
      ensures Past(t.db, t.handlers, m.mid, m.id)
    {
      assert Carried(s.db, s.past, m.mid, m.id);
    }
    if Claimer in s.handlers {
      assert Carried(s.db, s.past, s.handlers[Claimer].mid, s.handlers[Claimer].id);
    }
  }

  // An enqueue brings only its own job to life, which no message carries yet.
  lemma EnqueueLives(db: Db, id: JobId, rec: Record, now: Time, ttl: int)
    ensures forall i :: i != id ==> Live(EnqueueTx(db, id, rec, now, ttl), i) == Live(db, i)
    ensures forall i :: i != id && Live(db, i) ==> EnqueueTx(db, id, rec, now, ttl).jobs[i] == db.jobs[i]
  {
  }

  lemma EnqueueFades(cfg: Config, db: Db, past: History, id: JobId, rec: Record, now: Time)
    requires StreamOk(db, past) && Fades(cfg, db) && id !in past.sent
    ensures Fades(cfg, EnqueueTx(db, id, rec, now, cfg.jobTTL))
  {
    EnqueueLives(db, id, rec, now, cfg.jobTTL);
  }

  lemma FadingEnqueue(cfg: Config, s: State, id: JobId, r: Request, t: State)
    requires Sound(cfg, s) && Fading(cfg, s) && id !in s.past.sent
    requires t.db == EnqueueTx(s.db, id, QueuedRecord(r.source, r.url, r.language, s.now), s.now, cfg.jobTTL)
    requires t.handlers == s.handlers && t.batch == s.batch && t.now == s.now
    ensures Fading(cfg, t)
  {
    UpdateLasts(s.db, id, QueuedRecord(r.source, r.url, r.language, s.now), s.now, cfg.jobTTL);
    EnqueueLives(s.db, id, QueuedRecord(r.source, r.url, r.language, s.now), s.now, cfg.jobTTL);
    EnqueueFades(cfg, s.db, s.past, id, QueuedRecord(r.source, r.url, r.language, s.now), s.now);
    AllStayPast(cfg, s, t);
  }

  lemma FadingHttp(cfg: Config, s: State, id: JobId, a: Serve, t: State)
    requires Sound(cfg, s) && Fading(cfg, s) && HttpStep(cfg, s, id, a) == Some(t)
    ensures Fading(cfg, t)
  {
    if a.Enqueue? && Applied(a.reply) {
      EnqueueParts(cfg, s, id, a.reply);
      HttpAside(cfg, s, id, a, t);
      FadingEnqueue(cfg, s, id, s.requests[id], t);
    } else {
      HttpQuiet(cfg, s, id, a, t);
    }
  }

  lemma ReadFades(cfg: Config, db: Db, mid: MsgId, owner: Consumer, now: Time)
    requires Lasts(db.jobs, now, cfg.jobTTL) && Fades(cfg, db)
    ensures Fades(cfg, ReadTx(db, mid, owner, now))
  {
  }

  lemma FadingRead(cfg: Config, s: State, w: nat, mid: MsgId, reply: Reply, t: State)
    requires Sound(cfg, s) && Fading(cfg, s) && ReadStep(cfg, s, w, mid, reply) == Some(t)
    ensures Fading(cfg, t)
  {
    ReadFades(cfg, s.db, mid, Worker(w), s.now);
    ReadLeaves(cfg, s, w, mid, reply, t);
    AllStayPast(cfg, s, t);
  }

  lemma ReadLeaves(cfg: Config, s: State, w: nat, mid: MsgId, reply: Reply, t: State)
    requires ReadStep(cfg, s, w, mid, reply) == Some(t)
    ensures t.db == ReadTx(s.db, mid, Worker(w), s.now) && t.batch == s.batch && t.now == s.now
    ensures forall c :: c in s.handlers ==> c in t.handlers && t.handlers[c] == s.handlers[c]
    ensures forall c :: c in t.handlers && c !in s.handlers ==> c.Worker? && s.db.last < t.handlers[c].mid
  {
  }

  // A row that is due has outlived its record, and its worker is past its mark.
  lemma DueIsPast(cfg: Config, s: State, m: MsgId)
    requires Sound(cfg, s) && Punctual(cfg, s) && Fading(cfg, s) && 0 < cfg.claimMinIdle && cfg.jobTTL <= cfg.claimMinIdle
    requires m in s.db.pending && m in s.db.entries && cfg.claimMinIdle <= s.now - s.db.pending[m].at
    ensures Past(s.db, s.handlers, m, s.db.entries[m])
  {
    forall c | c in s.handlers && c.Worker? && s.handlers[c].mid == m
      ensures !Early(s.handlers[c].pc)
    {
      assert OnTime(cfg, s.now, s.handlers[c]);
    }
  }

  lemma FadingClaim(cfg: Config, s: State, ms: seq<MsgId>, reply: Reply, t: State)
    requires Sound(cfg, s) && Punctual(cfg, s) && Fading(cfg, s) && 0 < cfg.claimMinIdle && cfg.jobTTL <= cfg.claimMinIdle
    requires ClaimStep(cfg, s, ms, reply) == Some(t)
    ensures Fading(cfg, t)
  {
    forall m | m in ms
      ensures Past(s.db, s.handlers, m, s.db.entries[m])
    {
      DueIsPast(cfg, s, m);
    }
    forall m | m in t.batch
      ensures Past(t.db, t.handlers, m.mid, m.id)
    {
      if reply.Done? {
        var i :| 0 <= i < |ms| && t.batch[i] == m;
        assert ms[i] in ms && Past(s.db, s.handlers, ms[i], s.db.entries[ms[i]]);
      }
    }
  }

  lemma FadingBegin(cfg: Config, s: State, t: State)
    requires Fading(cfg, s) && Next(cfg, s, Begin) == Some(t)
    ensures Fading(cfg, t)
  {
    assert s.batch[0] in s.batch;
    forall m | m in s.batch
      ensures Past(t.db, t.handlers, m.mid, m.id)
    {
      assert Past(s.db, s.handlers, m.mid, m.id);
    }
    assert forall m :: m in t.batch ==> m in s.batch;
  }

  lemma FadingStep(cfg: Config, s: State, a: Action, t: State)
    requires Sane(cfg) && Sound(cfg, s) && Punctual(cfg, s) && Fading(cfg, s)
    requires 0 < cfg.claimMinIdle && cfg.jobTTL <= cfg.claimMinIdle && Next(cfg, s, a) == Some(t)
    ensures Fading(cfg, t)
  {
    match a
    case Tick(delta) => FadingTick(cfg, s, delta, t);
    case By(c, w) => FadingWork(cfg, s, c, w, t);
    case Http(id, serve) => FadingHttp(cfg, s, id, serve, t);
    case Read(w, mid, reply) => FadingRead(cfg, s, w, mid, reply, t);
    case Claim(ms, reply) => FadingClaim(cfg, s, ms, reply, t);
    case Begin => FadingBegin(cfg, s, t);
    case _ =>
  }

  // Handlers at work on the same message are the same.
  lemma FadingOneWorks(cfg: Config, s: State)
    requires Sound(cfg, s) && ClaimerPast(s.db, s.handlers)
    ensures OneWorks(s.handlers)
  {
  }

  // What holds on such runs besides.
  ghost predicate Mild(cfg: Config, s: State) {
    Sound(cfg, s) && Gated(s) && Punctual(cfg, s) && Fading(cfg, s) && LifeOk(s.handlers, s.db, s.past)
  }

  lemma MildStep(cfg: Config, s: State, a: Action, t: State)
    requires Sane(cfg) && 0 < cfg.claimMinIdle && cfg.jobTTL <= cfg.claimMinIdle
    requires Mild(cfg, s) && InTime(cfg, s, a) && Next(cfg, s, a) == Some(t)
    ensures Mild(cfg, t) && forall id :: Evolves(s.db, t.db, id)
  {
    SoundStep(cfg, s, a, t);
    GatedStep(cfg, s, a, t);
    PunctualStep(cfg, s, a, t);
    FadingStep(cfg, s, a, t);
    FadingOneWorks(cfg, s);
    LifeStep(cfg, s, a, t);
  }

  lemma {:induction false} MildRun(cfg: Config, s: State, acts: seq<Action>, t: State)
    requires Sane(cfg) && 0 < cfg.claimMinIdle && cfg.jobTTL <= cfg.claimMinIdle
    requires Mild(cfg, s) && Run(cfg, Timed, s, acts, t)
    ensures Mild(cfg, t)
    decreases |acts|
  {
    if acts != [] {
      var n := Next(cfg, s, acts[0]).value;
      MildStep(cfg, s, acts[0], n);
      MildRun(cfg, n, acts[1..], t);
    }
  }

  lemma StartIsMild(cfg: Config)
    requires Sane(cfg)
    ensures Mild(cfg, START)
  {
    StartIsPunctual(cfg);
  }

  /** When a record never outlives the idle time a claim asks for, no timely run takes a record
      backwards, or leaves a result and an error in one, whatever the other settings: the claimer
      finds every job it gets gone or ended. */
  lemma ShortRecordsNeverRegress(cfg: Config, acts: seq<Action>, s: State, a: Action, t: State, id: JobId)
    requires Sane(cfg) && 0 < cfg.claimMinIdle && cfg.jobTTL <= cfg.claimMinIdle
    requires Run(cfg, Timed, START, acts, s) && InTime(cfg, s, a) && Next(cfg, s, a) == Some(t)
    ensures Evolves(s.db, t.db, id) && !Mixed(t.db, id)
  {
    StartIsMild(cfg);
    MildRun(cfg, START, acts, s);
    MildStep(cfg, s, a, t);
    MildIsUnmixed(cfg, t, id);
  }

  lemma MildIsUnmixed(cfg: Config, s: State, id: JobId)
    requires Mild(cfg, s)
    ensures !Mixed(s.db, id)
  {
    assert id in s.db.jobs ==> Shaped(s.db.jobs[id].rec);
  }

  // The settings with one handler fewer at the gate: the claimer never gets there.
  function Alike(cfg: Config): Config
    requires cfg.concurrency >= 1
  {
    cfg.(concurrency := cfg.concurrency - 1)
  }

  lemma AlikeWork(cfg: Config, s: State, c: Consumer, w: Work)
    requires cfg.concurrency >= 1 && c in s.handlers
    ensures WorkStep(Alike(cfg), s, c, w) == WorkStep(cfg, s, c, w)
  {
  }

  lemma AlikeHttp(cfg: Config, s: State, id: JobId, a: Serve)
    requires cfg.concurrency >= 1
    ensures HttpStep(Alike(cfg), s, id, a) == HttpStep(cfg, s, id, a)
  {
  }

  lemma AlikeTime(cfg: Config, s: State, a: Action)
    requires cfg.concurrency >= 1
    ensures InTime(Alike(cfg), s, a) == InTime(cfg, s, a)
  {
  }

  lemma WorkersSize(ws: set<Consumer>, n: nat)
    requires forall c :: c in ws ==> c.Worker? && c.index < n
    ensures |ws| <= n
  {
    SubsetSize(ws + {Claimer}, Consumers(n));
  }

  lemma AtGateIsWorker(s: State)
    requires Gated(s) && ClaimerPast(s.db, s.handlers)
    ensures forall c :: c in s.waiting ==> c.Worker?
    ensures s.gate.Some? ==> s.gate.value.Worker?
  {
    forall c | c in s.waiting
      ensures c.Worker?
    {
      assert c in s.handlers && s.handlers[c].pc.Waiting?;
    }
    if s.gate.Some? {
      assert s.gate.value in s.handlers && s.handlers[s.gate.value].pc.Calling?;
    }
  }

  lemma CrowdingSize(s: State, c: Consumer)
    requires Gated(s) && c in s.handlers && AwayFromGate(s.handlers[c].pc)
    ensures var all := Elements(s.waiting) + (if s.gate.Some? then {s.gate.value} else {}) + {c};
            |all| == Crowding(s) + 1
  {
    DistinctSize(s.waiting);
    assert c !in Elements(s.waiting);
    if s.gate.Some? {
      assert s.gate.value !in Elements(s.waiting) && s.gate.value != c;
    }
  }

  // Only workers are at the gate, or on their way to it.
  lemma WorkersFit(cfg: Config, s: State, c: Consumer)
    requires (forall d :: d in s.handlers ==> Known(cfg, d)) && Gated(s) && ClaimerPast(s.db, s.handlers)
    requires c in s.handlers && (s.handlers[c].pc.Fetching? || s.handlers[c].pc.Backoff?)
    ensures Crowding(s) <= cfg.concurrency - 1
  {
    AtGateIsWorker(s);
    CrowdingSize(s, c);
    var all := Elements(s.waiting) + (if s.gate.Some? then {s.gate.value} else {}) + {c};
    AllAtWork(s, c, all);
    WorkersSize(all, cfg.concurrency);
  }

  lemma AllAtWork(s: State, c: Consumer, all: set<Consumer>)
    requires Gated(s) && c in s.handlers && all == Elements(s.waiting) + (if s.gate.Some? then {s.gate.value} else {}) + {c}
    requires c.Worker? && (forall d :: d in s.waiting ==> d.Worker?) && (s.gate.Some? ==> s.gate.value.Worker?)
    ensures forall d :: d in all ==> d in s.handlers && d.Worker?
  {
  }

  lemma AllFit(cfg: Config, s: State)
    requires Sound(cfg, s) && Gated(s) && ClaimerPast(s.db, s.handlers) && cfg.concurrency >= 1
    ensures Room(Alike(cfg), s)
  {
    forall c | c in s.handlers && (s.handlers[c].pc.Fetching? || s.handlers[c].pc.Backoff?)
      ensures Crowding(s) <= cfg.concurrency - 1
    {
      WorkersFit(cfg, s, c);
    }
  }

  lemma AlikeBy(cfg: Config, s: State, c: Consumer, w: Work, t: State)
    requires Sane(cfg) && cfg.concurrency >= 1 && Sound(cfg, s) && Gated(s) && ClaimerPast(s.db, s.handlers)
    requires Punctual(Alike(cfg), s) && InTime(Alike(cfg), s, By(c, w)) && c in s.handlers && WorkStep(cfg, s, c, w) == Some(t)
    ensures Punctual(Alike(cfg), t)
  {
    AllFit(cfg, s);
    AlikeWork(cfg, s, c, w);
    PunctualWork(Alike(cfg), s, c, w, t);
  }

  lemma AlikeDelivery(cfg: Config, s: State, a: Action, t: State)
    requires Sane(cfg) && cfg.concurrency >= 1 && Sound(cfg, s) && Gated(s) && Punctual(Alike(cfg), s)
    requires (a.Read? || a.Claim? || a.Begin? || a.Stop? || a.Crash?) && Next(cfg, s, a) == Some(t)
    ensures Punctual(Alike(cfg), t)
  {
    match a
    case Stop =>
    case Crash => PunctualCrash(Alike(cfg), s);
    case Read(w, mid, reply) => PunctualRead(cfg, Alike(cfg), s, w, mid, reply, t);
    case Claim(ms, reply) =>
      AlikeClaim(cfg, s, ms, reply);
      PunctualClaim(Alike(cfg), s, ms, reply, t);
    case Begin => PunctualBegin(Alike(cfg), s, t);
  }

  lemma AlikeClaim(cfg: Config, s: State, ms: seq<MsgId>, reply: Reply)
    requires cfg.concurrency >= 1
    ensures ClaimStep(Alike(cfg), s, ms, reply) == ClaimStep(cfg, s, ms, reply)
  {
  }

  lemma AlikeLater(cfg: Config, s: State, delta: nat, t: State)
    requires Sane(cfg) && cfg.concurrency >= 1 && Gated(s) && Punctual(Alike(cfg), s)
    requires InTime(Alike(cfg), s, Tick(delta)) && Next(cfg, s, Tick(delta)) == Some(t)
    ensures Punctual(Alike(cfg), t)
  {
    PunctualLater(Alike(cfg), s, delta, t);
  }

  lemma AlikeServe(cfg: Config, s: State, id: JobId, a: Serve, t: State)
    requires cfg.concurrency >= 1 && Punctual(Alike(cfg), s) && HttpStep(cfg, s, id, a) == Some(t)
    ensures Punctual(Alike(cfg), t)
  {
    AlikeHttp(cfg, s, id, a);
    PunctualHttp(Alike(cfg), s, id, a, t);
  }

  lemma PunctualAlike(cfg: Config, s: State, a: Action, t: State)
    requires Sane(cfg) && cfg.concurrency >= 1 && Sound(cfg, s) && Gated(s) && ClaimerPast(s.db, s.handlers)
    requires Punctual(Alike(cfg), s) && InTime(cfg, s, a) && Next(cfg, s, a) == Some(t)
    ensures Punctual(Alike(cfg), t)
  {
    AlikeTime(cfg, s, a);
    match a
    case Tick(delta) => AlikeLater(cfg, s, delta, t);
    case By(c, w) => AlikeBy(cfg, s, c, w, t);
    case Http(id, serve) => AlikeServe(cfg, s, id, serve, t);
    case _ => AlikeDelivery(cfg, s, a, t);
  }

  lemma DueIsDead(cfg: Config, s: State, a: Action, t: State)
    requires Sane(cfg) && cfg.concurrency >= 1 && Sound(cfg, s) && Punctual(Alike(cfg), s)
    requires Budget(Alike(cfg)) < cfg.claimMinIdle && Next(cfg, s, a) == Some(t)
    ensures ClaimsIdleOnly(s, a)
  {
    if a.Claim? {
      forall c | c in s.handlers
        ensures s.handlers[c].mid !in a.mids
      {
        OnTimeBound(Alike(cfg), s.now, s.handlers[c]);
      }
    }
  }

  lemma {:induction false} ShortFrom(cfg: Config, s: State, acts: seq<Action>, t: State)
    requires Sane(cfg) && cfg.concurrency >= 1 && 0 < cfg.claimMinIdle && cfg.jobTTL <= cfg.claimMinIdle
    requires Budget(Alike(cfg)) < cfg.claimMinIdle
    requires Mild(cfg, s) && Punctual(Alike(cfg), s) && Run(cfg, Timed, s, acts, t)
    ensures Run(cfg, Exclusive, s, acts, t)
    decreases |acts|
  {
    if acts != [] {
      var n := Next(cfg, s, acts[0]).value;
      DueIsDead(cfg, s, acts[0], n);
      MildStep(cfg, s, acts[0], n);
      PunctualAlike(cfg, s, acts[0], n);
      ShortFrom(cfg, n, acts[1..], t);
    }
  }

  /** Then the gate is the workers' alone, and a budget with one turn fewer per attempt is enough to
      keep claims away from live handlers. */
  lemma ShortRunsAreExclusive(cfg: Config, acts: seq<Action>, s: State)
    requires Sane(cfg) && cfg.concurrency >= 1 && 0 < cfg.claimMinIdle && cfg.jobTTL <= cfg.claimMinIdle
    requires Budget(Alike(cfg)) < cfg.claimMinIdle && Run(cfg, Timed, START, acts, s)
    ensures Run(cfg, Exclusive, START, acts, s)
  {
    StartIsMild(cfg);
    StartIsPunctual(Alike(cfg));
    ShortFrom(cfg, START, acts, s);
  }

  // With no time to live at all there is never a record, and no handler goes past its first read.
  ghost predicate Idle(s: State) {
    && s.db.jobs == map[]
    && forall c :: c in s.handlers ==> s.handlers[c].start == s.now && (s.handlers[c].pc.Getting? || AtEnd(s.handlers[c].pc))
  }

  lemma IdleAfter(cfg: Config, s: State, h: Handler, w: Work)
    requires Fits(h.pc, w) && !w.Leave? && s.db.jobs == map[] && (h.pc.Getting? || AtEnd(h.pc))
    ensures AtEnd(After(cfg, s, h, w).pc) && After(cfg, s, h, w).start == h.start
  {
  }

  lemma IdleWork(cfg: Config, s: State, c: Consumer, w: Work, t: State)
    requires Idle(s) && c in s.handlers && WorkStep(cfg, s, c, w) == Some(t)
    ensures Idle(t)
  {
    WorkFrame(cfg, s, c, w, t);
    HandlerMoves(cfg, s, c, w, t);
    PatchedDb(cfg, s, c, w, t);
    if !w.Leave? {
      IdleAfter(cfg, s, s.handlers[c], w);
    }
  }

  lemma IdleStep(cfg: Config, s: State, a: Action, t: State)
    requires Idle(s) && cfg.jobTTL <= 0 && OnTimeNow(s) && InTime(cfg, s, a) && Next(cfg, s, a) == Some(t)
    ensures Idle(t)
  {
    match a
    case Tick(delta) => IdleTick(cfg, s, delta, t);
    case By(c, w) => IdleWork(cfg, s, c, w, t);
    case Http(id, serve) => IdleHttp(cfg, s, id, serve, t);
    case _ => DeliveryFrame(cfg, s, a, t);
  }

  // Everybody entered the current step just now.
  ghost predicate OnTimeNow(s: State) {
    forall c :: c in s.handlers ==> s.handlers[c].since == s.now
  }

  lemma IdleWaits(cfg: Config, s: State, delta: nat)
    requires Idle(s) && OnTimeNow(s) && InTime(cfg, s, Tick(delta))
    ensures forall c :: c in s.handlers ==> delta == 0
  {
    forall c | c in s.handlers
      ensures delta == 0
    {
      assert delta > 0 ==> s.now + delta - s.handlers[c].since <= Allowance(cfg, s.handlers[c].pc);
    }
  }

  lemma IdleTick(cfg: Config, s: State, delta: nat, t: State)
    requires Idle(s) && OnTimeNow(s) && InTime(cfg, s, Tick(delta)) && Next(cfg, s, Tick(delta)) == Some(t)
    ensures Idle(t)
  {
    IdleWaits(cfg, s, delta);
  }

  lemma IdleHttp(cfg: Config, s: State, id: JobId, a: Serve, t: State)
    requires Idle(s) && cfg.jobTTL <= 0 && HttpStep(cfg, s, id, a) == Some(t)
    ensures Idle(t)
  {
    HttpAside(cfg, s, id, a, t);
    if a.Enqueue? {
      EnqueueJobs(cfg, s, id, a.reply);
      EnqueueGone(cfg, s, id, a.reply);
    } else {
      HttpQuiet(cfg, s, id, a, t);
    }
  }

  lemma EnqueueGone(cfg: Config, s: State, id: JobId, reply: Reply)
    requires id in s.requests && s.requests[id].phase.Adding? && s.db.jobs == map[] && cfg.jobTTL <= 0
    ensures EnqueueStep(cfg, s, id, reply).db.jobs == map[]
  {
  }

  // Settled steps of a handler are taken at once.
  lemma IdleIsNow(cfg: Config, s: State)
    requires Idle(s) && Punctual(cfg, s)
    ensures OnTimeNow(s)
  {
    forall c | c in s.handlers
      ensures s.handlers[c].since == s.now
    {
      assert OnTime(cfg, s.now, s.handlers[c]);
    }
  }

  lemma NothingAlive(cfg: Config, s: State, a: Action, t: State)
    requires Sound(cfg, s) && Idle(s) && PendingLater(s.handlers, s.db.pending) && 0 < cfg.claimMinIdle
    requires Next(cfg, s, a) == Some(t)
    ensures ClaimsIdleOnly(s, a)
  {
  }

  lemma {:induction false} IdleFrom(cfg: Config, s: State, acts: seq<Action>, t: State)
    requires Sane(cfg) && 0 < cfg.claimMinIdle && cfg.jobTTL <= 0
    requires Sound(cfg, s) && Gated(s) && Punctual(cfg, s) && Idle(s) && Run(cfg, Timed, s, acts, t)
    ensures Run(cfg, Exclusive, s, acts, t)
    decreases |acts|
  {
    if acts != [] {
      var n := Next(cfg, s, acts[0]).value;
      NothingAlive(cfg, s, acts[0], n);
      IdleIsNow(cfg, s);
      SoundStep(cfg, s, acts[0], n);
      GatedStep(cfg, s, acts[0], n);
      PunctualStep(cfg, s, acts[0], n);
      IdleStep(cfg, s, acts[0], n);
      IdleFrom(cfg, n, acts[1..], t);
    }
  }

  /** And with no time to live at all no timely run ever steals. */
  lemma NoRecordsNoStealing(cfg: Config, acts: seq<Action>, s: State)
    requires Sane(cfg) && 0 < cfg.claimMinIdle && cfg.jobTTL <= 0 && Run(cfg, Timed, START, acts, s)
    ensures Run(cfg, Exclusive, START, acts, s)
  {
    StartIsPunctual(cfg);
    IdleFrom(cfg, START, acts, s);
  }
}
