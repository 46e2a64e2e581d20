/** No accepted job is lost: what the stream and the hash together remember of a job. */
module Loss {
  import opened Wrappers
  import opened Jobs
  import opened Redis
  import opened Pipeline
  import opened Runs
  import opened Accounting

  // The end of the job is on record, or its record ran out at some point.
  ghost predicate Settled(db: Db, id: JobId) {
    id in db.expired || (id in db.jobs && db.jobs[id].rec.completedAt.Some?)
  }

  ghost predicate Lost(s: State, id: JobId) {
    id in s.past.sent && !Settled(s.db, id) && s.past.sent[id] !in s.db.entries
  }

  ghost predicate RecordsOk(db: Db, past: History) {
    && (forall id :: id in past.sent ==> id in db.expired || id in db.jobs)
    && (forall id :: id in db.jobs && Ended(db.jobs[id].rec) ==> db.jobs[id].rec.completedAt.Some?)
  }

  // A handler whose Redis calls all worked only gets to its ack once the job is settled.
  ghost predicate AcksOk(handlers: map<Consumer, Handler>, db: Db) {
    forall c :: c in handlers && handlers[c].pc.Acking? && !handlers[c].down ==> Settled(db, handlers[c].id)
  }

  ghost predicate NothingLost(s: State) {
    forall id :: id in s.past.sent ==> Settled(s.db, id) || s.past.sent[id] in s.db.entries
  }

  ghost predicate Settles(db: Db, db': Db) {
    forall id :: Settled(db, id) ==> Settled(db', id)
  }

  predicate PatchOk(patch: Record) {
    Ended(patch) ==> patch.completedAt.Some?
  }

  lemma UpdateKeeps(db: Db, past: History, id: JobId, patch: Record, now: Time, ttl: int)
    requires RecordsOk(db, past) && PatchOk(patch) && patch.status.Some?
    ensures RecordsOk(UpdateTx(db, id, patch, now, ttl), past)
    ensures Settles(db, UpdateTx(db, id, patch, now, ttl))
    ensures patch.completedAt.Some? ==> Settled(UpdateTx(db, id, patch, now, ttl), id)
    ensures id in UpdateTx(db, id, patch, now, ttl).jobs || id in UpdateTx(db, id, patch, now, ttl).expired
  {
  }

  lemma AdvanceKeeps(db: Db, past: History, now: Time)
    requires RecordsOk(db, past)
    ensures RecordsOk(Advance(db, now), past) && Settles(db, Advance(db, now))
  {
  }

  // What each step of a handler does to Redis.
  function DbAfter(cfg: Config, s: State, c: Consumer, w: Work): Db
    requires c in s.handlers
  {
    var h := s.handlers[c];
    match w
    case Mark(reply) => if Applied(reply) then UpdateTx(s.db, h.id, PROCESSING_PATCH, s.now, cfg.jobTTL) else s.db
    case Complete(reply) =>
      if Applied(reply) && h.pc.Completing?
      then UpdateTx(s.db, h.id, CompletedPatch(h.pc.body, s.now), s.now, cfg.jobTTL) else s.db
    case Fail(reply) =>
      if Applied(reply) && h.pc.Failing?
      then UpdateTx(s.db, h.id, FailedPatch(h.pc.cause, s.now), s.now, cfg.jobTTL) else s.db
    case Ack(reply) => if Applied(reply) then AckTx(s.db, h.mid) else s.db
    case _ => s.db
  }

  lemma WorkDb(cfg: Config, s: State, c: Consumer, w: Work, t: State)
    requires c in s.handlers && WorkStep(cfg, s, c, w) == Some(t)
    ensures t.db == DbAfter(cfg, s, c, w)
  {
  }

  lemma DbAfterKeeps(cfg: Config, s: State, c: Consumer, w: Work)
    requires c in s.handlers && RecordsOk(s.db, s.past)
    ensures RecordsOk(DbAfter(cfg, s, c, w), s.past) && Settles(s.db, DbAfter(cfg, s, c, w))
  {
    var h := s.handlers[c];
    match w
    case Mark(_) => UpdateKeeps(s.db, s.past, h.id, PROCESSING_PATCH, s.now, cfg.jobTTL);
    case Complete(_) =>
      if h.pc.Completing? {
        UpdateKeeps(s.db, s.past, h.id, CompletedPatch(h.pc.body, s.now), s.now, cfg.jobTTL);
      }
    case Fail(_) =>
      if h.pc.Failing? {
        UpdateKeeps(s.db, s.past, h.id, FailedPatch(h.pc.cause, s.now), s.now, cfg.jobTTL);
      }
    case _ =>
  }

  // How a handler comes to its ack.
  lemma ReachesAck(cfg: Config, s: State, h: Handler, w: Work)
    requires Fits(h.pc, w) && !w.Leave? && After(cfg, s, h, w).pc.Acking?
    ensures w.Get? || w.Complete? || w.Fail?
    ensures !After(cfg, s, h, w).down ==> ReplyOf(w) == Some(Done)
    ensures w == Get(Done) ==> h.id !in s.db.jobs || Ended(s.db.jobs[h.id].rec)
  {
  }

  lemma AckSettled(cfg: Config, s: State, c: Consumer, w: Work, t: State)
    requires c in s.handlers && WorkStep(cfg, s, c, w) == Some(t)
    requires RecordsOk(s.db, s.past) && s.handlers[c].id in s.past.sent
    requires c in t.handlers && t.handlers[c].pc.Acking? && !t.handlers[c].down
    ensures Settled(t.db, s.handlers[c].id)
  {
    var h := s.handlers[c];
    WorkDb(cfg, s, c, w, t);
    HandlerMoves(cfg, s, c, w, t);
    ReachesAck(cfg, s, h, w);
    match w
    case Complete(_) => UpdateKeeps(s.db, s.past, h.id, CompletedPatch(h.pc.body, s.now), s.now, cfg.jobTTL);
    case Fail(_) => UpdateKeeps(s.db, s.past, h.id, FailedPatch(h.pc.cause, s.now), s.now, cfg.jobTTL);
    case _ =>
  }

  ghost predicate Recorded(s: State) {
    RecordsOk(s.db, s.past) && AcksOk(s.handlers, s.db)
  }

  lemma AcksKept(handlers: map<Consumer, Handler>, db: Db, db': Db)
    requires AcksOk(handlers, db) && Settles(db, db')
    ensures AcksOk(handlers, db')
  {
  }

  lemma RecordedWork(cfg: Config, s: State, c: Consumer, w: Work, t: State)
    requires Recorded(s) && Sound(cfg, s) && c in s.handlers && WorkStep(cfg, s, c, w) == Some(t)
    ensures Recorded(t) && Settles(s.db, t.db)
  {
    WorkFrame(cfg, s, c, w, t);
    WorkDb(cfg, s, c, w, t);
    DbAfterKeeps(cfg, s, c, w);
    assert Carried(s.db, s.past, s.handlers[c].mid, s.handlers[c].id);
    if c in t.handlers && t.handlers[c].pc.Acking? && !t.handlers[c].down {
      AckSettled(cfg, s, c, w, t);
    }
    AcksKept(s.handlers, s.db, t.db);
  }

  lemma RecordedEnqueue(cfg: Config, s: State, id: JobId, reply: Reply)
    requires Recorded(s) && id in s.requests && s.requests[id].phase.Adding?
    ensures var t := EnqueueStep(cfg, s, id, reply); Recorded(t) && Settles(s.db, t.db)
  {
    var r := s.requests[id];
    var t := EnqueueStep(cfg, s, id, reply);
    if Applied(reply) {
      var rec := QueuedRecord(r.source, r.url, r.language, s.now);
      UpdateKeeps(s.db, s.past, id, rec, s.now, cfg.jobTTL);
      assert t.past.sent == s.past.sent[id := s.db.nextId];
      assert t.db.jobs == UpdateTx(s.db, id, rec, s.now, cfg.jobTTL).jobs;
      assert t.db.expired == UpdateTx(s.db, id, rec, s.now, cfg.jobTTL).expired;
    }
    AcksKept(s.handlers, s.db, t.db);
  }

  lemma RecordedSame(s: State, t: State)
    requires Recorded(s) && t.db.jobs == s.db.jobs && t.db.expired == s.db.expired && t.past.sent == s.past.sent
    requires forall c :: c in t.handlers ==>
      (c in s.handlers && t.handlers[c] == s.handlers[c]) || t.handlers[c].pc.Getting?
    ensures Recorded(t) && Settles(s.db, t.db)
  {
    assert forall id :: Settled(s.db, id) == Settled(t.db, id);
  }

  lemma RecordedStep(cfg: Config, s: State, a: Action, t: State)
    requires Recorded(s) && Sound(cfg, s) && Next(cfg, s, a) == Some(t)
    ensures Recorded(t) && Settles(s.db, t.db)
  {
    match a
    case Tick(delta) => RecordedTick(s, delta);
    case By(c, w) => RecordedWork(cfg, s, c, w, t);
    case Http(id, serve) => RecordedHttp(cfg, s, id, serve, t);
    case _ =>
      DeliveryFrame(cfg, s, a, t);
      RecordedSame(s, t);
  }

  lemma RecordedTick(s: State, delta: nat)
    requires Recorded(s)
    ensures var t := s.(now := s.now + delta, db := Advance(s.db, s.now + delta));
            Recorded(t) && Settles(s.db, t.db)
  {
    AdvanceKeeps(s.db, s.past, s.now + delta);
    AcksKept(s.handlers, s.db, Advance(s.db, s.now + delta));
  }

  lemma RecordedHttp(cfg: Config, s: State, id: JobId, a: Serve, t: State)
    requires Recorded(s) && HttpStep(cfg, s, id, a) == Some(t)
    ensures Recorded(t) && Settles(s.db, t.db)
  {
    if a.Enqueue? {
      RecordedEnqueue(cfg, s, id, a.reply);
    } else {
      HttpQuiet(cfg, s, id, a, t);
    }
  }

  lemma {:induction false} RecordedRun(cfg: Config, p: Policy, s: State, acts: seq<Action>, t: State)
    requires Recorded(s) && Sound(cfg, s) && Run(cfg, p, s, acts, t)
    ensures Recorded(t) && Sound(cfg, t)
    decreases |acts|
  {
    if acts != [] {
      var n := Next(cfg, s, acts[0]).value;
      SoundStep(cfg, s, acts[0], n);
      RecordedStep(cfg, s, acts[0], n);
      RecordedRun(cfg, p, n, acts[1..], t);
    }
  }

  // Only an applied ack takes an entry out of the stream, and it takes the handler's own.
  lemma WorkRemoves(cfg: Config, s: State, c: Consumer, w: Work, t: State, m: MsgId)
    requires c in s.handlers && WorkStep(cfg, s, c, w) == Some(t) && m in s.db.entries && m !in t.db.entries
    ensures w.Ack? && Applied(w.reply) && s.handlers[c].mid == m && t.db == AckTx(s.db, m)
  {
    WorkDb(cfg, s, c, w, t);
  }

  lemma OnlyAckRemoves(cfg: Config, s: State, a: Action, t: State, m: MsgId)
    requires Next(cfg, s, a) == Some(t) && m in s.db.entries && m !in t.db.entries
    ensures a.By? && a.work.Ack? && Applied(a.work.reply) && a.who in s.handlers && s.handlers[a.who].mid == m
    ensures t.db == AckTx(s.db, m)
  {
    match a
    case By(c, w) => WorkRemoves(cfg, s, c, w, t, m);
    case Http(id, serve) => HttpKeepsEntries(cfg, s, id, serve, t);
    case Tick(_) =>
    case _ => DeliveryFrame(cfg, s, a, t);
  }

  // `a` acknowledges the message of job `id` on behalf of a handler that has seen a Redis call fail.
  ghost predicate AcksBlindly(s: State, a: Action, id: JobId) {
    && a.By? && a.work.Ack? && Applied(a.work.reply)
    && a.who in s.handlers && s.handlers[a.who].id == id && s.handlers[a.who].down
  }

  /** With no assumption at all, the one step that can lose a job is an ack that reaches Redis from
      a handler that saw an earlier Redis call fail, while the end of the job is not on record;
      and every such step does lose it. */
  lemma LostExactly(cfg: Config, acts: seq<Action>, s: State, a: Action, t: State, id: JobId)
    requires Run(cfg, Any, START, acts, s) && Next(cfg, s, a) == Some(t)
    requires id in s.past.sent && !Lost(s, id)
    ensures Lost(t, id) <==> AcksBlindly(s, a, id) && !Settled(s.db, id)
  {
    RecordedRun(cfg, Any, START, acts, s);
    LostAtStep(cfg, s, a, t, id);
  }

  // Only an applied enqueue sends a message, and it sends one.
  lemma Sends(cfg: Config, s: State, id: JobId, a: Serve, t: State)
    requires HttpStep(cfg, s, id, a) == Some(t)
    ensures t.past.sent == if a.Enqueue? && Applied(a.reply) then s.past.sent[id := s.db.nextId] else s.past.sent
  {
    if a.Enqueue? {
      EnqueueSends(cfg, s, id, a.reply);
    } else {
      HttpQuiet(cfg, s, id, a, t);
    }
  }

  lemma EnqueueSends(cfg: Config, s: State, id: JobId, reply: Reply)
    requires id in s.requests && s.requests[id].phase.Adding?
    ensures var t := EnqueueStep(cfg, s, id, reply);
            && t.past.sent == (if Applied(reply) then s.past.sent[id := s.db.nextId] else s.past.sent)
            && t.db.entries == (if Applied(reply) then s.db.entries[s.db.nextId := id] else s.db.entries)
  {
  }

  lemma SentStays(cfg: Config, s: State, a: Action, t: State, id: JobId)
    requires Sound(cfg, s) && Next(cfg, s, a) == Some(t) && id in s.past.sent
    ensures id in t.past.sent && t.past.sent[id] == s.past.sent[id]
  {
    match a
    case By(c, w) => WorkFrame(cfg, s, c, w, t);
    case Http(i, serve) => Sends(cfg, s, i, serve, t);
    case Tick(_) =>
    case _ => DeliveryFrame(cfg, s, a, t);
  }

  lemma LostAtStep(cfg: Config, s: State, a: Action, t: State, id: JobId)
    requires Sound(cfg, s) && Recorded(s) && Next(cfg, s, a) == Some(t)
    requires id in s.past.sent && !Lost(s, id)
    ensures Lost(t, id) <==> AcksBlindly(s, a, id) && !Settled(s.db, id)
  {
    SentStays(cfg, s, a, t, id);
    RecordedStep(cfg, s, a, t);
    if Lost(t, id) {
      LostByAck(cfg, s, a, t, id);
    }
    if AcksBlindly(s, a, id) && !Settled(s.db, id) {
      BlindAckLoses(cfg, s, a, t, id);
    }
  }

  lemma LostByAck(cfg: Config, s: State, a: Action, t: State, id: JobId)
    requires Sound(cfg, s) && AcksOk(s.handlers, s.db) && Next(cfg, s, a) == Some(t)
    requires id in s.past.sent && !Settled(s.db, id)
    requires s.past.sent[id] in s.db.entries && s.past.sent[id] !in t.db.entries
    ensures AcksBlindly(s, a, id)
  {
    OnlyAckRemoves(cfg, s, a, t, s.past.sent[id]);
    HandlerMoves(cfg, s, a.who, a.work, t);
    assert Carried(s.db, s.past, s.past.sent[id], s.handlers[a.who].id);
  }

  lemma BlindAckLoses(cfg: Config, s: State, a: Action, t: State, id: JobId)
    requires Sound(cfg, s) && AcksBlindly(s, a, id) && !Settled(s.db, id) && Next(cfg, s, a) == Some(t)
    ensures id in s.past.sent && !Settled(t.db, id) && s.past.sent[id] !in t.db.entries
  {
    WorkDb(cfg, s, a.who, a.work, t);
    assert Carried(s.db, s.past, s.handlers[a.who].mid, id);
  }

  lemma KeptStep(cfg: Config, s: State, a: Action, t: State)
    requires Sound(cfg, s) && Recorded(s) && NothingLost(s) && FailsStop(s, a) && Next(cfg, s, a) == Some(t)
    ensures NothingLost(t)
  {
    forall id | id in t.past.sent
      ensures Settled(t.db, id) || t.past.sent[id] in t.db.entries
    {
      KeptJob(cfg, s, a, t, id);
    }
  }

  lemma NoneBlind(s: State, a: Action, id: JobId)
    requires FailsStop(s, a)
    ensures !AcksBlindly(s, a, id)
  {
  }

  lemma KeptJob(cfg: Config, s: State, a: Action, t: State, id: JobId)
    requires Sound(cfg, s) && Recorded(s) && NothingLost(s) && FailsStop(s, a) && Next(cfg, s, a) == Some(t)
    requires id in t.past.sent
    ensures Settled(t.db, id) || t.past.sent[id] in t.db.entries
  {
    NoneBlind(s, a, id);
    if id in s.past.sent {
      LostAtStep(cfg, s, a, t, id);
    } else {
      NewlySent(cfg, s, a, t, id);
    }
  }

  lemma NewlySent(cfg: Config, s: State, a: Action, t: State, id: JobId)
    requires Next(cfg, s, a) == Some(t) && id !in s.past.sent && id in t.past.sent
    ensures t.past.sent[id] in t.db.entries
  {
    match a
    case By(c, w) => WorkFrame(cfg, s, c, w, t);
    case Http(i, serve) =>
      Sends(cfg, s, i, serve, t);
      EnqueueSends(cfg, s, i, serve.reply);
    case Tick(_) =>
    case _ => DeliveryFrame(cfg, s, a, t);
  }

  lemma {:induction false} KeptRun(cfg: Config, s: State, acts: seq<Action>, t: State)
    requires Sound(cfg, s) && Recorded(s) && NothingLost(s) && Run(cfg, FailStop, s, acts, t)
    ensures NothingLost(t)
    decreases |acts|
  {
    if acts != [] {
      var n := Next(cfg, s, acts[0]).value;
      SoundStep(cfg, s, acts[0], n);
      RecordedStep(cfg, s, acts[0], n);
      KeptStep(cfg, s, acts[0], n);
      KeptRun(cfg, n, acts[1..], t);
    }
  }

  /** When a handler whose Redis call has failed gets no later call through, no interleaving of
      workers, claimer, requests, crashes and duplicate deliveries loses a job: every enqueued job
      whose record never ran out still has its message in the stream or its end on record. */
  lemma NoAcceptedJobIsLost(cfg: Config, acts: seq<Action>, s: State, id: JobId)
    requires Run(cfg, FailStop, START, acts, s)
    requires id in s.past.sent && id !in s.db.expired
    ensures id in s.db.jobs
    ensures s.past.sent[id] in s.db.entries || s.db.jobs[id].rec.completedAt.Some?
  {
    RecordedRun(cfg, FailStop, START, acts, s);
    KeptRun(cfg, START, acts, s);
  }
}
