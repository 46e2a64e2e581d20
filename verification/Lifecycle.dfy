/** The life of a job record when no message is claimed under a live handler. */
module Lifecycle {
  import opened Wrappers
  import opened Jobs
  import opened Redis
  import opened Pipeline
  import opened Runs
  import opened Accounting
  import opened Loss

  // From the read that found the job unfinished up to the write of its end.
  predicate Working(pc: Pc) {
    !pc.Getting? && !pc.Acking? && !pc.Dropping? && !pc.Wiping? && !pc.Leaving?
  }

  // A record holds a result only when completed, an error only when failed, and never both.
  predicate Shaped(rec: Record) {
    match rec.status
    case None => false
    case Some(Completed) => rec.result.Some? && rec.error.None? && rec.completedAt.Some?
    case Some(Failed) => rec.result.None? && rec.error.Some? && rec.completedAt.Some?
    case Some(_) => rec.result.None? && rec.error.None? && rec.completedAt.None?
  }

  ghost predicate Alone(handlers: map<Consumer, Handler>, batch: seq<Message>) {
    && (forall c, d :: c in handlers && d in handlers && c != d ==> handlers[c].mid != handlers[d].mid)
    && (forall c, i :: c in handlers && 0 <= i < |batch| ==> handlers[c].mid != batch[i].mid)
    && (forall i, j :: 0 <= i < j < |batch| ==> batch[i].mid != batch[j].mid)
  }

  // No two handlers work on one message.
  ghost predicate OneWorks(handlers: map<Consumer, Handler>) {
    forall c, d ::
      (c in handlers && d in handlers && Working(handlers[c].pc) && Working(handlers[d].pc) && handlers[c].mid == handlers[d].mid)
      ==> c == d
  }

  ghost predicate LifeOk(handlers: map<Consumer, Handler>, db: Db, past: History) {
    && (forall id :: id in db.jobs ==> Shaped(db.jobs[id].rec) && id in past.sent)
    && (forall c :: c in handlers && Working(handlers[c].pc) && handlers[c].id in db.jobs
          ==> !Ended(db.jobs[handlers[c].id].rec))
  }

  predicate SameRequest(was: Record, now: Record) {
    was.source == now.source && was.url == now.url && was.language == now.language && was.createdAt == now.createdAt
  }

  // What one step may do to the record of a job: keep it, move it forward, or let it run out.
  predicate Evolves(db: Db, db': Db, id: JobId) {
    id in db.jobs ==>
      if id !in db'.jobs then id in db'.expired
      else
        var was := db.jobs[id].rec;
        var now := db'.jobs[id].rec;
        now == was || (!Ended(was) && (Ended(now) || now.status == Some(Processing)) && SameRequest(was, now))
  }

  lemma AloneRead(cfg: Config, s: State, w: nat, mid: MsgId, reply: Reply, t: State)
    requires Sound(cfg, s) && Alone(s.handlers, s.batch) && ReadStep(cfg, s, w, mid, reply) == Some(t)
    ensures Alone(t.handlers, t.batch)
  {
    forall c | c in s.handlers
      ensures s.handlers[c].mid != mid
    {
      assert Carried(s.db, s.past, s.handlers[c].mid, s.handlers[c].id);
    }
    forall i | 0 <= i < |s.batch|
      ensures s.batch[i].mid != mid
    {
      assert s.batch[i] in s.batch;
      assert Carried(s.db, s.past, s.batch[i].mid, s.batch[i].id);
    }
  }

  lemma AloneClaim(cfg: Config, s: State, ms: seq<MsgId>, reply: Reply, t: State)
    requires Alone(s.handlers, s.batch) && ClaimStep(cfg, s, ms, reply) == Some(t)
    requires forall c :: c in s.handlers ==> s.handlers[c].mid !in ms
    ensures Alone(t.handlers, t.batch)
  {
    if reply.Done? {
      assert |t.batch| == |ms| && forall i :: 0 <= i < |ms| ==> t.batch[i].mid == ms[i];
    }
  }

  lemma AloneWork(s: State, c: Consumer, t: State)
    requires Alone(s.handlers, s.batch) && c in s.handlers && OnlyHandler(s, c, t)
    ensures Alone(t.handlers, t.batch)
  {
    assert forall d :: d in t.handlers ==> d in s.handlers && t.handlers[d].mid == s.handlers[d].mid;
  }

  lemma AloneStep(cfg: Config, s: State, a: Action, t: State)
    requires Sound(cfg, s) && Alone(s.handlers, s.batch) && ClaimsIdleOnly(s, a) && Next(cfg, s, a) == Some(t)
    ensures Alone(t.handlers, t.batch)
  {
    match a
    case Read(w, mid, reply) => AloneRead(cfg, s, w, mid, reply, t);
    case Claim(ms, reply) => AloneClaim(cfg, s, ms, reply, t);
    case By(c, w) =>
      WorkFrame(cfg, s, c, w, t);
      AloneWork(s, c, t);
    case Http(id, serve) => HttpAloof(cfg, s, id, serve, t);
    case _ =>
  }

  lemma HttpAloof(cfg: Config, s: State, id: JobId, a: Serve, t: State)
    requires HttpStep(cfg, s, id, a) == Some(t)
    ensures t.handlers == s.handlers && t.batch == s.batch
  {
  }

  lemma UpdateEvolves(db: Db, id: JobId, patch: Record, now: Time, ttl: int)
    requires forall i :: i in db.jobs ==> Shaped(db.jobs[i].rec)
    requires id in db.jobs ==> !Ended(db.jobs[id].rec)
    requires patch == PROCESSING_PATCH || (exists b :: patch == CompletedPatch(b, now)) || (exists c :: patch == FailedPatch(c, now))
    ensures var db' := UpdateTx(db, id, patch, now, ttl);
            && (forall i :: i in db'.jobs ==> Shaped(db'.jobs[i].rec) && (i in db.jobs || i == id))
            && (forall i :: Evolves(db, db', i))
            && (forall i :: i != id && i in db'.jobs ==> i in db.jobs && db'.jobs[i] == db.jobs[i])
            && (id in db'.jobs ==> Ended(db'.jobs[id].rec) == Ended(patch))
  {
  }

  ghost predicate Kindly(db: Db, db': Db, id: JobId) {
    && (forall i :: i in db'.jobs ==> Shaped(db'.jobs[i].rec) && (i in db.jobs || i == id))
    && (forall i :: Evolves(db, db', i))
    && (forall i :: i != id && i in db'.jobs ==> i in db.jobs && db'.jobs[i] == db.jobs[i])
  }

  // What an applied write of a handler puts into the record.
  function PatchOf(s: State, h: Handler, w: Work): Option<Record> {
    match w
    case Mark(reply) => if Applied(reply) then Some(PROCESSING_PATCH) else None
    case Complete(reply) =>
      if Applied(reply) && h.pc.Completing? then Some(CompletedPatch(h.pc.body, s.now)) else None
    case Fail(reply) => if Applied(reply) && h.pc.Failing? then Some(FailedPatch(h.pc.cause, s.now)) else None
    case _ => None
  }

  // Nothing else a handler does touches a record.
  lemma PatchedDb(cfg: Config, s: State, c: Consumer, w: Work, t: State)
    requires c in s.handlers && WorkStep(cfg, s, c, w) == Some(t)
    ensures match PatchOf(s, s.handlers[c], w)
            case Some(patch) => t.db == UpdateTx(s.db, s.handlers[c].id, patch, s.now, cfg.jobTTL)
            case None => t.db.jobs == s.db.jobs && t.db.expired == s.db.expired
  {
    WorkDb(cfg, s, c, w, t);
  }

  lemma WriteEvolves(cfg: Config, s: State, c: Consumer, w: Work, t: State)
    requires c in s.handlers && WorkStep(cfg, s, c, w) == Some(t) && LifeOk(s.handlers, s.db, s.past)
    ensures Kindly(s.db, t.db, s.handlers[c].id)
  {
    HandlerMoves(cfg, s, c, w, t);
    PatchedDb(cfg, s, c, w, t);
    match PatchOf(s, s.handlers[c], w)
    case None =>
    case Some(patch) => UpdateEvolves(s.db, s.handlers[c].id, patch, s.now, cfg.jobTTL);
  }

  // A handler that goes on working after a step has not seen its job end.
  lemma StillWorking(cfg: Config, s: State, c: Consumer, w: Work, t: State)
    requires c in s.handlers && WorkStep(cfg, s, c, w) == Some(t)
    requires LifeOk(s.handlers, s.db, s.past)
    requires c in t.handlers && Working(t.handlers[c].pc) && s.handlers[c].id in t.db.jobs
    ensures !Ended(t.db.jobs[s.handlers[c].id].rec)
  {
    WorkDb(cfg, s, c, w, t);
    HandlerMoves(cfg, s, c, w, t);
    if w.Get? {
      assert t.handlers[c].pc.Marking?;
    } else {
      StaysWorking(cfg, s, s.handlers[c], w);
    }
  }

  lemma StaysWorking(cfg: Config, s: State, h: Handler, w: Work)
    requires Fits(h.pc, w) && !w.Leave? && Working(After(cfg, s, h, w).pc) && !w.Get?
    ensures Working(h.pc) && !w.Complete? && !w.Fail? && !w.Ack?
  {
  }

  // Only a handler at work writes.
  lemma WriterWorks(cfg: Config, s: State, c: Consumer, w: Work, t: State)
    requires c in s.handlers && WorkStep(cfg, s, c, w) == Some(t) && !Working(s.handlers[c].pc)
    ensures t.db.jobs == s.db.jobs
  {
    HandlerMoves(cfg, s, c, w, t);
    PatchedDb(cfg, s, c, w, t);
  }

  // A step leaves the record of another handler at work alone.
  lemma OtherUnended(cfg: Config, s: State, c: Consumer, w: Work, t: State, d: Consumer)
    requires Sound(cfg, s) && OneWorks(s.handlers) && LifeOk(s.handlers, s.db, s.past)
    requires c in s.handlers && WorkStep(cfg, s, c, w) == Some(t) && Kindly(s.db, t.db, s.handlers[c].id)
    requires d in s.handlers && d != c && Working(s.handlers[d].pc) && s.handlers[d].id in t.db.jobs
    ensures !Ended(t.db.jobs[s.handlers[d].id].rec)
  {
    if Working(s.handlers[c].pc) {
      assert Carried(s.db, s.past, s.handlers[c].mid, s.handlers[c].id);
      assert Carried(s.db, s.past, s.handlers[d].mid, s.handlers[d].id);
    } else {
      WriterWorks(cfg, s, c, w, t);
    }
  }

  lemma LifeWork(cfg: Config, s: State, c: Consumer, w: Work, t: State)
    requires c in s.handlers && WorkStep(cfg, s, c, w) == Some(t)
    requires Sound(cfg, s) && OneWorks(s.handlers) && LifeOk(s.handlers, s.db, s.past)
    ensures LifeOk(t.handlers, t.db, t.past) && forall i :: Evolves(s.db, t.db, i)
  {
    WorkFrame(cfg, s, c, w, t);
    WriteEvolves(cfg, s, c, w, t);
    assert Carried(s.db, s.past, s.handlers[c].mid, s.handlers[c].id);
    forall d | d in t.handlers && Working(t.handlers[d].pc) && t.handlers[d].id in t.db.jobs
      ensures !Ended(t.db.jobs[t.handlers[d].id].rec)
    {
      if d == c {
        StillWorking(cfg, s, c, w, t);
      } else {
        OtherUnended(cfg, s, c, w, t, d);
      }
    }
  }

  lemma EnqueueFresh(db: Db, id: JobId, source: Source, url: string, language: string, now: Time, ttl: int)
    requires id !in db.jobs && forall i :: i in db.jobs ==> Shaped(db.jobs[i].rec)
    ensures Kindly(db, EnqueueTx(db, id, QueuedRecord(source, url, language, now), now, ttl), id)
  {
  }

  lemma LifeSent(cfg: Config, s: State, id: JobId, r: Request, t: State)
    requires Sound(cfg, s) && LifeOk(s.handlers, s.db, s.past) && id !in s.past.sent
    requires t.db == EnqueueTx(s.db, id, QueuedRecord(r.source, r.url, r.language, s.now), s.now, cfg.jobTTL)
    requires t.past.sent == s.past.sent[id := s.db.nextId] && t.handlers == s.handlers
    ensures LifeOk(t.handlers, t.db, t.past) && forall i :: Evolves(s.db, t.db, i)
  {
    EnqueueFresh(s.db, id, r.source, r.url, r.language, s.now, cfg.jobTTL);
    forall c | c in s.handlers
      ensures s.handlers[c].id != id
    {
      assert Carried(s.db, s.past, s.handlers[c].mid, s.handlers[c].id);
    }
  }

  lemma LifeEnqueue(cfg: Config, s: State, id: JobId, reply: Reply)
    requires id in s.requests && s.requests[id].phase.Adding? && Applied(reply)
    requires Sound(cfg, s) && LifeOk(s.handlers, s.db, s.past)
    ensures var t := EnqueueStep(cfg, s, id, reply);
            LifeOk(t.handlers, t.db, t.past) && forall i :: Evolves(s.db, t.db, i)
  {
    EnqueueParts(cfg, s, id, reply);
    LifeSent(cfg, s, id, s.requests[id], EnqueueStep(cfg, s, id, reply));
  }

  lemma LifeStep(cfg: Config, s: State, a: Action, t: State)
    requires Sound(cfg, s) && OneWorks(s.handlers) && LifeOk(s.handlers, s.db, s.past)
    requires Next(cfg, s, a) == Some(t)
    ensures LifeOk(t.handlers, t.db, t.past) && forall i :: Evolves(s.db, t.db, i)
  {
    match a
    case Tick(_) =>
    case By(c, w) => LifeWork(cfg, s, c, w, t);
    case Http(id, serve) =>
      if serve.Enqueue? && Applied(serve.reply) {
        LifeEnqueue(cfg, s, id, serve.reply);
      } else {
        HttpQuiet(cfg, s, id, serve, t);
      }
    case _ => DeliveryFrame(cfg, s, a, t);
  }

  ghost predicate Orderly(cfg: Config, s: State) {
    Sound(cfg, s) && Alone(s.handlers, s.batch) && LifeOk(s.handlers, s.db, s.past)
  }

  lemma OrderlyStep(cfg: Config, s: State, a: Action, t: State)
    requires Orderly(cfg, s) && ClaimsIdleOnly(s, a) && Next(cfg, s, a) == Some(t)
    ensures Orderly(cfg, t) && forall id :: Evolves(s.db, t.db, id)
  {
    SoundStep(cfg, s, a, t);
    AloneStep(cfg, s, a, t);
    LifeStep(cfg, s, a, t);
  }

  lemma {:induction false} OrderlyRun(cfg: Config, s: State, acts: seq<Action>, t: State)
    requires Orderly(cfg, s) && Run(cfg, Exclusive, s, acts, t)
    ensures Orderly(cfg, t)
    decreases |acts|
  {
    if acts != [] {
      var n := Next(cfg, s, acts[0]).value;
      OrderlyStep(cfg, s, acts[0], n);
      OrderlyRun(cfg, n, acts[1..], t);
    }
  }

  lemma StartIsOrderly(cfg: Config)
    ensures Orderly(cfg, START)
  {
  }

  /** While no message is claimed under a live handler, across crashes and redeliveries: each step
      keeps a record, moves it from queued to processing or from either to completed or failed, or
      lets it run out; and no record ever holds both a result and an error. */
  lemma StatusOnlyMovesForward(cfg: Config, acts: seq<Action>, s: State, a: Action, t: State, id: JobId)
    requires Run(cfg, Exclusive, START, acts, s)
    requires Allows(cfg, Exclusive, s, a) && Next(cfg, s, a) == Some(t)
    ensures Evolves(s.db, t.db, id)
    ensures id in t.db.jobs ==> Shaped(t.db.jobs[id].rec)
  {
    StartIsOrderly(cfg);
    OrderlyRun(cfg, START, acts, s);
    OrderlyStep(cfg, s, a, t);
  }

  lemma {:induction false} FrozenFrom(cfg: Config, s: State, acts: seq<Action>, t: State, id: JobId)
    requires Orderly(cfg, s) && Run(cfg, Exclusive, s, acts, t)
    requires id in s.db.jobs && Ended(s.db.jobs[id].rec) && id !in t.db.expired
    ensures id in t.db.jobs && t.db.jobs[id].rec == s.db.jobs[id].rec
    decreases |acts|
  {
    if acts != [] {
      var n := Next(cfg, s, acts[0]).value;
      OrderlyStep(cfg, s, acts[0], n);
      if id in n.db.expired {
        ExpiredStays(cfg, n, acts[1..], t, Exclusive, id);
      } else {
        assert Evolves(s.db, n.db, id);
        FrozenFrom(cfg, n, acts[1..], t, id);
      }
    }
  }

  /** A completed or failed record stays exactly as it is until it runs out. */
  lemma EndIsFrozen(cfg: Config, before: seq<Action>, s: State, after: seq<Action>, t: State, id: JobId)
    requires Run(cfg, Exclusive, START, before, s) && Run(cfg, Exclusive, s, after, t)
    requires id in s.db.jobs && Ended(s.db.jobs[id].rec) && id !in t.db.expired
    ensures id in t.db.jobs && t.db.jobs[id].rec == s.db.jobs[id].rec
  {
    StartIsOrderly(cfg);
    OrderlyRun(cfg, START, before, s);
    FrozenFrom(cfg, s, after, t, id);
  }

  lemma {:induction false} ExpiredStays(cfg: Config, s: State, acts: seq<Action>, t: State, p: Policy, id: JobId)
    requires Run(cfg, p, s, acts, t) && id in s.db.expired
    ensures id in t.db.expired
    decreases |acts|
  {
    if acts != [] {
      var n := Next(cfg, s, acts[0]).value;
      ExpiredStep(cfg, s, acts[0], n, id);
      ExpiredStays(cfg, n, acts[1..], t, p, id);
    }
  }

  lemma ExpiredStep(cfg: Config, s: State, a: Action, t: State, id: JobId)
    requires Next(cfg, s, a) == Some(t) && id in s.db.expired
    ensures id in t.db.expired
  {
    match a
    case Tick(_) =>
    case By(c, w) => WorkDb(cfg, s, c, w, t);
    case Http(i, serve) => HttpExpired(cfg, s, i, serve, t, id);
    case _ => DeliveryFrame(cfg, s, a, t);
  }

  lemma HttpExpired(cfg: Config, s: State, i: JobId, a: Serve, t: State, id: JobId)
    requires HttpStep(cfg, s, i, a) == Some(t) && id in s.db.expired
    ensures id in t.db.expired
  {
    if !a.Enqueue? {
      HttpQuiet(cfg, s, i, a, t);
    }
  }

  // A record is only ever created by the enqueue of its job.
  ghost predicate JobsSent(db: Db, past: History) {
    forall id :: id in db.jobs ==> id in past.sent
  }

  lemma PatchedSent(cfg: Config, s: State, c: Consumer, w: Work, t: State)
    requires Sound(cfg, s) && JobsSent(s.db, s.past) && c in s.handlers && WorkStep(cfg, s, c, w) == Some(t)
    ensures JobsSent(t.db, t.past)
  {
    WorkFrame(cfg, s, c, w, t);
    PatchedDb(cfg, s, c, w, t);
    assert Carried(s.db, s.past, s.handlers[c].mid, s.handlers[c].id);
  }

  lemma EnqueueJobs(cfg: Config, s: State, id: JobId, reply: Reply)
    requires id in s.requests && s.requests[id].phase.Adding?
    ensures var t := EnqueueStep(cfg, s, id, reply);
            && (forall i :: i != id ==> (i in t.db.jobs <==> i in s.db.jobs))
            && (forall i :: i != id && i in t.db.jobs ==> t.db.jobs[i] == s.db.jobs[i])
            && (id !in s.db.jobs && id in t.db.jobs ==>
                  Applied(reply) && t.db.jobs[id].rec.result.None? && t.db.jobs[id].rec.error.None?)
  {
  }

  lemma HttpSent(cfg: Config, s: State, id: JobId, a: Serve, t: State)
    requires JobsSent(s.db, s.past) && HttpStep(cfg, s, id, a) == Some(t)
    ensures JobsSent(t.db, t.past)
  {
    Sends(cfg, s, id, a, t);
    if a.Enqueue? {
      EnqueueJobs(cfg, s, id, a.reply);
    } else {
      HttpQuiet(cfg, s, id, a, t);
    }
  }

  lemma JobsSentStep(cfg: Config, s: State, a: Action, t: State)
    requires Sound(cfg, s) && JobsSent(s.db, s.past) && Next(cfg, s, a) == Some(t)
    ensures JobsSent(t.db, t.past)
  {
    match a
    case Tick(_) =>
    case By(c, w) => PatchedSent(cfg, s, c, w, t);
    case Http(id, serve) => HttpSent(cfg, s, id, serve, t);
    case _ => DeliveryFrame(cfg, s, a, t);
  }

  lemma {:induction false} JobsSentRun(cfg: Config, p: Policy, s: State, acts: seq<Action>, t: State)
    requires Sound(cfg, s) && JobsSent(s.db, s.past) && Run(cfg, p, s, acts, t)
    ensures Sound(cfg, t) && JobsSent(t.db, t.past)
    decreases |acts|
  {
    if acts != [] {
      var n := Next(cfg, s, acts[0]).value;
      SoundStep(cfg, s, acts[0], n);
      JobsSentStep(cfg, s, acts[0], n);
      JobsSentRun(cfg, p, n, acts[1..], t);
    }
  }

  // A step that cannot be a write of a handler keeps, or lets run out, every record there is.
  lemma AsideEvolves(cfg: Config, s: State, a: Action, t: State, id: JobId)
    requires Sound(cfg, s) && JobsSent(s.db, s.past) && Next(cfg, s, a) == Some(t) && !a.By? && id in s.db.jobs
    ensures if id in t.db.jobs then t.db.jobs[id] == s.db.jobs[id] else id in t.db.expired
  {
    match a
    case Tick(_) =>
    case Http(i, serve) =>
      if serve.Enqueue? {
        EnqueueJobs(cfg, s, i, serve.reply);
      } else {
        HttpQuiet(cfg, s, i, serve, t);
      }
    case _ => DeliveryFrame(cfg, s, a, t);
  }

  // Step `a` is an applied write of a handler of job `id`, whose record has ended, and changes it.
  ghost predicate Overwrites(cfg: Config, s: State, a: Action, id: JobId) {
    && a.By? && a.who in s.handlers && s.handlers[a.who].id == id && cfg.jobTTL > 0
    && id in s.db.jobs && Ended(s.db.jobs[id].rec)
    && match PatchOf(s, s.handlers[a.who], a.work) {
         case Some(patch) => Over(s.db.jobs[id].rec, patch) != s.db.jobs[id].rec
         case None => false
       }
  }

  lemma UpdateEvolvesIff(db: Db, i: JobId, patch: Record, now: Time, ttl: int, id: JobId)
    requires patch == PROCESSING_PATCH || (exists b :: patch == CompletedPatch(b, now)) || (exists c :: patch == FailedPatch(c, now))
    ensures !Evolves(db, UpdateTx(db, i, patch, now, ttl), id) <==>
            i == id && ttl > 0 && id in db.jobs && Ended(db.jobs[id].rec) && Over(db.jobs[id].rec, patch) != db.jobs[id].rec
  {
  }

  /** With no assumption at all, the one step that takes a record backwards is a write that reaches
      Redis, from a handler of the job, after the record has ended, and that changes it; and every
      such step does take it backwards. */
  lemma RegressesExactly(cfg: Config, acts: seq<Action>, s: State, a: Action, t: State, id: JobId)
    requires Run(cfg, Any, START, acts, s) && Next(cfg, s, a) == Some(t)
    ensures !Evolves(s.db, t.db, id) <==> Overwrites(cfg, s, a, id)
  {
    JobsSentRun(cfg, Any, START, acts, s);
    if a.By? {
      RegressesByWrite(cfg, s, a.who, a.work, t, id);
    } else if id in s.db.jobs {
      AsideEvolves(cfg, s, a, t, id);
    }
  }

  lemma RegressesByWrite(cfg: Config, s: State, c: Consumer, w: Work, t: State, id: JobId)
    requires c in s.handlers && WorkStep(cfg, s, c, w) == Some(t)
    ensures !Evolves(s.db, t.db, id) <==> Overwrites(cfg, s, By(c, w), id)
  {
    PatchedDb(cfg, s, c, w, t);
    match PatchOf(s, s.handlers[c], w)
    case None =>
    case Some(patch) => UpdateEvolvesIff(s.db, s.handlers[c].id, patch, s.now, cfg.jobTTL, id);
  }

  // The record holds a result and an error.
  ghost predicate Mixed(db: Db, id: JobId) {
    id in db.jobs && db.jobs[id].rec.result.Some? && db.jobs[id].rec.error.Some?
  }

  // Step `a` is an applied write of a result over an error, or of an error over a result.
  ghost predicate Mixes(cfg: Config, s: State, a: Action, id: JobId) {
    && a.By? && a.who in s.handlers && s.handlers[a.who].id == id && cfg.jobTTL > 0 && id in s.db.jobs
    && ((a.work.Complete? && Applied(a.work.reply) && s.db.jobs[id].rec.error.Some?)
        || (a.work.Fail? && Applied(a.work.reply) && s.db.jobs[id].rec.result.Some?))
  }

  lemma MixesByWrite(cfg: Config, s: State, c: Consumer, w: Work, t: State, id: JobId)
    requires c in s.handlers && WorkStep(cfg, s, c, w) == Some(t) && !Mixed(s.db, id)
    ensures Mixed(t.db, id) <==> Mixes(cfg, s, By(c, w), id)
  {
    HandlerMoves(cfg, s, c, w, t);
    PatchedDb(cfg, s, c, w, t);
  }

  /** With no assumption at all, a record comes to hold both a result and an error exactly by a
      result that reaches a record with an error, or an error that reaches one with a result. */
  lemma MixesExactly(cfg: Config, acts: seq<Action>, s: State, a: Action, t: State, id: JobId)
    requires Run(cfg, Any, START, acts, s) && Next(cfg, s, a) == Some(t) && !Mixed(s.db, id)
    ensures Mixed(t.db, id) <==> Mixes(cfg, s, a, id)
  {
    JobsSentRun(cfg, Any, START, acts, s);
    if a.By? {
      MixesByWrite(cfg, s, a.who, a.work, t, id);
    } else if id in s.db.jobs {
      AsideEvolves(cfg, s, a, t, id);
    } else if id in t.db.jobs {
      NewlyWritten(cfg, s, a, t, id);
    }
  }

  lemma NewlyWritten(cfg: Config, s: State, a: Action, t: State, id: JobId)
    requires Next(cfg, s, a) == Some(t) && !a.By? && id !in s.db.jobs && id in t.db.jobs
    ensures !Mixed(t.db, id)
  {
    match a
    case Tick(_) =>
    case Http(i, serve) =>
      if serve.Enqueue? {
        EnqueueJobs(cfg, s, i, serve.reply);
      } else {
        HttpQuiet(cfg, s, i, serve, t);
      }
    case _ => DeliveryFrame(cfg, s, a, t);
  }
}
