/** Stream accounting: which entries are queued, which are pending, who handles what. */
module Accounting {
  import opened Wrappers
  import opened Jobs
  import opened Redis
  import opened Pipeline
  import opened Runs

  // Entries and the jobs they carry match one to one, and pending is exactly what was handed out.
  ghost predicate StreamOk(db: Db, past: History) {
    && db.last < db.nextId
    && (forall id :: id in past.sent ==> 0 < past.sent[id] < db.nextId && id in past.ids)
    && (forall i, j :: i in past.sent && j in past.sent && past.sent[i] == past.sent[j] ==> i == j)
    && (forall m :: m in db.entries ==> db.entries[m] in past.sent && past.sent[db.entries[m]] == m)
    && (forall m :: m in db.pending <==> m in db.entries && m <= db.last)
    && (forall id :: id in past.sent && db.last < past.sent[id] ==> past.sent[id] in db.entries)
  }

  ghost predicate HandedOk(db: Db, past: History) {
    && Ascending(past.handed)
    && (forall m :: m in past.handed ==> 0 < m <= db.last)
    && (forall id :: id in past.sent && past.sent[id] <= db.last ==> past.sent[id] in past.handed)
  }

  predicate BeforeAdd(r: Request) {
    r.phase.Stashing? || r.phase.Checking? || r.phase.Adding?
  }

  ghost predicate RequestsOk(requests: map<JobId, Request>, past: History) {
    forall id :: id in requests ==>
      && id in past.ids
      && (BeforeAdd(requests[id]) ==> id !in past.sent)
  }

  ghost predicate Carried(db: Db, past: History, mid: MsgId, id: JobId) {
    && id in past.sent && past.sent[id] == mid
    && mid <= db.last && mid in past.handed
  }

  ghost predicate HandlersOk(cfg: Config, handlers: map<Consumer, Handler>, db: Db, past: History) {
    && (forall c :: c in handlers ==> Known(cfg, c) && Carried(db, past, handlers[c].mid, handlers[c].id))
    && (forall c, d ::
          (c in handlers && d in handlers && c.Worker? && d.Worker? && handlers[c].mid == handlers[d].mid)
          ==> c == d)
  }

  ghost predicate BatchOk(batch: seq<Message>, db: Db, past: History) {
    forall m :: m in batch ==> Carried(db, past, m.mid, m.id)
  }

  ghost predicate Sound(cfg: Config, s: State) {
    && StreamOk(s.db, s.past)
    && HandedOk(s.db, s.past)
    && RequestsOk(s.requests, s.past)
    && HandlersOk(cfg, s.handlers, s.db, s.past)
    && BatchOk(s.batch, s.db, s.past)
  }

  // The stream only moves forward: what was sent and handed out stays so.
  ghost predicate Forward(db: Db, past: History, db': Db, past': History) {
    && db.last <= db'.last
    && (forall id :: id in past.sent ==> id in past'.sent && past'.sent[id] == past.sent[id])
    && (forall m :: m in past.handed ==> m in past'.handed)
  }

  lemma HandlersKept(cfg: Config, handlers: map<Consumer, Handler>, batch: seq<Message>,
                     db: Db, past: History, db': Db, past': History)
    requires HandlersOk(cfg, handlers, db, past) && BatchOk(batch, db, past)
    requires Forward(db, past, db', past')
    ensures HandlersOk(cfg, handlers, db', past') && BatchOk(batch, db', past')
  {
    forall c | c in handlers
      ensures Carried(db', past', handlers[c].mid, handlers[c].id)
    {
      assert Carried(db, past, handlers[c].mid, handlers[c].id);
    }
    forall m | m in batch
      ensures Carried(db', past', m.mid, m.id)
    {
      assert Carried(db, past, m.mid, m.id);
    }
  }

  predicate AtGate(w: Work) {
    w.Acquire? || w.GiveUpGate? || w.Upstream? || w.Wake? || w.GiveUpSleep?
  }

  // Whether a handler standing at `pc` can take step `w`.
  predicate Fits(pc: Pc, w: Work) {
    match w
    case Get(_) => pc.Getting?
    case Mark(_) => pc.Marking?
    case Fetch(_) => pc.Fetching?
    case Acquire => pc.Waiting?
    case GiveUpGate => pc.Waiting?
    case Upstream(_) => pc.Calling?
    case Wake => pc.Backoff?
    case GiveUpSleep => pc.Backoff?
    case ZeroData => pc.Zeroing?
    case Complete(_) => pc.Completing?
    case Fail(_) => pc.Failing?
    case Ack(_) => pc.Acking?
    case Drop => pc.Dropping?
    case Wipe => pc.Wiping?
    case Leave => pc.Leaving?
  }

  function AfterFetch(s: State, h: Handler, downloaded: bool): Handler {
    match h.source
    case None => At(s, h, Failing(UnknownSource))
    case Some(Url) => At(s, h, if downloaded then Waiting(0) else Failing(DownloadFailed))
    case Some(Upload) =>
      if h.id in s.audio then At(s, h.(held := Some(s.audio[h.id])), Waiting(0)) else At(s, h, Failing(AudioGone))
  }

  // What becomes of a handler that takes step `w`; every step but the last leaves one.
  function After(cfg: Config, s: State, h: Handler, w: Work): Handler
    requires Fits(h.pc, w) && !w.Leave?
  {
    match w
    case Get(reply) =>
      if !reply.Done? then Heard(At(s, h, Acking), reply)
      else if h.id !in s.db.jobs || Ended(s.db.jobs[h.id].rec) then At(s, h, Acking)
      else At(s, h.(source := s.db.jobs[h.id].rec.source), Marking)
    case Mark(reply) => Heard(At(s, h, Fetching), reply)
    case Fetch(downloaded) => AfterFetch(s, h, downloaded)
    case Acquire => At(s, h, Calling(h.pc.attempt))
    case GiveUpGate => At(s, h, AfterAttempt(cfg.maxRetries, h.pc.attempt, Transient))
    case Upstream(o) => At(s, h, AfterAttempt(cfg.maxRetries, h.pc.attempt, o))
    case Wake => At(s, h, Waiting(h.pc.attempt))
    case GiveUpSleep => At(s, h, Zeroing(Failure(Cancelled)))
    case ZeroData => At(s, h.(held := None), AfterZeroing(h.pc.verdict))
    case Complete(reply) => Heard(At(s, h, Acking), reply)
    case Fail(reply) => Heard(At(s, h, Acking), reply)
    case Ack(reply) => Heard(At(s, h, Dropping), reply)
    case Drop => if h.id in s.audio then At(s, h.(held := Some(s.audio[h.id])), Wiping) else At(s, h, Leaving)
    case Wipe => At(s, h.(held := None), Leaving)
  }

  lemma MovesFetch(cfg: Config, s: State, c: Consumer, downloaded: bool)
    requires c in s.handlers && s.handlers[c].pc.Fetching?
    ensures FetchStep(s, c, downloaded).handlers == s.handlers[c := After(cfg, s, s.handlers[c], Fetch(downloaded))]
  {
  }

  lemma MovesDrop(cfg: Config, s: State, c: Consumer)
    requires c in s.handlers && s.handlers[c].pc.Dropping?
    ensures DropStep(s, c).handlers == s.handlers[c := After(cfg, s, s.handlers[c], Drop)]
  {
  }

  lemma MovesGet(cfg: Config, s: State, c: Consumer, reply: Reply)
    requires c in s.handlers && s.handlers[c].pc.Getting?
    ensures GetStep(s, c, reply).handlers == s.handlers[c := After(cfg, s, s.handlers[c], Get(reply))]
  {
  }

  lemma MovesAtGate(cfg: Config, s: State, c: Consumer, w: Work, t: State)
    requires c in s.handlers && WorkStep(cfg, s, c, w) == Some(t) && AtGate(w)
    ensures Fits(s.handlers[c].pc, w) && t.handlers == s.handlers[c := After(cfg, s, s.handlers[c], w)]
  {
  }

  lemma MovesElsewhere(cfg: Config, s: State, c: Consumer, w: Work, t: State)
    requires c in s.handlers && WorkStep(cfg, s, c, w) == Some(t)
    requires !AtGate(w) && !w.Fetch? && !w.Drop? && !w.Get? && !w.Leave?
    ensures Fits(s.handlers[c].pc, w) && t.handlers == s.handlers[c := After(cfg, s, s.handlers[c], w)]
  {
  }

  // A step does to the handlers what `Fits` and `After` say.
  lemma HandlerMoves(cfg: Config, s: State, c: Consumer, w: Work, t: State)
    requires c in s.handlers && WorkStep(cfg, s, c, w) == Some(t)
    ensures Fits(s.handlers[c].pc, w)
    ensures t.handlers == if w.Leave? then s.handlers - {c} else s.handlers[c := After(cfg, s, s.handlers[c], w)]
  {
    if AtGate(w) {
      MovesAtGate(cfg, s, c, w, t);
    } else {
      match w
      case Fetch(downloaded) => MovesFetch(cfg, s, c, downloaded);
      case Drop => MovesDrop(cfg, s, c);
      case Get(reply) => MovesGet(cfg, s, c, reply);
      case Leave =>
      case _ => MovesElsewhere(cfg, s, c, w, t);
    }
  }

  // What a step of handler `c` leaves alone.
  ghost predicate OnlyHandler(s: State, c: Consumer, t: State)
    requires c in s.handlers
  {
    && t.now == s.now && t.stopping == s.stopping && t.batch == s.batch && t.requests == s.requests
    && t.past.ids == s.past.ids && t.past.sent == s.past.sent && t.past.clips == s.past.clips
    && t.past.lost == s.past.lost && t.past.accepted == s.past.accepted && t.past.handed == s.past.handed
    && t.db.last == s.db.last
    && t.db.nextId == s.db.nextId
    && ((t.db.entries == s.db.entries && t.db.pending == s.db.pending)
        || t.db == AckTx(s.db, s.handlers[c].mid))
    && ((t.handlers == s.handlers - {c} && t.inFlight == s.inFlight - 1)
        || (c in t.handlers
            && t.inFlight == s.inFlight
            && t.handlers == s.handlers[c := t.handlers[c]]
            && t.handlers[c].mid == s.handlers[c].mid
            && t.handlers[c].id == s.handlers[c].id
            && t.handlers[c].start == s.handlers[c].start))
  }

  // A step that only replaces the handler by one for the same message.
  lemma FramePut(s: State, c: Consumer, h: Handler)
    requires c in s.handlers
    requires h.mid == s.handlers[c].mid && h.id == s.handlers[c].id && h.start == s.handlers[c].start
    ensures OnlyHandler(s, c, Put(s, c, h))
  {
  }

  lemma FrameGet(s: State, c: Consumer, reply: Reply)
    requires c in s.handlers
    ensures OnlyHandler(s, c, GetStep(s, c, reply))
  {
    var h := s.handlers[c];
    FramePut(s, c, Heard(At(s, h, Acking), reply));
    FramePut(s, c, At(s, h, Acking));
    if h.id in s.db.jobs {
      FramePut(s, c, At(s, h.(source := s.db.jobs[h.id].rec.source), Marking));
    }
  }

  lemma FrameWrite(cfg: Config, s: State, c: Consumer, patch: Record, pc: Pc, reply: Reply)
    requires c in s.handlers
    ensures OnlyHandler(s, c, WriteStep(cfg, s, c, patch, pc, reply))
  {
  }

  lemma FrameAck(s: State, c: Consumer, reply: Reply)
    requires c in s.handlers
    ensures OnlyHandler(s, c, AckStep(s, c, reply))
  {
  }

  lemma FrameTake(s: State, c: Consumer)
    requires c in s.handlers
    ensures OnlyHandler(s, c, TakeStep(s, c))
  {
  }

  lemma FrameFetch(s: State, c: Consumer, downloaded: bool)
    requires c in s.handlers
    ensures OnlyHandler(s, c, FetchStep(s, c, downloaded))
  {
    FrameTake(s, c);
  }

  lemma FrameEmptied(s: State, c: Consumer, pc: Pc)
    requires c in s.handlers
    ensures OnlyHandler(s, c, Emptied(s, c, pc))
  {
  }

  lemma FrameDrop(s: State, c: Consumer)
    requires c in s.handlers
    ensures OnlyHandler(s, c, DropStep(s, c))
  {
  }

  // The steps around the gate and the backoff touch only the handler, the gate and its queue.
  lemma FrameGate(cfg: Config, s: State, c: Consumer, w: Work, t: State)
    requires c in s.handlers && WorkStep(cfg, s, c, w) == Some(t)
    requires AtGate(w)
    ensures OnlyHandler(s, c, t)
  {
  }

  lemma WorkFrame(cfg: Config, s: State, c: Consumer, w: Work, t: State)
    requires c in s.handlers && WorkStep(cfg, s, c, w) == Some(t)
    ensures OnlyHandler(s, c, t)
  {
    match w
    case Get(reply) => FrameGet(s, c, reply);
    case Mark(reply) => FrameWrite(cfg, s, c, PROCESSING_PATCH, Fetching, reply);
    case Fetch(downloaded) => FrameFetch(s, c, downloaded);
    case ZeroData => FrameEmptied(s, c, AfterZeroing(s.handlers[c].pc.verdict));
    case Complete(reply) => FrameWrite(cfg, s, c, CompletedPatch(s.handlers[c].pc.body, s.now), Acking, reply);
    case Fail(reply) => FrameWrite(cfg, s, c, FailedPatch(s.handlers[c].pc.cause, s.now), Acking, reply);
    case Ack(reply) => FrameAck(s, c, reply);
    case Drop => FrameDrop(s, c);
    case Wipe => FrameEmptied(s, c, Leaving);
    case Leave =>
    case _ => FrameGate(cfg, s, c, w, t);
  }

  // A handler that has just been given its message.
  predicate Fresh(h: Handler, now: Time) {
    h.pc.Getting? && h.held == None && h.start == now && h.since == now && h.source == None && !h.down
  }

  lemma ReadFrame(cfg: Config, s: State, w: nat, mid: MsgId, reply: Reply, t: State)
    requires ReadStep(cfg, s, w, mid, reply) == Some(t)
    ensures t.db.jobs == s.db.jobs && t.db.expired == s.db.expired && t.db.entries == s.db.entries
    ensures t.past.sent == s.past.sent && t.now == s.now
    ensures t.handlers == s.handlers
            || (Worker(w) in t.handlers && Fresh(t.handlers[Worker(w)], s.now)
                && Worker(w) !in s.handlers && t.handlers == s.handlers[Worker(w) := t.handlers[Worker(w)]])
  {
  }

  // Deliveries, the shutdown signal and a crash write no record and only start fresh handlers.
  lemma DeliveryFrame(cfg: Config, s: State, a: Action, t: State)
    requires Next(cfg, s, a) == Some(t)
    requires a.Stop? || a.Crash? || a.Read? || a.Claim? || a.Begin?
    ensures t.db.jobs == s.db.jobs && t.db.expired == s.db.expired && t.db.entries == s.db.entries
    ensures t.past.sent == s.past.sent && t.now == s.now
    ensures forall c :: c in t.handlers ==>
      (c in s.handlers && t.handlers[c] == s.handlers[c]) || (c !in s.handlers && Fresh(t.handlers[c], s.now))
  {
    match a
    case Read(w, mid, reply) => ReadFrame(cfg, s, w, mid, reply, t);
    case _ =>
  }

  lemma SoundStep(cfg: Config, s: State, a: Action, t: State)
    requires Sound(cfg, s) && Next(cfg, s, a) == Some(t)
    ensures Sound(cfg, t)
  {
    match a
    case Tick(_) => HandlersKept(cfg, s.handlers, s.batch, s.db, s.past, t.db, t.past);
    case Stop =>
    case Crash =>
    case Http(id, serve) => SoundHttp(cfg, s, id, serve, t);
    case Read(w, mid, reply) => SoundRead(cfg, s, w, mid, reply, t);
    case Claim(ms, reply) => SoundClaim(cfg, s, ms, reply, t);
    case Begin => SoundBegin(cfg, s, t);
    case By(c, w) =>
      WorkFrame(cfg, s, c, w, t);
      SoundWork(cfg, s, c, t);
  }

  lemma SoundBegin(cfg: Config, s: State, t: State)
    requires Sound(cfg, s) && Next(cfg, s, Begin) == Some(t)
    ensures Sound(cfg, t)
  {
    var m := s.batch[0];
    assert m in s.batch;
    HandlersGrow(cfg, s.handlers, s.db, s.past, Claimer, Handler(m.mid, m.id, None, Getting, None, s.now, s.now, false));
    assert forall m :: m in t.batch ==> m in s.batch;
  }

  lemma SoundHttp(cfg: Config, s: State, id: JobId, a: Serve, t: State)
    requires Sound(cfg, s) && HttpStep(cfg, s, id, a) == Some(t)
    ensures Sound(cfg, t)
  {
    if a.Enqueue? && Applied(a.reply) {
      SoundEnqueue(cfg, s, id, a.reply);
    } else {
      HttpQuiet(cfg, s, id, a, t);
      HandlersKept(cfg, s.handlers, s.batch, s.db, s.past, t.db, t.past);
    }
  }

  // A request that has not reached XADD leaves the stream and the handlers alone.
  lemma HttpQuiet(cfg: Config, s: State, id: JobId, a: Serve, t: State)
    requires HttpStep(cfg, s, id, a) == Some(t)
    requires a.Enqueue? ==> a.reply.Refused?
    ensures t.db == s.db && t.handlers == s.handlers && t.batch == s.batch && t.now == s.now
    ensures t.past.sent == s.past.sent && t.past.handed == s.past.handed && s.past.ids <= t.past.ids
    ensures forall i :: i in t.requests && i != id ==> i in s.requests && t.requests[i] == s.requests[i]
    ensures id in t.requests && id in s.past.ids ==>
      id in s.requests && (BeforeAdd(t.requests[id]) ==> BeforeAdd(s.requests[id]))
    ensures id in t.requests ==> id in s.requests || id in t.past.ids
  {
    HttpQuietRequests(cfg, s, id, a, t);
  }

  lemma HttpQuietRequests(cfg: Config, s: State, id: JobId, a: Serve, t: State)
    requires HttpStep(cfg, s, id, a) == Some(t)
    requires a.Enqueue? ==> a.reply.Refused?
    ensures forall i :: i in t.requests && i != id ==> i in s.requests && t.requests[i] == s.requests[i]
    ensures id in t.requests && id in s.past.ids ==>
      id in s.requests && (BeforeAdd(t.requests[id]) ==> BeforeAdd(s.requests[id]))
    ensures id in t.requests ==> id in s.requests || id in t.past.ids
  {
  }

  lemma EnqueueLeaves(cfg: Config, s: State, id: JobId, reply: Reply)
    requires id in s.requests && s.requests[id].phase.Adding?
    ensures var t := EnqueueStep(cfg, s, id, reply);
            && t.db.pending == s.db.pending
            && (t.db.entries == s.db.entries || t.db.entries == s.db.entries[s.db.nextId := id])
            && (t.requests == s.requests - {id}
                || t.requests == s.requests[id := s.requests[id].(phase := RollingBack)])
  {
  }

  lemma HttpKeepsEntries(cfg: Config, s: State, id: JobId, a: Serve, t: State)
    requires HttpStep(cfg, s, id, a) == Some(t)
    ensures forall m :: m in s.db.entries ==> m in t.db.entries
  {
    if a.Enqueue? {
      EnqueueLeaves(cfg, s, id, a.reply);
    } else {
      HttpQuiet(cfg, s, id, a, t);
    }
  }

  lemma EnqueueHanded(db: Db, past: History, id: JobId, rec: Record, now: Time, ttl: int)
    requires StreamOk(db, past) && HandedOk(db, past) && id !in past.sent
    ensures var db' := EnqueueTx(db, id, rec, now, ttl);
            var past' := past.(sent := past.sent[id := db.nextId]);
            HandedOk(db', past') && Forward(db, past, db', past')
  {
  }

  lemma EnqueueStream(db: Db, past: History, id: JobId, rec: Record, now: Time, ttl: int)
    requires StreamOk(db, past) && id in past.ids && id !in past.sent
    ensures StreamOk(EnqueueTx(db, id, rec, now, ttl), past.(sent := past.sent[id := db.nextId]))
  {
  }

  lemma StreamEnqueue(db: Db, past: History, id: JobId, rec: Record, now: Time, ttl: int)
    requires StreamOk(db, past) && HandedOk(db, past) && id in past.ids && id !in past.sent
    ensures var db' := EnqueueTx(db, id, rec, now, ttl);
            var past' := past.(sent := past.sent[id := db.nextId]);
            StreamOk(db', past') && HandedOk(db', past') && Forward(db, past, db', past')
  {
    EnqueueStream(db, past, id, rec, now, ttl);
    EnqueueHanded(db, past, id, rec, now, ttl);
  }

  lemma RequestsEnqueue(requests: map<JobId, Request>, past: History, id: JobId, mid: MsgId, r: Request)
    requires RequestsOk(requests, past) && id in past.ids && !BeforeAdd(r)
    ensures RequestsOk(requests - {id}, past.(sent := past.sent[id := mid]))
    ensures RequestsOk(requests[id := r], past.(sent := past.sent[id := mid]))
  {
  }

  lemma EnqueueParts(cfg: Config, s: State, id: JobId, reply: Reply)
    requires id in s.requests && s.requests[id].phase.Adding? && Applied(reply)
    ensures var r := s.requests[id];
            var t := EnqueueStep(cfg, s, id, reply);
            && t.db == EnqueueTx(s.db, id, QueuedRecord(r.source, r.url, r.language, s.now), s.now, cfg.jobTTL)
            && t.past.sent == s.past.sent[id := s.db.nextId]
            && t.past.ids == s.past.ids && t.past.handed == s.past.handed
            && t.handlers == s.handlers && t.batch == s.batch
  {
  }

  lemma SoundSent(cfg: Config, s: State, id: JobId, rec: Record, t: State)
    requires Sound(cfg, s) && id in s.requests && BeforeAdd(s.requests[id])
    requires t.db == EnqueueTx(s.db, id, rec, s.now, cfg.jobTTL) && t.past.sent == s.past.sent[id := s.db.nextId]
    requires t.past.ids == s.past.ids && t.past.handed == s.past.handed
    requires t.handlers == s.handlers && t.batch == s.batch
    requires RequestsOk(t.requests, t.past)
    ensures Sound(cfg, t)
  {
    var past := s.past.(sent := s.past.sent[id := s.db.nextId]);
    StreamEnqueue(s.db, s.past, id, rec, s.now, cfg.jobTTL);
    HandlersKept(cfg, s.handlers, s.batch, s.db, s.past, t.db, past);
    PastSame(cfg, t.requests, t.handlers, t.batch, t.db, past, t.past);
  }

  lemma SoundEnqueue(cfg: Config, s: State, id: JobId, reply: Reply)
    requires Sound(cfg, s) && id in s.requests && s.requests[id].phase.Adding? && Applied(reply)
    ensures Sound(cfg, EnqueueStep(cfg, s, id, reply))
  {
    var r := s.requests[id];
    var t := EnqueueStep(cfg, s, id, reply);
    EnqueueParts(cfg, s, id, reply);
    EnqueueLeaves(cfg, s, id, reply);
    RequestsEnqueue(s.requests, s.past, id, s.db.nextId, r.(phase := RollingBack));
    SoundSent(cfg, s, id, QueuedRecord(r.source, r.url, r.language, s.now), t);
  }

  // Only the ids used, the messages sent and the reads made matter here.
  lemma PastSame(cfg: Config, requests: map<JobId, Request>, handlers: map<Consumer, Handler>,
                 batch: seq<Message>, db: Db, past: History, past': History)
    requires StreamOk(db, past) && HandedOk(db, past) && RequestsOk(requests, past)
    requires HandlersOk(cfg, handlers, db, past) && BatchOk(batch, db, past)
    requires past'.ids == past.ids && past'.sent == past.sent && past'.handed == past.handed
    ensures StreamOk(db, past') && HandedOk(db, past') && RequestsOk(requests, past')
    ensures HandlersOk(cfg, handlers, db, past') && BatchOk(batch, db, past')
  {
    assert forall mid, id :: Carried(db, past, mid, id) == Carried(db, past', mid, id);
  }

  lemma ReadHanded(db: Db, past: History, mid: MsgId, owner: Consumer, now: Time)
    requires StreamOk(db, past) && HandedOk(db, past) && IsNext(db, mid)
    ensures var db' := ReadTx(db, mid, owner, now);
            var past' := past.(handed := past.handed + [mid]);
            HandedOk(db', past') && Forward(db, past, db', past')
  {
    var handed := past.handed + [mid];
    assert forall i :: 0 <= i < |past.handed| ==> past.handed[i] in past.handed;
    assert mid in handed;
    assert forall m :: m in past.handed ==> m in handed;
    assert Ascending(handed);
  }

  lemma StreamRead(db: Db, past: History, mid: MsgId, owner: Consumer, now: Time)
    requires StreamOk(db, past) && HandedOk(db, past) && IsNext(db, mid)
    ensures var db' := ReadTx(db, mid, owner, now);
            var past' := past.(handed := past.handed + [mid]);
            StreamOk(db', past') && HandedOk(db', past') && Forward(db, past, db', past')
  {
    ReadHanded(db, past, mid, owner, now);
  }

  lemma HandlersGrow(cfg: Config, handlers: map<Consumer, Handler>, db: Db, past: History, c: Consumer, h: Handler)
    requires HandlersOk(cfg, handlers, db, past) && c !in handlers && Known(cfg, c)
    requires Carried(db, past, h.mid, h.id)
    requires c.Worker? ==> forall d :: d in handlers ==> handlers[d].mid != h.mid
    ensures HandlersOk(cfg, handlers[c := h], db, past)
  {
  }

  lemma SoundRead(cfg: Config, s: State, w: nat, mid: MsgId, reply: Reply, t: State)
    requires Sound(cfg, s) && ReadStep(cfg, s, w, mid, reply) == Some(t)
    ensures Sound(cfg, t)
  {
    StreamRead(s.db, s.past, mid, Worker(w), s.now);
    HandlersKept(cfg, s.handlers, s.batch, s.db, s.past, t.db, t.past);
    assert mid in t.past.handed;
    if reply.Done? {
      forall d | d in s.handlers
        ensures s.handlers[d].mid != mid
      {
        assert Carried(s.db, s.past, s.handlers[d].mid, s.handlers[d].id);
      }
      HandlersGrow(cfg, s.handlers, t.db, t.past, Worker(w), t.handlers[Worker(w)]);
    }
  }

  lemma StreamClaim(db: Db, past: History, ms: seq<MsgId>, owner: Consumer, now: Time)
    requires StreamOk(db, past) && HandedOk(db, past)
    ensures var db' := ClaimTx(db, ms, owner, now);
            StreamOk(db', past) && HandedOk(db', past) && Forward(db, past, db', past)
  {
  }

  lemma SoundClaim(cfg: Config, s: State, ms: seq<MsgId>, reply: Reply, t: State)
    requires Sound(cfg, s) && ClaimStep(cfg, s, ms, reply) == Some(t)
    ensures Sound(cfg, t)
  {
    StreamClaim(s.db, s.past, ms, Claimer, s.now);
    HandlersKept(cfg, s.handlers, s.batch, s.db, s.past, t.db, t.past);
    forall m | m in t.batch
      ensures Carried(s.db, s.past, m.mid, m.id)
    {
      if reply.Done? {
        var i :| 0 <= i < |ms| && t.batch[i] == m;
        assert ms[i] in ms;
      }
    }
  }

  lemma HandlersWork(cfg: Config, s: State, c: Consumer, t: State)
    requires HandlersOk(cfg, s.handlers, t.db, t.past) && c in s.handlers && OnlyHandler(s, c, t)
    ensures HandlersOk(cfg, t.handlers, t.db, t.past)
  {
    assert forall d :: d in t.handlers ==>
      d in s.handlers && t.handlers[d].mid == s.handlers[d].mid && t.handlers[d].id == s.handlers[d].id;
  }

  lemma SoundWork(cfg: Config, s: State, c: Consumer, t: State)
    requires Sound(cfg, s) && c in s.handlers && OnlyHandler(s, c, t)
    ensures Sound(cfg, t)
  {
    HandlersKept(cfg, s.handlers, s.batch, s.db, s.past, t.db, t.past);
    HandlersWork(cfg, s, c, t);
  }

  lemma {:induction false} SoundRun(cfg: Config, p: Policy, s: State, acts: seq<Action>, t: State)
    requires Sound(cfg, s) && Run(cfg, p, s, acts, t)
    ensures Sound(cfg, t)
    decreases |acts|
  {
    if acts != [] {
      var n := Next(cfg, s, acts[0]).value;
      SoundStep(cfg, s, acts[0], n);
      SoundRun(cfg, p, n, acts[1..], t);
    }
  }

  function Undelivered(db: Db): set<MsgId> {
    set m | m in db.entries && db.last < m
  }

  /** In every reachable state the stream is the disjoint union of the queued entries and the
      pending list, so XLEN is queued plus in-flight; and every entry the group's position has
      passed was handed out by exactly one read (the log of reads never repeats an entry), so later
      deliveries of it can only come from claims. */
  lemma StreamAccounting(cfg: Config, acts: seq<Action>, s: State)
    requires Run(cfg, Any, START, acts, s)
    ensures s.db.entries.Keys == Undelivered(s.db) + s.db.pending.Keys
    ensures Undelivered(s.db) !! s.db.pending.Keys
    ensures |s.db.entries| == |Undelivered(s.db)| + |s.db.pending|
    ensures forall i, j :: 0 <= i < j < |s.past.handed| ==> s.past.handed[i] != s.past.handed[j]
    ensures forall id :: id in s.past.sent ==> (s.past.sent[id] in s.past.handed <==> s.past.sent[id] <= s.db.last)
  {
    SoundRun(cfg, Any, START, acts, s);
    assert s.db.entries.Keys == Undelivered(s.db) + s.db.pending.Keys;
    assert |s.db.entries.Keys| == |Undelivered(s.db)| + |s.db.pending.Keys|;
  }
}
