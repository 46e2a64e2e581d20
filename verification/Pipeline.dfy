/** The job pipeline as a step machine. One action is one Redis call (or MULTI pipeline), one
    locked section of the audio store, one gate operation, or one move of the environment; actions
    of different actors interleave freely. */
module Pipeline {
  import opened Wrappers
  import opened Jobs
  import opened Redis

  type ClipId = nat

  datatype Config = Config(
    concurrency: nat,
    queueSize: nat,
    maxRetries: nat,
    jobTTL: int,
    claimMinIdle: Time,
    claimCount: nat,
    downloadTimeout: Time,
    upstreamTimeout: Time,
    retryBase: Time)

  const SECOND: Time := 1_000_000_000

  // The defaults and constants the program is shipped with.
  const SHIPPED := Config(2, 5000, 2, 3600 * SECOND, 120 * SECOND, 10, 600 * SECOND, 600 * SECOND, SECOND)

  // What the caller sees of a Redis call: done, never reached Redis, or done with the reply lost.
  datatype Reply = Done | Refused | ReplyLost

  predicate Applied(r: Reply) { !r.Refused? }

  datatype Outcome = Body(body: string) | Transient | Permanent

  datatype Verdict = Success(body: string) | Failure(cause: Cause)

  // Where a message handler stands; each value names the step it takes next.
  datatype Pc =
    | Getting
    | Marking
    | Fetching
    | Waiting(attempt: nat)
    | Calling(attempt: nat)
    | Backoff(attempt: nat)
    | Zeroing(verdict: Verdict)
    | Completing(body: string)
    | Failing(cause: Cause)
    | Acking
    | Dropping
    | Wiping
    | Leaving

  /** `start` and `since` are when the message arrived and when `pc` was entered. `down` is set
      once a Redis call of this handler has failed. */
  datatype Handler = Handler(
    mid: MsgId,
    id: JobId,
    source: Option<Source>,
    pc: Pc,
    held: Option<ClipId>,
    start: Time,
    since: Time,
    down: bool)

  // Where an HTTP request stands.
  datatype Phase = Stashing | Checking | Adding | RollingBack | Erasing

  datatype Request = Request(source: Source, url: string, language: string, phase: Phase, held: Option<ClipId>)

  /** Bookkeeping that no step reads: job and clip ids used so far, the message each job got, clips
      zeroed or lost with the process, uploads accepted by this process, jobs whose clip a handler
      has asked for, and the entries handed out by reads, in order. */
  datatype History = History(
    ids: set<JobId>,
    sent: map<JobId, MsgId>,
    clips: set<ClipId>,
    zeroed: set<ClipId>,
    lost: set<ClipId>,
    accepted: set<JobId>,
    touched: set<JobId>,
    handed: seq<MsgId>)

  datatype State = State(
    now: Time,
    stopping: bool,
    db: Db,
    audio: map<JobId, ClipId>,
    handlers: map<Consumer, Handler>,
    batch: seq<Message>,
    gate: Option<Consumer>,
    waiting: seq<Consumer>,
    inFlight: int,
    requests: map<JobId, Request>,
    past: History)

  const START := State(
    0, false, EMPTY, map[], map[], [], None, [], 0, map[],
    History({}, map[], {}, {}, {}, {}, {}, []))

  datatype Work =
    | Get(reply: Reply)
    | Mark(reply: Reply)
    | Fetch(downloaded: bool)
    | Acquire
    | GiveUpGate
    | Upstream(outcome: Outcome)
    | Wake
    | GiveUpSleep
    | ZeroData
    | Complete(reply: Reply)
    | Fail(reply: Reply)
    | Ack(reply: Reply)
    | Drop
    | Wipe
    | Leave

  datatype Serve =
    | StartUpload(clip: ClipId, language: string)
    | StartUrl(url: string, language: string)
    | Stash
    | CheckLen(reply: Reply)
    | Enqueue(reply: Reply)
    | RollBack
    | Erase

  datatype Action =
    | Tick(delta: nat)
    | Stop
    | Crash
    | Http(id: JobId, serve: Serve)
    | Read(worker: nat, mid: MsgId, reply: Reply)
    | Claim(mids: seq<MsgId>, reply: Reply)
    | Begin
    | By(who: Consumer, work: Work)

  predicate Known(cfg: Config, c: Consumer) {
    c.Claimer? || c.index < cfg.concurrency
  }

  // A call made after the shutdown signal carries a cancelled context and never reaches Redis.
  predicate Possible(s: State, reply: Reply) {
    s.stopping ==> reply.Refused?
  }

  function At(s: State, h: Handler, pc: Pc): Handler {
    h.(pc := pc, since := s.now)
  }

  function Heard(h: Handler, reply: Reply): Handler {
    h.(down := h.down || !reply.Done?)
  }

  function Put(s: State, c: Consumer, h: Handler): State {
    s.(handlers := s.handlers[c := h])
  }

  function Move(s: State, c: Consumer, pc: Pc): State
    requires c in s.handlers
  {
    Put(s, c, At(s, s.handlers[c], pc))
  }

  function MoveDown(s: State, c: Consumer, pc: Pc, reply: Reply): State
    requires c in s.handlers
  {
    Put(s, c, Heard(At(s, s.handlers[c], pc), reply))
  }

  function Arrive(s: State, c: Consumer, m: Message): State {
    s.(handlers := s.handlers[c := Handler(m.mid, m.id, None, Getting, None, s.now, s.now, false)],
       inFlight := s.inFlight + 1)
  }

  function Queue(s: State, c: Consumer, h: Handler, attempt: nat): State {
    Put(s, c, At(s, h, Waiting(attempt))).(waiting := s.waiting + [c])
  }

  function Without(cs: seq<Consumer>, c: Consumer): (r: seq<Consumer>)
    ensures |r| <= |cs|
  {
    if cs == [] then []
    else if cs[0] == c then cs[1..]
    else [cs[0]] + Without(cs[1..], c)
  }

  // What a retry loop does with the result of one attempt.
  function AfterAttempt(maxRetries: nat, attempt: nat, o: Outcome): Pc {
    match o
    case Body(b) => Zeroing(Success(b))
    case Permanent => Zeroing(Failure(Rejected))
    case Transient => if attempt < maxRetries then Backoff(attempt + 1) else Zeroing(Failure(Exhausted))
  }

  function GetStep(s: State, c: Consumer, reply: Reply): State
    requires c in s.handlers
  {
    var h := s.handlers[c];
    if !reply.Done? then MoveDown(s, c, Acking, reply)
    else if h.id !in s.db.jobs || Ended(s.db.jobs[h.id].rec) then Move(s, c, Acking)
    else Put(s, c, At(s, h.(source := s.db.jobs[h.id].rec.source), Marking))
  }

  function WriteStep(cfg: Config, s: State, c: Consumer, patch: Record, pc: Pc, reply: Reply): State
    requires c in s.handlers
  {
    var t := MoveDown(s, c, pc, reply);
    if Applied(reply) then t.(db := UpdateTx(s.db, s.handlers[c].id, patch, s.now, cfg.jobTTL)) else t
  }

  function AckStep(s: State, c: Consumer, reply: Reply): State
    requires c in s.handlers
  {
    var t := MoveDown(s, c, Dropping, reply);
    if Applied(reply) then t.(db := AckTx(s.db, s.handlers[c].mid)) else t
  }

  function TakeStep(s: State, c: Consumer): State
    requires c in s.handlers
  {
    var h := s.handlers[c];
    var t := s.(past := s.past.(touched := s.past.touched + {h.id}));
    if h.id in s.audio then
      Queue(t.(audio := s.audio - {h.id}), c, h.(held := Some(s.audio[h.id])), 0)
    else
      Put(t, c, At(s, h, Failing(AudioGone)))
  }

  function FetchStep(s: State, c: Consumer, downloaded: bool): State
    requires c in s.handlers
  {
    var h := s.handlers[c];
    match h.source
    case None => Move(s, c, Failing(UnknownSource))
    case Some(Url) => if downloaded then Queue(s, c, h, 0) else Move(s, c, Failing(DownloadFailed))
    case Some(Upload) => TakeStep(s, c)
  }

  function Emptied(s: State, c: Consumer, pc: Pc): State
    requires c in s.handlers
  {
    var h := s.handlers[c];
    Put(s, c, At(s, h.(held := None), pc)).(
       past := s.past.(zeroed := if h.held.Some? then s.past.zeroed + {h.held.value} else s.past.zeroed))
  }

  function DropStep(s: State, c: Consumer): State
    requires c in s.handlers
  {
    var h := s.handlers[c];
    var t := s.(past := s.past.(touched := s.past.touched + {h.id}));
    if h.id in s.audio then
      Put(t.(audio := s.audio - {h.id}), c, At(s, h.(held := Some(s.audio[h.id])), Wiping))
    else Move(t, c, Leaving)
  }

  function AfterZeroing(v: Verdict): Pc {
    match v
    case Success(body) => Completing(body)
    case Failure(cause) => Failing(cause)
  }

  function WorkStep(cfg: Config, s: State, c: Consumer, w: Work): Option<State>
    requires c in s.handlers
  {
    var h := s.handlers[c];
    match w
    case Get(reply) =>
      if h.pc.Getting? && Possible(s, reply) then Some(GetStep(s, c, reply)) else None
    case Mark(reply) =>
      if h.pc.Marking? && Possible(s, reply)
      then Some(WriteStep(cfg, s, c, PROCESSING_PATCH, Fetching, reply)) else None
    case Fetch(downloaded) =>
      if h.pc.Fetching? then Some(FetchStep(s, c, downloaded)) else None
    case Acquire =>
      if h.pc.Waiting? && s.gate.None?
      then Some(Move(s, c, Calling(h.pc.attempt)).(gate := Some(c), waiting := Without(s.waiting, c)))
      else None
    case GiveUpGate =>
      if h.pc.Waiting? && s.stopping
      then Some(Move(s, c, AfterAttempt(cfg.maxRetries, h.pc.attempt, Transient)).(waiting := Without(s.waiting, c)))
      else None
    case Upstream(o) =>
      if h.pc.Calling?
      then Some(Move(s, c, AfterAttempt(cfg.maxRetries, h.pc.attempt, o)).(gate := None))
      else None
    case Wake =>
      if h.pc.Backoff? then Some(Queue(s, c, h, h.pc.attempt)) else None
    case GiveUpSleep =>
      if h.pc.Backoff? && s.stopping then Some(Move(s, c, Zeroing(Failure(Cancelled)))) else None
    case ZeroData =>
      if h.pc.Zeroing? then Some(Emptied(s, c, AfterZeroing(h.pc.verdict))) else None
    case Complete(reply) =>
      if h.pc.Completing? && Possible(s, reply)
      then Some(WriteStep(cfg, s, c, CompletedPatch(h.pc.body, s.now), Acking, reply)) else None
    case Fail(reply) =>
      if h.pc.Failing? && Possible(s, reply)
      then Some(WriteStep(cfg, s, c, FailedPatch(h.pc.cause, s.now), Acking, reply)) else None
    case Ack(reply) =>
      if h.pc.Acking? && Possible(s, reply) then Some(AckStep(s, c, reply)) else None
    case Drop =>
      if h.pc.Dropping? then Some(DropStep(s, c)) else None
    case Wipe =>
      if h.pc.Wiping? then Some(Emptied(s, c, Leaving)) else None
    case Leave =>
      if h.pc.Leaving?
      then Some(s.(handlers := s.handlers - {c}, inFlight := s.inFlight - 1)) else None
  }

  function Phased(s: State, id: JobId, phase: Phase): State
    requires id in s.requests
  {
    s.(requests := s.requests[id := s.requests[id].(phase := phase)])
  }

  // An enqueue that returned an error: an upload takes its clip back out, a URL job has nothing to undo.
  function Undo(s: State, id: JobId): State
    requires id in s.requests
  {
    if s.requests[id].source.Upload? then Phased(s, id, RollingBack)
    else s.(requests := s.requests - {id})
  }

  function EnqueueStep(cfg: Config, s: State, id: JobId, reply: Reply): State
    requires id in s.requests
  {
    var r := s.requests[id];
    var t := if Applied(reply)
      then s.(db := EnqueueTx(s.db, id, QueuedRecord(r.source, r.url, r.language, s.now), s.now, cfg.jobTTL),
              past := s.past.(sent := s.past.sent[id := s.db.nextId]))
      else s;
    if reply.Done? then
      t.(requests := s.requests - {id},
         past := t.past.(accepted := if r.source.Upload? then s.past.accepted + {id} else s.past.accepted))
    else Undo(t, id)
  }

  function HttpStep(cfg: Config, s: State, id: JobId, a: Serve): Option<State> {
    match a
    case StartUpload(clip, language) =>
      if id !in s.past.ids && clip !in s.past.clips
      then Some(s.(requests := s.requests[id := Request(Upload, "", language, Stashing, Some(clip))],
                   past := s.past.(ids := s.past.ids + {id}, clips := s.past.clips + {clip})))
      else None
    case StartUrl(url, language) =>
      if id !in s.past.ids
      then Some(s.(requests := s.requests[id := Request(Url, url, language, Checking, None)],
                   past := s.past.(ids := s.past.ids + {id})))
      else None
    case Stash =>
      if id in s.requests && s.requests[id].phase.Stashing? && s.requests[id].held.Some?
      then Some(s.(audio := s.audio[id := s.requests[id].held.value],
                   requests := s.requests[id := s.requests[id].(phase := Checking, held := None)]))
      else None
    case CheckLen(reply) =>
      if id in s.requests && s.requests[id].phase.Checking?
      then Some(if reply.Done? && |s.db.entries| < cfg.queueSize then Phased(s, id, Adding) else Undo(s, id))
      else None
    case Enqueue(reply) =>
      if id in s.requests && s.requests[id].phase.Adding? then Some(EnqueueStep(cfg, s, id, reply)) else None
    case RollBack =>
      if id in s.requests && s.requests[id].phase.RollingBack?
      then Some(if id in s.audio
                then s.(audio := s.audio - {id},
                        requests := s.requests[id := s.requests[id].(phase := Erasing, held := Some(s.audio[id]))])
                else Phased(s, id, Erasing))
      else None
    case Erase =>
      if id in s.requests && s.requests[id].phase.Erasing?
      then Some(s.(requests := s.requests - {id},
                   past := s.past.(zeroed := if s.requests[id].held.Some?
                                             then s.past.zeroed + {s.requests[id].held.value}
                                             else s.past.zeroed)))
      else None
  }

  ghost function ReadStep(cfg: Config, s: State, w: nat, mid: MsgId, reply: Reply): Option<State> {
    if w < cfg.concurrency && Worker(w) !in s.handlers && Possible(s, reply) && Applied(reply) && IsNext(s.db, mid)
    then
      var t := s.(db := ReadTx(s.db, mid, Worker(w), s.now), past := s.past.(handed := s.past.handed + [mid]));
      Some(if reply.Done? then Arrive(t, Worker(w), Message(mid, s.db.entries[mid])) else t)
    else None
  }

  ghost function ClaimStep(cfg: Config, s: State, ms: seq<MsgId>, reply: Reply): Option<State> {
    if Claimer !in s.handlers && s.batch == [] && ms != [] && Possible(s, reply) && Applied(reply)
       && Claimable(s.db, ms, s.now, cfg.claimMinIdle, cfg.claimCount)
    then
      var t := s.(db := ClaimTx(s.db, ms, Claimer, s.now));
      Some(if reply.Done? then t.(batch := seq(|ms|, i requires 0 <= i < |ms| => Message(ms[i], s.db.entries[ms[i]])))
           else t)
    else None
  }

  // The process dies and starts again: Redis keeps everything, memory keeps nothing.
  function CrashStep(s: State): State {
    s.(stopping := false, audio := map[], handlers := map[], batch := [], gate := None, waiting := [],
       inFlight := 0, requests := map[],
       past := s.past.(lost := s.past.clips - s.past.zeroed, accepted := {}, touched := {}))
  }

  /** The state after action `a`, or None when `a` cannot happen in `s`. */
  ghost function Next(cfg: Config, s: State, a: Action): Option<State> {
    match a
    case Tick(delta) => Some(s.(now := s.now + delta, db := Advance(s.db, s.now + delta)))
    case Stop => Some(s.(stopping := true))
    case Crash => Some(CrashStep(s))
    case Http(id, serve) => HttpStep(cfg, s, id, serve)
    case Read(w, mid, reply) => ReadStep(cfg, s, w, mid, reply)
    case Claim(ms, reply) => ClaimStep(cfg, s, ms, reply)
    case Begin =>
      if Claimer !in s.handlers && s.batch != []
      then Some(Arrive(s, Claimer, s.batch[0]).(batch := s.batch[1..])) else None
    case By(c, w) => if c in s.handlers then WorkStep(cfg, s, c, w) else None
  }
}
