/** Exactly when timeouts keep the claimer away from live workers: a run that holds a worker for as
    long as the settings allow, and the claim made under it. */
module Stealing {
  import opened Wrappers
  import opened Jobs
  import opened Redis
  import opened Pipeline
  import opened Runs
  import opened Accounting
  import opened Concurrency
  import opened Timing
  import opened Lifecycle
  import Expiry
  import Races

  const W := Worker(0)

  // A handler of URL job `i`, whose message is entry i + 1.
  function Handling(i: JobId, pc: Pc, start: Time, since: Time): Handler {
    Handler(i + 1, i, Some(Url), pc, None, start, since, false)
  }

  function Arriving(i: JobId, now: Time): Handler {
    Handler(i + 1, i, None, Getting, None, now, now, false)
  }

  // What the steps of a handler of a URL job leave alone, apart from other handlers.
  ghost predicate Still(s: State, t: State) {
    t.now == s.now && t.stopping == s.stopping && t.audio == s.audio && t.batch == s.batch && t.requests == s.requests
  }

  ghost predicate Others<K(!new), V(!new)>(m: map<K, V>, n: map<K, V>, k: K) {
    && (forall i :: i != k ==> (i in m <==> i in n))
    && (forall i :: i != k && i in n ==> n[i] == m[i])
  }

  lemma Rewritten<K, V>(m: map<K, V>, k: K, v: V, w: V)
    ensures m[k := v][k := w] == m[k := w] && m[k := v] - {k} == m - {k}
  {
  }

  // Records outlive the idle time a claim asks for.
  predicate Keeps(cfg: Config) {
    cfg.claimMinIdle < cfg.jobTTL
  }

  // URL job `i` has not ended, and its record was last renewed at `at`.
  ghost predicate Recorded(cfg: Config, db: Db, i: JobId, at: Time) {
    i in db.jobs && db.jobs[i].deadline == at + cfg.jobTTL && db.jobs[i].rec.source == Some(Url) && !Ended(db.jobs[i].rec)
  }

  // Entry i + 1 carries job `i`, was handed out at `at`, and, if records last, still finds its own.
  ghost predicate Parked(cfg: Config, db: Db, i: JobId, at: Time) {
    && i + 1 in db.entries && db.entries[i + 1] == i
    && i + 1 in db.pending && db.pending[i + 1].at == at
    && (Keeps(cfg) ==> Recorded(cfg, db, i, at))
  }

  // Only job `id` and its entry differ.
  ghost predicate DbOthers(db: Db, db': Db, id: JobId) {
    && db'.nextId == db.nextId && db'.last == db.last
    && Others(db.entries, db'.entries, id + 1)
    && Others(db.pending, db'.pending, id + 1)
    && Others(db.jobs, db'.jobs, id)
  }

  lemma UpdateOthers(db: Db, id: JobId, patch: Record, now: Time, ttl: int)
    requires ttl > 0
    ensures DbOthers(db, UpdateTx(db, id, patch, now, ttl), id)
  {
  }

  lemma AckOthers(db: Db, id: JobId)
    ensures DbOthers(db, AckTx(db, id + 1), id)
  {
  }

  lemma ClaimOthers(db: Db, id: JobId, now: Time)
    ensures DbOthers(db, ClaimTx(db, [id + 1], Claimer, now), id)
  {
  }

  lemma ParkedOthers(cfg: Config, db: Db, db': Db, id: JobId, i: JobId, at: Time)
    requires Parked(cfg, db, i, at) && DbOthers(db, db', id) && i != id
    ensures Parked(cfg, db', i, at)
  {
  }

  lemma ParkedLater(cfg: Config, db: Db, now: Time, i: JobId, at: Time)
    requires Parked(cfg, db, i, at) && (Keeps(cfg) ==> now < at + cfg.jobTTL)
    ensures Parked(cfg, Advance(db, now), i, at)
  {
  }

  // The handler finds its job unfinished and marks it.
  lemma Marks(cfg: Config, s: State, c: Consumer, i: JobId) returns (acts: seq<Action>, t: State)
    requires c in s.handlers && s.handlers[c] == Arriving(i, s.now) && !s.stopping && cfg.jobTTL > 0
    requires i in s.db.jobs && s.db.jobs[i].rec.source == Some(Url) && !Ended(s.db.jobs[i].rec)
    ensures Run(cfg, Timed, s, acts, t) && Still(s, t) && t.gate == s.gate && t.waiting == s.waiting
    ensures t.handlers == s.handlers[c := Handling(i, Fetching, s.now, s.now)]
    ensures t.db == UpdateTx(s.db, i, PROCESSING_PATCH, s.now, cfg.jobTTL)
  {
    var m := GetStep(s, c, Done);
    assert m.handlers[c] == Handling(i, Marking, s.now, s.now);
    t := WriteStep(cfg, m, c, PROCESSING_PATCH, Fetching, Done);
    Rewritten(s.handlers, c, m.handlers[c], t.handlers[c]);
    One(cfg, Timed, s, By(c, Get(Done)), m);
    Extend(cfg, Timed, s, [By(c, Get(Done))], m, By(c, Mark(Done)), t);
    acts := [By(c, Get(Done))] + [By(c, Mark(Done))];
  }

  // The handler joins the line at the gate, after its download or its backoff.
  lemma Queues(cfg: Config, s: State, c: Consumer, i: JobId, a: nat, start: Time, since: Time)
    returns (acts: seq<Action>, t: State)
    requires c in s.handlers
    requires s.handlers[c] == Handling(i, if a == 0 then Fetching else Backoff(a), start, since)
    ensures Run(cfg, Timed, s, acts, t) && Still(s, t) && t.gate == s.gate && t.db == s.db
    ensures t.waiting == s.waiting + [c]
    ensures t.handlers == s.handlers[c := Handling(i, Waiting(a), start, s.now)]
  {
    var w := if a == 0 then Fetch(true) else Wake;
    t := WorkStep(cfg, s, c, w).value;
    One(cfg, Timed, s, By(c, w), t);
    acts := [By(c, w)];
  }

  lemma Enters(cfg: Config, s: State, c: Consumer, i: JobId, a: nat, start: Time, since: Time) returns (t: State)
    requires c in s.handlers && s.handlers[c] == Handling(i, Waiting(a), start, since)
    requires s.gate.None? && s.waiting != [] && s.waiting[0] == c
    ensures Next(cfg, s, By(c, Acquire)) == Some(t) && Allows(cfg, Timed, s, By(c, Acquire))
    ensures Still(s, t) && t.db == s.db && t.gate == Some(c) && t.waiting == s.waiting[1..]
    ensures t.handlers == s.handlers[c := Handling(i, Calling(a), start, s.now)]
  {
    t := WorkStep(cfg, s, c, Acquire).value;
  }

  // Inside the upstream call for `d`, while everybody else waits.
  lemma Calls(cfg: Config, s: State, c: Consumer, i: JobId, a: nat, start: Time, since: Time, d: nat)
    returns (acts: seq<Action>, t: State)
    requires c in s.handlers && s.handlers[c] == Handling(i, Waiting(a), start, since)
    requires s.gate.None? && s.waiting != [] && s.waiting[0] == c && d <= cfg.upstreamTimeout
    requires forall e :: e in s.handlers ==> s.handlers[e].pc.Waiting?
    ensures Run(cfg, Timed, s, acts, t)
    ensures t.now == s.now + d && t.stopping == s.stopping && t.audio == s.audio && t.batch == s.batch && t.requests == s.requests
    ensures t.db == Advance(s.db, s.now + d) && t.gate == Some(c) && t.waiting == s.waiting[1..]
    ensures t.handlers == s.handlers[c := Handling(i, Calling(a), start, s.now)]
  {
    var m := Enters(cfg, s, c, i, a, start, since);
    t := m.(now := m.now + d, db := Advance(m.db, m.now + d));
    One(cfg, Timed, s, By(c, Acquire), m);
    assert Allows(cfg, Timed, m, Tick(d));
    Extend(cfg, Timed, s, [By(c, Acquire)], m, Tick(d), t);
    acts := [By(c, Acquire)] + [Tick(d)];
  }

  // The upstream says no, and the handler is about to record the failure.
  lemma Refuses(cfg: Config, s: State, c: Consumer, i: JobId, a: nat, start: Time, since: Time)
    returns (acts: seq<Action>, t: State)
    requires c in s.handlers && s.handlers[c] == Handling(i, Calling(a), start, since)
    ensures Run(cfg, Timed, s, acts, t) && Still(s, t) && t.gate == None && t.waiting == s.waiting && t.db == s.db
    ensures t.handlers == s.handlers[c := Handling(i, Failing(Rejected), start, s.now)]
  {
    var m := Move(s, c, Zeroing(Failure(Rejected))).(gate := None);
    assert m.handlers == s.handlers[c := Handling(i, Zeroing(Failure(Rejected)), start, s.now)];
    t := Emptied(m, c, Failing(Rejected));
    One(cfg, Timed, s, By(c, Upstream(Permanent)), m);
    Extend(cfg, Timed, s, [By(c, Upstream(Permanent))], m, By(c, ZeroData), t);
    acts := [By(c, Upstream(Permanent))] + [By(c, ZeroData)];
  }

  lemma Records(cfg: Config, s: State, c: Consumer, i: JobId, start: Time, since: Time) returns (t: State)
    requires c in s.handlers && s.handlers[c] == Handling(i, Failing(Rejected), start, since) && !s.stopping
    ensures Next(cfg, s, By(c, Fail(Done))) == Some(t) && Still(s, t) && t.gate == s.gate && t.waiting == s.waiting
    ensures t.db == UpdateTx(s.db, i, FailedPatch(Rejected, s.now), s.now, cfg.jobTTL)
    ensures t.handlers == s.handlers[c := Handling(i, Acking, start, s.now)]
  {
    t := WriteStep(cfg, s, c, FailedPatch(Rejected, s.now), Acking, Done);
  }

  lemma Rejects(cfg: Config, s: State, c: Consumer, i: JobId, a: nat, start: Time, since: Time)
    returns (acts: seq<Action>, t: State)
    requires c in s.handlers && s.handlers[c] == Handling(i, Calling(a), start, since) && !s.stopping
    ensures Run(cfg, Timed, s, acts, t) && Still(s, t) && t.gate == None && t.waiting == s.waiting
    ensures t.db == UpdateTx(s.db, i, FailedPatch(Rejected, s.now), s.now, cfg.jobTTL)
    ensures t.handlers == s.handlers[c := Handling(i, Acking, start, s.now)]
  {
    var first, m := Refuses(cfg, s, c, i, a, start, since);
    t := Records(cfg, m, c, i, start, m.now);
    Rewritten(s.handlers, c, m.handlers[c], t.handlers[c]);
    Extend(cfg, Timed, s, first, m, By(c, Fail(Done)), t);
    acts := first + [By(c, Fail(Done))];
  }

  // The handler leaves: its deferred Drop finds nothing.
  lemma Leaves(cfg: Config, s: State, c: Consumer, i: JobId, start: Time, since: Time)
    returns (acts: seq<Action>, t: State)
    requires c in s.handlers && s.handlers[c] == Handling(i, Dropping, start, since) && s.audio == map[]
    ensures Run(cfg, Timed, s, acts, t) && Still(s, t) && t.gate == s.gate && t.waiting == s.waiting
    ensures t.db == s.db && t.handlers == s.handlers - {c}
  {
    var m := DropStep(s, c);
    t := m.(handlers := m.handlers - {c}, inFlight := m.inFlight - 1);
    assert m.handlers == s.handlers[c := Handling(i, Leaving, start, s.now)];
    One(cfg, Timed, s, By(c, Drop), m);
    Extend(cfg, Timed, s, [By(c, Drop)], m, By(c, Leave), t);
    acts := [By(c, Drop)] + [By(c, Leave)];
  }

  lemma Acknowledges(cfg: Config, s: State, c: Consumer, i: JobId, start: Time, since: Time) returns (t: State)
    requires c in s.handlers && s.handlers[c] == Handling(i, Acking, start, since) && !s.stopping
    ensures Run(cfg, Timed, s, [By(c, Ack(Done))], t) && Still(s, t) && t.gate == s.gate && t.waiting == s.waiting
    ensures t.db == AckTx(s.db, i + 1) && t.handlers == s.handlers[c := Handling(i, Dropping, start, s.now)]
  {
    t := AckStep(s, c, Done);
    One(cfg, Timed, s, By(c, Ack(Done)), t);
  }

  // The handler acknowledges and is gone.
  lemma Departs(cfg: Config, s: State, c: Consumer, i: JobId, start: Time, since: Time)
    returns (acts: seq<Action>, t: State)
    requires c in s.handlers && s.handlers[c] == Handling(i, Acking, start, since) && !s.stopping && s.audio == map[]
    ensures Run(cfg, Timed, s, acts, t) && Still(s, t) && t.gate == s.gate && t.waiting == s.waiting
    ensures t.db == AckTx(s.db, i + 1) && t.handlers == s.handlers - {c}
  {
    var m := Acknowledges(cfg, s, c, i, start, since);
    var more;
    more, t := Leaves(cfg, m, c, i, start, s.now);
    Rewritten(s.handlers, c, m.handlers[c], m.handlers[c]);
    Then(cfg, Timed, s, [By(c, Ack(Done))], m, more, t);
    acts := [By(c, Ack(Done))] + more;
  }

  // At most row `k` is new.
  ghost predicate OneMore<V>(was: map<MsgId, V>, now: map<MsgId, V>, k: MsgId) {
    forall m :: m in now ==> m in was || m == k
  }

  // Row `k` is gone, and none is new.
  ghost predicate NoMore<V>(was: map<MsgId, V>, now: map<MsgId, V>, k: MsgId) {
    forall m :: m in now ==> m in was && m != k
  }

  // A whole turn at the gate: the call, its failure, and the end of the handler.
  lemma Turns(cfg: Config, s: State, c: Consumer, i: JobId, a: nat, start: Time, since: Time, d: nat)
    returns (acts: seq<Action>, t: State)
    requires c in s.handlers && s.handlers[c] == Handling(i, Waiting(a), start, since)
    requires s.gate.None? && s.waiting != [] && s.waiting[0] == c && d <= cfg.upstreamTimeout
    requires forall e :: e in s.handlers ==> s.handlers[e].pc.Waiting?
    requires !s.stopping && s.audio == map[] && cfg.jobTTL > 0
    ensures Run(cfg, Timed, s, acts, t)
    ensures t.now == s.now + d && !t.stopping && t.audio == s.audio && t.batch == s.batch && t.requests == s.requests
    ensures t.gate == None && t.waiting == s.waiting[1..] && t.handlers == s.handlers - {c}
    ensures DbOthers(Advance(s.db, s.now + d), t.db, i) && NoMore(s.db.pending, t.db.pending, i + 1)
    ensures forall m :: m in t.db.entries ==> m in s.db.entries
  {
    var first, m := Calls(cfg, s, c, i, a, start, since, d);
    var second, n := Rejects(cfg, m, c, i, a, start, s.now);
    var third;
    third, t := Departs(cfg, n, c, i, start, n.now);
    Then(cfg, Timed, s, first, m, second, n);
    Then(cfg, Timed, s, first + second, n, third, t);
    acts := first + second + third;
    UpdateOthers(m.db, i, FailedPatch(Rejected, m.now), m.now, cfg.jobTTL);
    AckOthers(n.db, i);
    Rewritten(s.handlers, c, m.handlers[c], n.handlers[c]);
    Rewritten(s.handlers, c, n.handlers[c], n.handlers[c]);
  }

  // URL requests k..n wait past the length check, and every entry so far has been handed out.
  ghost predicate Stage(s: State, k: nat, n: nat) {
    && !s.stopping && s.audio == map[] && s.batch == []
    && s.db.nextId == k + 1 && s.db.last == k
    && (forall m :: m in s.db.entries ==> m <= k)
    && (forall id: JobId :: k <= id < n ==> id in s.requests && s.requests[id] == Request(Url, "", "", Adding, None))
  }

  // The stream after request `k` is added and worker `w` is handed its entry.
  function Handed(cfg: Config, db: Db, k: nat, w: nat, now: Time): Db
  {
    ReadTx(EnqueueTx(db, k, QueuedRecord(Url, "", "", now), now, cfg.jobTTL), k + 1, Worker(w), now)
  }

  lemma HandedParks(cfg: Config, db: Db, k: nat, w: nat, now: Time)
    requires db.nextId == k + 1 && cfg.jobTTL > 0
    ensures Handed(cfg, db, k, w, now).nextId == k + 2 && Handed(cfg, db, k, w, now).last == k + 1
    ensures forall m :: m in Handed(cfg, db, k, w, now).entries ==> m in db.entries || m == k + 1
    ensures OneMore(db.pending, Handed(cfg, db, k, w, now).pending, k + 1)
    ensures Parked(cfg, Handed(cfg, db, k, w, now), k, now) && Recorded(cfg, Handed(cfg, db, k, w, now), k, now)
    ensures forall i, at :: i != k && Parked(cfg, db, i, at) ==> Parked(cfg, Handed(cfg, db, k, w, now), i, at)
  {
  }

  lemma Adds(cfg: Config, s: State, k: nat, n: nat) returns (t: State)
    requires Stage(s, k, n) && k < n
    ensures Next(cfg, s, Http(k, Enqueue(Done))) == Some(t) && IsNext(t.db, k + 1) && t.db.entries[k + 1] == k
    ensures t.now == s.now && t.stopping == s.stopping && t.audio == s.audio && t.batch == s.batch && t.handlers == s.handlers
    ensures t.gate == s.gate && t.waiting == s.waiting && t.requests == s.requests - {k}
    ensures t.db == EnqueueTx(s.db, k, QueuedRecord(Url, "", "", s.now), s.now, cfg.jobTTL)
  {
    t := EnqueueStep(cfg, s, k, Done);
  }

  // Request `k` is added, and worker `w` reads it, whether or not the reply comes through.
  lemma Delivers(cfg: Config, s: State, k: nat, n: nat, w: nat, reply: Reply) returns (acts: seq<Action>, t: State)
    requires Stage(s, k, n) && k < n && w < cfg.concurrency && Worker(w) !in s.handlers && Applied(reply) && cfg.jobTTL > 0
    ensures Run(cfg, Timed, s, acts, t) && Stage(t, k + 1, n)
    ensures t.now == s.now && t.gate == s.gate && t.waiting == s.waiting && t.db == Handed(cfg, s.db, k, w, s.now)
    ensures t.handlers == if reply.Done? then s.handlers[Worker(w) := Arriving(k, s.now)] else s.handlers
  {
    var m := Adds(cfg, s, k, n);
    t := ReadStep(cfg, m, w, k + 1, reply).value;
    One(cfg, Timed, s, Http(k, Enqueue(Done)), m);
    Extend(cfg, Timed, s, [Http(k, Enqueue(Done))], m, Read(w, k + 1, reply), t);
    acts := [Http(k, Enqueue(Done))] + [Read(w, k + 1, reply)];
    HandedParks(cfg, s.db, k, w, s.now);
  }

  // Row `m` is the first pending one, and the only one handed out by `due`.
  ghost predicate AloneDue(pending: map<MsgId, Delivery>, m: MsgId, due: Time) {
    && m in pending && pending[m].at <= due
    && forall r :: r in pending && r != m ==> m < r && due < pending[r].at
  }

  lemma AloneIsAnswer(pending: map<MsgId, Delivery>, m: MsgId, due: Time, count: nat)
    requires AloneDue(pending, m, due) && count >= 1
    ensures Answered(pending, [m], due, count)
  {
    assert Below(pending.Keys, m) == {};
  }

  // The claim that gets entry i + 1 alone.
  lemma Claims(cfg: Config, s: State, i: JobId, at: Time) returns (t: State)
    requires Claimer !in s.handlers && s.batch == [] && !s.stopping && cfg.claimCount >= 1
    requires Parked(cfg, s.db, i, at) && AloneDue(s.db.pending, i + 1, s.now - cfg.claimMinIdle)
    ensures Next(cfg, s, Claim([i + 1], Done)) == Some(t)
    ensures t == s.(db := ClaimTx(s.db, [i + 1], Claimer, s.now), batch := [Message(i + 1, i)])
  {
    AloneIsAnswer(s.db.pending, i + 1, s.now - cfg.claimMinIdle, cfg.claimCount);
    t := ClaimStep(cfg, s, [i + 1], Done).value;
    assert t.batch == [Message(i + 1, i)];
  }

  // The claimer takes over entry i + 1 and starts on it.
  lemma ClaimerArrives(cfg: Config, s: State, i: JobId, at: Time) returns (acts: seq<Action>, t: State)
    requires Claimer !in s.handlers && s.batch == [] && !s.stopping && cfg.claimCount >= 1
    requires Parked(cfg, s.db, i, at) && AloneDue(s.db.pending, i + 1, s.now - cfg.claimMinIdle)
    ensures Run(cfg, Timed, s, acts, t) && acts == [Claim([i + 1], Done)] + [Begin] && Still(s, t)
    ensures t.gate == s.gate && t.waiting == s.waiting && t.db == ClaimTx(s.db, [i + 1], Claimer, s.now)
    ensures t.handlers == s.handlers[Claimer := Arriving(i, s.now)]
  {
    var m := Claims(cfg, s, i, at);
    t := Next(cfg, m, Begin).value;
    One(cfg, Timed, s, Claim([i + 1], Done), m);
    Extend(cfg, Timed, s, [Claim([i + 1], Done)], m, Begin, t);
    acts := [Claim([i + 1], Done)] + [Begin];
  }

  // A handler that has just arrived joins the line at the gate.
  lemma Joins(cfg: Config, s: State, c: Consumer, i: JobId) returns (acts: seq<Action>, t: State)
    requires c in s.handlers && s.handlers[c] == Arriving(i, s.now) && !s.stopping && cfg.jobTTL > 0
    requires i in s.db.jobs && s.db.jobs[i].rec.source == Some(Url) && !Ended(s.db.jobs[i].rec)
    ensures Run(cfg, Timed, s, acts, t) && Still(s, t) && t.gate == s.gate && t.waiting == s.waiting + [c]
    ensures t.handlers == s.handlers[c := Handling(i, Waiting(0), s.now, s.now)]
    ensures DbOthers(s.db, t.db, i) && t.db.entries == s.db.entries && t.db.pending == s.db.pending
  {
    var first, m := Marks(cfg, s, c, i);
    var second;
    second, t := Queues(cfg, m, c, i, 0, s.now, s.now);
    Then(cfg, Timed, s, first, m, second, t);
    acts := first + second;
    Rewritten(s.handlers, c, m.handlers[c], t.handlers[c]);
    UpdateOthers(s.db, i, PROCESSING_PATCH, s.now, cfg.jobTTL);
  }

  // When entry i + 1 was handed out: the worker's own, number `o`, when it started, and the orphan
  // for attempt i as long before that attempt.
  function ParkTime(cfg: Config, o: nat, i: nat): Time {
    if i < o then Spent(cfg, i) else cfg.claimMinIdle
  }

  ghost predicate AllParked(cfg: Config, db: Db, lo: nat, o: nat) {
    forall i :: lo <= i <= o ==> Parked(cfg, db, i, ParkTime(cfg, o, i))
  }

  lemma AllParkedOthers(cfg: Config, db: Db, db': Db, id: JobId, lo: nat, o: nat)
    requires AllParked(cfg, db, lo, o) && DbOthers(db, db', id) && (id < lo || id > o)
    ensures AllParked(cfg, db', lo, o)
  {
    forall i | lo <= i <= o
      ensures Parked(cfg, db', i, ParkTime(cfg, o, i))
    {
      ParkedOthers(cfg, db, db', id, i, ParkTime(cfg, o, i));
    }
  }

  // None of the parked records runs out by `now`.
  ghost predicate AllLast(cfg: Config, lo: nat, o: nat, now: Time) {
    Keeps(cfg) ==> forall i :: lo <= i <= o ==> now < ParkTime(cfg, o, i) + cfg.jobTTL
  }

  lemma AllParkedLater(cfg: Config, db: Db, now: Time, lo: nat, o: nat)
    requires AllParked(cfg, db, lo, o) && AllLast(cfg, lo, o, now)
    ensures AllParked(cfg, Advance(db, now), lo, o)
  {
    forall i | lo <= i <= o
      ensures Parked(cfg, Advance(db, now), i, ParkTime(cfg, o, i))
    {
      ParkedLater(cfg, db, now, i, ParkTime(cfg, o, i));
    }
  }

  // A handler of some other job has taken its turn until `now`.
  lemma AllParkedThen(cfg: Config, db: Db, now: Time, db': Db, id: JobId, lo: nat, o: nat)
    requires AllParked(cfg, db, lo, o) && AllLast(cfg, lo, o, now)
    requires DbOthers(Advance(db, now), db', id) && (id < lo || id > o)
    ensures AllParked(cfg, db', lo, o)
  {
    AllParkedLater(cfg, db, now, lo, o);
    AllParkedOthers(cfg, Advance(db, now), db', id, lo, o);
  }

  // A handler in the line that has nothing to do with the entries kept for later.
  predicate Guest(h: Handler, lo: nat, o: nat) {
    h == Handling(h.id, Waiting(0), h.start, h.since) && (h.id < lo || h.id > o)
  }

  // The only pending rows are those kept for later.
  ghost predicate Rows(pending: map<MsgId, Delivery>, lo: nat, o: nat) {
    forall m :: m in pending ==> lo < m <= o + 1
  }

  // Those, and the rows of the handlers in the line.
  ghost predicate Accounted(pending: map<MsgId, Delivery>, hs: map<Consumer, Handler>, lo: nat, o: nat, line: seq<Consumer>) {
    forall m :: m in pending ==> lo < m <= o + 1 || exists c :: c in line && c in hs && hs[c].mid == m
  }

  // The handlers at work are the worker's, `h`, and those in the line.
  ghost predicate Crowd(hs: map<Consumer, Handler>, lo: nat, o: nat, h: Handler, line: seq<Consumer>) {
    && hs.Keys == Elements(line) + {W} && W !in line && Distinct(line) && hs[W] == h
    && forall c :: c in line ==> Guest(hs[c], lo, o)
  }

  lemma CrowdGrows(hs: map<Consumer, Handler>, lo: nat, o: nat, h: Handler, line: seq<Consumer>, c: Consumer, g: Handler)
    requires Crowd(hs, lo, o, h, line) && c !in line && c != W && Guest(g, lo, o)
    ensures Crowd(hs[c := g], lo, o, h, line + [c])
  {
    Joined(line, c);
    assert hs[c := g].Keys == Elements(line + [c]) + {W};
  }

  lemma AccountedGrows(was: map<MsgId, Delivery>, now: map<MsgId, Delivery>, hs: map<Consumer, Handler>, lo: nat, o: nat,
                       line: seq<Consumer>, c: Consumer, g: Handler)
    requires Accounted(was, hs, lo, o, line) && c !in line && OneMore(was, now, g.mid)
    ensures Accounted(now, hs[c := g], lo, o, line + [c])
  {
    forall m | m in now
      ensures lo < m <= o + 1 || exists e :: e in line + [c] && e in hs[c := g] && hs[c := g][e].mid == m
    {
      if m == g.mid {
        assert c in line + [c];
      } else if e :| e in line && e in hs && hs[e].mid == m {
        assert e in line + [c];
      }
    }
  }

  lemma CrowdShrinks(hs: map<Consumer, Handler>, lo: nat, o: nat, h: Handler, line: seq<Consumer>)
    requires Crowd(hs, lo, o, h, line) && line != []
    ensures Crowd(hs - {line[0]}, lo, o, h, line[1..])
  {
    assert line == [line[0]] + line[1..];
    assert line[0] !in line[1..];
    assert (hs - {line[0]}).Keys == Elements(line[1..]) + {W};
  }

  lemma AccountedShrinks(was: map<MsgId, Delivery>, now: map<MsgId, Delivery>, hs: map<Consumer, Handler>, lo: nat, o: nat,
                         line: seq<Consumer>)
    requires Accounted(was, hs, lo, o, line) && line != [] && line[0] in hs && NoMore(was, now, hs[line[0]].mid)
    ensures Accounted(now, hs - {line[0]}, lo, o, line[1..])
  {
    forall m | m in now
      ensures lo < m <= o + 1 || exists e :: e in line[1..] && e in hs - {line[0]} && hs[e].mid == m
    {
      if e :| e in line && e in hs && hs[e].mid == m {
        assert line == [line[0]] + line[1..];
        assert e != line[0];
      }
    }
  }

  lemma AccountedHost(pending: map<MsgId, Delivery>, hs: map<Consumer, Handler>, lo: nat, o: nat, line: seq<Consumer>, g: Handler)
    requires Accounted(pending, hs, lo, o, line) && W !in line
    ensures Accounted(pending, hs[W := g], lo, o, line)
  {
    forall m | m in pending
      ensures lo < m <= o + 1 || exists e :: e in line && e in hs[W := g] && hs[W := g][e].mid == m
    {
      if e :| e in line && e in hs && hs[e].mid == m {
        assert e in hs[W := g];
      }
    }
  }

  lemma CrowdWaits(hs: map<Consumer, Handler>, lo: nat, o: nat, h: Handler, line: seq<Consumer>)
    requires Crowd(hs, lo, o, h, line) && h.pc.Waiting?
    ensures forall e :: e in hs ==> hs[e].pc.Waiting?
  {
    forall e | e in hs
      ensures hs[e].pc.Waiting?
    {
      assert e in hs.Keys;
    }
  }

  // One more worker reads a fresh entry.
  lemma GuestArrives(cfg: Config, s: State, lo: nat, o: nat, k: nat, n: nat, w: nat) returns (acts: seq<Action>, t: State)
    requires Stage(s, k, n) && AllParked(cfg, s.db, lo, o) && o < k < n && w < cfg.concurrency && Worker(w) !in s.handlers
    requires cfg.jobTTL > 0
    ensures Run(cfg, Timed, s, acts, t) && t.now == s.now && t.gate == s.gate && t.waiting == s.waiting && Stage(t, k + 1, n)
    ensures t.handlers == s.handlers[Worker(w) := Arriving(k, s.now)] && AllParked(cfg, t.db, lo, o)
    ensures OneMore(s.db.pending, t.db.pending, k + 1) && Recorded(cfg, t.db, k, s.now)
  {
    acts, t := Delivers(cfg, s, k, n, w, Done);
    HandedParks(cfg, s.db, k, w, s.now);
  }

  lemma GuestStays(cfg: Config, s: State, lo: nat, o: nat, k: nat, n: nat, w: nat) returns (acts: seq<Action>, t: State)
    requires Stage(s, k + 1, n) && AllParked(cfg, s.db, lo, o) && o < k && Recorded(cfg, s.db, k, s.now) && cfg.jobTTL > 0
    requires Worker(w) in s.handlers && s.handlers[Worker(w)] == Arriving(k, s.now)
    ensures Run(cfg, Timed, s, acts, t) && t.now == s.now && t.gate == s.gate && t.waiting == s.waiting + [Worker(w)]
    ensures Stage(t, k + 1, n) && AllParked(cfg, t.db, lo, o) && t.db.pending == s.db.pending
    ensures t.handlers == s.handlers[Worker(w) := Handling(k, Waiting(0), s.now, s.now)]
  {
    acts, t := Joins(cfg, s, Worker(w), k);
    AllParkedOthers(cfg, s.db, t.db, k, lo, o);
  }

  // It joins the line.
  lemma GuestJoins(cfg: Config, s: State, lo: nat, o: nat, k: nat, n: nat, h: Handler, line: seq<Consumer>, w: nat)
    returns (acts: seq<Action>, t: State)
    requires Stage(s, k, n) && Crowd(s.handlers, lo, o, h, line) && s.waiting == line && AllParked(cfg, s.db, lo, o)
    requires o < k < n && 1 <= w < cfg.concurrency && Worker(w) !in line && cfg.jobTTL > 0
    requires Accounted(s.db.pending, s.handlers, lo, o, line)
    ensures Run(cfg, Timed, s, acts, t) && t.now == s.now && t.gate == s.gate && Stage(t, k + 1, n)
    ensures t.waiting == line + [Worker(w)] && Crowd(t.handlers, lo, o, h, line + [Worker(w)])
    ensures AllParked(cfg, t.db, lo, o) && Accounted(t.db.pending, t.handlers, lo, o, line + [Worker(w)])
  {
    assert Worker(w) !in s.handlers;
    var first, m := GuestArrives(cfg, s, lo, o, k, n, w);
    var second;
    second, t := GuestStays(cfg, m, lo, o, k, n, w);
    Then(cfg, Timed, s, first, m, second, t);
    acts := first + second;
    Rewritten(s.handlers, Worker(w), m.handlers[Worker(w)], t.handlers[Worker(w)]);
    CrowdGrows(s.handlers, lo, o, h, line, Worker(w), t.handlers[Worker(w)]);
    assert t.handlers[Worker(w)].mid == k + 1;
    AccountedGrows(s.db.pending, t.db.pending, s.handlers, lo, o, line, Worker(w), t.handlers[Worker(w)]);
  }

  // Workers w..m do.
  lemma {:induction false} LineUp(cfg: Config, s: State, lo: nat, o: nat, k: nat, n: nat, h: Handler, line: seq<Consumer>, w: nat, m: nat)
    returns (acts: seq<Action>, t: State, full: seq<Consumer>)
    requires Stage(s, k, n) && Crowd(s.handlers, lo, o, h, line) && s.waiting == line && AllParked(cfg, s.db, lo, o)
    requires o < k && k + (m - w) <= n && 1 <= w <= m <= cfg.concurrency && cfg.jobTTL > 0
    requires (forall c :: c in line ==> c.Claimer? || c.index < w) && Accounted(s.db.pending, s.handlers, lo, o, line)
    ensures Run(cfg, Timed, s, acts, t) && t.now == s.now && t.gate == s.gate && Stage(t, k + (m - w), n)
    ensures t.waiting == full && |full| == |line| + (m - w) && Crowd(t.handlers, lo, o, h, full)
    ensures AllParked(cfg, t.db, lo, o) && Accounted(t.db.pending, t.handlers, lo, o, full)
    decreases m - w
  {
    if w == m {
      acts, t, full := [], s, line;
    } else {
      var first, u := GuestJoins(cfg, s, lo, o, k, n, h, line, w);
      var rest;
      rest, t, full := LineUp(cfg, u, lo, o, k + 1, n, h, line + [Worker(w)], w + 1, m);
      Then(cfg, Timed, s, first, u, rest, t);
      acts := first + rest;
    }
  }

  // The head of the line takes its turn at the gate.
  lemma HeadTurns(cfg: Config, s: State, lo: nat, o: nat, k: nat, n: nat, h: Handler, line: seq<Consumer>)
    returns (acts: seq<Action>, t: State)
    requires Sane(cfg) && Stage(s, k, n) && Crowd(s.handlers, lo, o, h, line) && line != [] && s.waiting == line + [W]
    requires s.gate.None? && h.pc.Waiting? && AllParked(cfg, s.db, lo, o) && cfg.jobTTL > 0
    requires AllLast(cfg, lo, o, s.now + cfg.upstreamTimeout) && Accounted(s.db.pending, s.handlers, lo, o, line)
    ensures Run(cfg, Timed, s, acts, t) && t.now == s.now + cfg.upstreamTimeout && Stage(t, k, n)
    ensures t.gate.None? && t.waiting == line[1..] + [W] && Crowd(t.handlers, lo, o, h, line[1..])
    ensures AllParked(cfg, t.db, lo, o) && Accounted(t.db.pending, t.handlers, lo, o, line[1..])
  {
    var c := line[0];
    assert c in line && s.waiting[0] == c;
    var g := s.handlers[c];
    assert g.mid == g.id + 1;
    CrowdWaits(s.handlers, lo, o, h, line);
    acts, t := Turns(cfg, s, c, g.id, 0, g.start, g.since, cfg.upstreamTimeout);
    HeadGone(cfg, s, lo, o, h, line, t.db);
  }

  // What is left without the head of the line.
  lemma HeadGone(cfg: Config, s: State, lo: nat, o: nat, h: Handler, line: seq<Consumer>, db: Db)
    requires Crowd(s.handlers, lo, o, h, line) && line != [] && line[0] in line && AllParked(cfg, s.db, lo, o)
    requires AllLast(cfg, lo, o, s.now + cfg.upstreamTimeout) && Accounted(s.db.pending, s.handlers, lo, o, line)
    requires DbOthers(Advance(s.db, s.now + cfg.upstreamTimeout), db, s.handlers[line[0]].id)
    requires NoMore(s.db.pending, db.pending, s.handlers[line[0]].mid)
    ensures var hs := s.handlers - {line[0]};
            Crowd(hs, lo, o, h, line[1..]) && AllParked(cfg, db, lo, o) && Accounted(db.pending, hs, lo, o, line[1..])
  {
    CrowdShrinks(s.handlers, lo, o, h, line);
    AccountedShrinks(s.db.pending, db.pending, s.handlers, lo, o, line);
    AllParkedThen(cfg, s.db, s.now + cfg.upstreamTimeout, db, s.handlers[line[0]].id, lo, o);
  }

  // `n` calls one after another.
  function Span(u: Time, n: nat): Time {
    if n == 0 then 0 else u + Span(u, n - 1)
  }

  lemma {:induction false} SpanClosed(u: Time, n: nat)
    requires u >= 0
    ensures Span(u, n) == n * u >= 0
  {
    if n > 0 {
      SpanClosed(u, n - 1);
      assert n * u == u + (n - 1) * u;
    }
  }

  lemma AllLastSooner(cfg: Config, lo: nat, o: nat, now: Time, later: Time)
    requires AllLast(cfg, lo, o, later) && now <= later
    ensures AllLast(cfg, lo, o, now)
  {
  }

  // What is kept for the attempts from `lo` on, and nothing else is pending.
  ghost predicate Kept(cfg: Config, db: Db, lo: nat, o: nat) {
    AllParked(cfg, db, lo, o) && Rows(db.pending, lo, o)
  }

  lemma KeptLater(cfg: Config, db: Db, now: Time, lo: nat, o: nat)
    requires Kept(cfg, db, lo, o) && AllLast(cfg, lo, o, now)
    ensures Kept(cfg, Advance(db, now), lo, o)
  {
    AllParkedLater(cfg, db, now, lo, o);
  }

  // Everybody ahead of the worker does.
  lemma {:induction false} Flush(cfg: Config, s: State, lo: nat, o: nat, k: nat, n: nat, h: Handler, line: seq<Consumer>)
    returns (acts: seq<Action>, t: State)
    requires Sane(cfg) && Stage(s, k, n) && Crowd(s.handlers, lo, o, h, line) && s.waiting == line + [W]
    requires s.gate.None? && h.pc.Waiting? && AllParked(cfg, s.db, lo, o) && cfg.jobTTL > 0
    requires AllLast(cfg, lo, o, s.now + Span(cfg.upstreamTimeout, |line|))
    requires Accounted(s.db.pending, s.handlers, lo, o, line)
    ensures Run(cfg, Timed, s, acts, t) && t.now == s.now + Span(cfg.upstreamTimeout, |line|) && Stage(t, k, n)
    ensures t.gate.None? && t.waiting == [W] && t.handlers == map[W := h] && Kept(cfg, t.db, lo, o)
    decreases |line|
  {
    if line == [] {
      acts, t := [], s;
      assert s.handlers.Keys == {W};
    } else {
      SpanClosed(cfg.upstreamTimeout, |line| - 1);
      var first, m := HeadTurns(cfg, s, lo, o, k, n, h, line);
      var rest;
      rest, t := Flush(cfg, m, lo, o, k, n, h, line[1..]);
      Then(cfg, Timed, s, first, m, rest, t);
      acts := first + rest;
    }
  }

  // The worker is about to queue for attempt `j`, alone, as late as can be.
  ghost predicate Ready(cfg: Config, s: State, j: nat, o: nat, k: nat, n: nat) {
    && Stage(s, k, n) && s.gate.None? && s.waiting == [] && o < k
    && s.handlers.Keys == {W}
    && s.handlers[W] == Handling(o, if j == 0 then Fetching else Backoff(j), cfg.claimMinIdle, s.handlers[W].since)
    && Kept(cfg, s.db, j, o)
    && s.now == cfg.claimMinIdle + Spent(cfg, j)
  }

  // The orphan kept for this attempt is the one row that is due.
  lemma OrphanIsDue(cfg: Config, s: State, j: nat, o: nat, k: nat, n: nat)
    requires Sane(cfg) && Ready(cfg, s, j, o, k, n) && j < o && Spent(cfg, j) < cfg.claimMinIdle
    ensures AloneDue(s.db.pending, j + 1, s.now - cfg.claimMinIdle)
  {
    assert Parked(cfg, s.db, j, ParkTime(cfg, o, j));
    forall r | r in s.db.pending && r != j + 1
      ensures j + 1 < r && Spent(cfg, j) < s.db.pending[r].at
    {
      assert Parked(cfg, s.db, r - 1, ParkTime(cfg, o, r - 1));
      LaterIsLater(cfg, j, r - 1);
    }
  }

  lemma LaterIsLater(cfg: Config, a: nat, b: nat)
    requires Sane(cfg) && a < b
    ensures Spent(cfg, a) < Spent(cfg, b)
  {
    TurnNonneg(cfg);
    DelayNonneg(cfg.retryBase, a + 1);
    SpentGrows(cfg, a + 1, b);
  }

  // The claimer takes it.
  lemma ClaimerTakes(cfg: Config, s: State, j: nat, o: nat, k: nat, n: nat) returns (acts: seq<Action>, t: State)
    requires Sane(cfg) && Ready(cfg, s, j, o, k, n) && j < o && Spent(cfg, j) < cfg.claimMinIdle && cfg.claimCount >= 1 && Keeps(cfg)
    ensures Run(cfg, Timed, s, acts, t) && Still(s, t) && t.gate == s.gate && t.waiting == s.waiting && Stage(t, k, n)
    ensures t.handlers == s.handlers[Claimer := Arriving(j, s.now)]
    ensures AllParked(cfg, t.db, j + 1, o) && t.db.jobs == s.db.jobs
    ensures forall m :: m in t.db.pending ==> m in s.db.pending
    ensures j in t.db.jobs && t.db.jobs[j].rec.source == Some(Url) && !Ended(t.db.jobs[j].rec)
  {
    OrphanIsDue(cfg, s, j, o, k, n);
    assert Parked(cfg, s.db, j, ParkTime(cfg, o, j));
    acts, t := ClaimerArrives(cfg, s, j, ParkTime(cfg, o, j));
    ClaimOthers(s.db, j, s.now);
    AllParkedOthers(cfg, s.db, t.db, j, j + 1, o);
  }

  // It joins the line with it.
  lemma ClaimerJoins(cfg: Config, s: State, j: nat, o: nat, k: nat, n: nat) returns (acts: seq<Action>, t: State)
    requires Sane(cfg) && Ready(cfg, s, j, o, k, n) && j < o && Spent(cfg, j) < cfg.claimMinIdle
    requires cfg.claimCount >= 1 && cfg.jobTTL > 0 && Keeps(cfg)
    ensures Run(cfg, Timed, s, acts, t) && t.now == s.now && t.gate.None? && Stage(t, k, n)
    ensures t.waiting == [Claimer] && Crowd(t.handlers, j + 1, o, s.handlers[W], [Claimer]) && AllParked(cfg, t.db, j + 1, o)
    ensures Accounted(t.db.pending, t.handlers, j + 1, o, [Claimer])
  {
    var first, m := ClaimerTakes(cfg, s, j, o, k, n);
    var second;
    second, t := Joins(cfg, m, Claimer, j);
    Then(cfg, Timed, s, first, m, second, t);
    acts := first + second;
    AllParkedOthers(cfg, m.db, t.db, j, j + 1, o);
    Rewritten(s.handlers, Claimer, m.handlers[Claimer], t.handlers[Claimer]);
    CrowdGrows(s.handlers, j + 1, o, s.handlers[W], [], Claimer, t.handlers[Claimer]);
    assert [] + [Claimer] == [Claimer];
    assert Claimer in [Claimer];
  }

  // Or it is done with it at once.
  lemma ClaimerDismisses(cfg: Config, s: State, j: nat, o: nat, k: nat, n: nat) returns (acts: seq<Action>, t: State)
    requires Sane(cfg) && Ready(cfg, s, j, o, k, n) && j < o && Spent(cfg, j) < cfg.claimMinIdle
    requires cfg.claimCount >= 1 && cfg.jobTTL > 0 && Keeps(cfg)
    ensures Run(cfg, Timed, s, acts, t) && t.now == s.now && t.gate.None? && t.waiting == [] && Stage(t, k, n)
    ensures t.handlers == s.handlers && Kept(cfg, t.db, j + 1, o)
  {
    var a0, m := ClaimerTakes(cfg, s, j, o, k, n);
    var rest;
    rest, t := GivesUp(cfg, m, Claimer, j);
    Then(cfg, Timed, s, a0, m, rest, t);
    acts := a0 + rest;
    AllParkedOthers(cfg, m.db, t.db, j, j + 1, o);
    NeverThere(s.handlers, Claimer, Arriving(j, s.now));
    RowsShrink(s.db.pending, t.db.pending, j, o);
  }

  lemma NeverThere<K, V>(m: map<K, V>, k: K, v: V)
    requires k !in m
    ensures m[k := v] - {k} == m
  {
  }

  lemma RowsShrink(was: map<MsgId, Delivery>, now: map<MsgId, Delivery>, lo: nat, o: nat)
    requires Rows(was, lo, o) && NoMore(was, now, lo + 1)
    ensures Rows(now, lo + 1, o)
  {
  }

  // A handler that has just arrived marks its job, fails to download, and leaves.
  lemma GivesUp(cfg: Config, s: State, c: Consumer, i: JobId) returns (acts: seq<Action>, t: State)
    requires c in s.handlers && s.handlers[c] == Arriving(i, s.now) && !s.stopping && s.audio == map[] && cfg.jobTTL > 0
    requires i in s.db.jobs && s.db.jobs[i].rec.source == Some(Url) && !Ended(s.db.jobs[i].rec)
    ensures Run(cfg, Timed, s, acts, t) && Still(s, t) && t.gate == s.gate && t.waiting == s.waiting
    ensures t.handlers == s.handlers - {c} && DbOthers(s.db, t.db, i)
    ensures NoMore(s.db.pending, t.db.pending, i + 1)
    ensures forall m :: m in t.db.entries ==> m in s.db.entries
  {
    var a0, b := Marks(cfg, s, c, i);
    var a1, d := FailsDownload(cfg, b, c, i);
    var a2;
    a2, t := Departs(cfg, d, c, i, s.now, s.now);
    Then(cfg, Timed, s, a0, b, a1, d);
    Then(cfg, Timed, s, a0 + a1, d, a2, t);
    acts := a0 + a1 + a2;
    UpdateOthers(s.db, i, PROCESSING_PATCH, s.now, cfg.jobTTL);
    UpdateOthers(b.db, i, FailedPatch(DownloadFailed, s.now), s.now, cfg.jobTTL);
    AckOthers(d.db, i);
    Rewritten(s.handlers, c, b.handlers[c], d.handlers[c]);
    Rewritten(s.handlers, c, d.handlers[c], d.handlers[c]);
  }

  // All others who are to be ahead of the worker join the line, `m` in all.
  lemma Company(cfg: Config, s: State, j: nat, o: nat, k: nat, n: nat, m: nat)
    returns (acts: seq<Action>, t: State, line: seq<Consumer>, k': nat)
    requires Sane(cfg) && Ready(cfg, s, j, o, k, n) && j < o && Spent(cfg, j) < cfg.claimMinIdle
    requires m <= cfg.concurrency && k + m <= n && cfg.claimCount >= 1 && cfg.jobTTL > 0 && Keeps(cfg)
    ensures Run(cfg, Timed, s, acts, t) && t.now == s.now && t.gate.None? && k <= k' <= k + m && Stage(t, k', n)
    ensures t.waiting == line && |line| == m && Crowd(t.handlers, j + 1, o, s.handlers[W], line) && AllParked(cfg, t.db, j + 1, o)
    ensures Accounted(t.db.pending, t.handlers, j + 1, o, line)
  {
    if m == 0 {
      acts, t := ClaimerDismisses(cfg, s, j, o, k, n);
      line, k' := [], k;
    } else {
      var first, u := ClaimerJoins(cfg, s, j, o, k, n);
      var second;
      second, t, line := LineUp(cfg, u, j + 1, o, k, n, s.handlers[W], [Claimer], 1, m);
      Then(cfg, Timed, s, first, u, second, t);
      acts, k' := first + second, k + (m - 1);
    }
  }

  // The worker has been inside its upstream call for attempt `j` since `since`.
  ghost predicate OnCall(cfg: Config, s: State, j: nat, lo: nat, o: nat, k: nat, n: nat, since: Time) {
    && Stage(s, k, n) && s.gate == Some(W) && s.waiting == []
    && s.handlers == map[W := Handling(o, Calling(j), cfg.claimMinIdle, since)]
    && Kept(cfg, s.db, lo, o)
  }

  lemma CrowdHost(hs: map<Consumer, Handler>, lo: nat, o: nat, h: Handler, line: seq<Consumer>, g: Handler)
    requires Crowd(hs, lo, o, h, line)
    ensures Crowd(hs[W := g], lo, o, g, line)
  {
    assert hs[W := g].Keys == hs.Keys;
  }

  // The worker joins the line behind its company, and waits until the gate is its own.
  lemma Waits(cfg: Config, s: State, j: nat, lo: nat, o: nat, k: nat, n: nat, line: seq<Consumer>, since: Time)
    returns (acts: seq<Action>, t: State)
    requires Sane(cfg) && Stage(s, k, n) && s.gate.None? && s.waiting == line && cfg.jobTTL > 0
    requires Crowd(s.handlers, lo, o, Handling(o, if j == 0 then Fetching else Backoff(j), cfg.claimMinIdle, since), line)
    requires AllParked(cfg, s.db, lo, o) && AllLast(cfg, lo, o, s.now + Span(cfg.upstreamTimeout, |line|))
    requires Accounted(s.db.pending, s.handlers, lo, o, line)
    ensures Run(cfg, Timed, s, acts, t) && t.now == s.now + Span(cfg.upstreamTimeout, |line|) && Stage(t, k, n)
    ensures t.gate.None? && t.waiting == [W] && Kept(cfg, t.db, lo, o)
    ensures t.handlers == map[W := Handling(o, Waiting(j), cfg.claimMinIdle, s.now)]
  {
    var first, m := Queues(cfg, s, W, o, j, cfg.claimMinIdle, since);
    CrowdHost(s.handlers, lo, o, s.handlers[W], line, m.handlers[W]);
    AccountedHost(s.db.pending, s.handlers, lo, o, line, m.handlers[W]);
    var second;
    second, t := Flush(cfg, m, lo, o, k, n, m.handlers[W], line);
    Then(cfg, Timed, s, first, m, second, t);
    acts := first + second;
  }

  // With `m` others ahead, the worker is at the head of the line `m` turns later.
  lemma Advances(cfg: Config, s: State, j: nat, o: nat, k: nat, n: nat, m: nat)
    returns (acts: seq<Action>, t: State, k': nat)
    requires Sane(cfg) && Ready(cfg, s, j, o, k, n) && j < o && m <= cfg.concurrency && k + m <= n
    requires Keeps(cfg) && Spent(cfg, j) < cfg.claimMinIdle && cfg.claimCount >= 1 && cfg.jobTTL > 0 && AllLast(cfg, j + 1, o, s.now + Span(cfg.upstreamTimeout, m))
    ensures Run(cfg, Timed, s, acts, t) && t.now == s.now + Span(cfg.upstreamTimeout, m)
    ensures k <= k' <= k + m && Stage(t, k', n) && t.gate.None? && t.waiting == [W]
    ensures t.handlers == map[W := Handling(o, Waiting(j), cfg.claimMinIdle, s.now)] && Kept(cfg, t.db, j + 1, o)
  {
    var first, a, line;
    first, a, line, k' := Company(cfg, s, j, o, k, n, m);
    var second;
    second, t := Waits(cfg, a, j, j + 1, o, k', n, line, s.handlers[W].since);
    Then(cfg, Timed, s, first, a, second, t);
    acts := first + second;
  }

  // There it makes its call.
  lemma Connects(cfg: Config, s: State, j: nat, lo: nat, o: nat, k: nat, n: nat, since: Time, d: nat)
    returns (acts: seq<Action>, t: State)
    requires Stage(s, k, n) && s.gate.None? && s.waiting == [W] && d <= cfg.upstreamTimeout
    requires s.handlers == map[W := Handling(o, Waiting(j), cfg.claimMinIdle, since)]
    requires Kept(cfg, s.db, lo, o) && AllLast(cfg, lo, o, s.now + d)
    ensures Run(cfg, Timed, s, acts, t) && t.now == s.now + d && OnCall(cfg, t, j, lo, o, k, n, s.now)
  {
    acts, t := Calls(cfg, s, W, o, j, cfg.claimMinIdle, since, d);
    KeptLater(cfg, s.db, t.now, lo, o);
  }

  // Inside its call, `m` turns and `rest` after it was ready.
  lemma Round(cfg: Config, s: State, j: nat, o: nat, k: nat, n: nat, m: nat, rest: nat)
    returns (acts: seq<Action>, t: State, k': nat)
    requires Sane(cfg) && Ready(cfg, s, j, o, k, n) && j < o && m <= cfg.concurrency && k + m <= n
    requires Keeps(cfg) && Spent(cfg, j) < cfg.claimMinIdle && cfg.claimCount >= 1 && cfg.jobTTL > 0 && rest <= cfg.upstreamTimeout
    requires AllLast(cfg, j + 1, o, s.now + Span(cfg.upstreamTimeout, m) + rest)
    ensures Run(cfg, Timed, s, acts, t) && t.now == s.now + Span(cfg.upstreamTimeout, m) + rest
    ensures k <= k' <= k + m && OnCall(cfg, t, j, j + 1, o, k', n, t.now - rest)
  {
    AllLastSooner(cfg, j + 1, o, s.now + Span(cfg.upstreamTimeout, m), s.now + Span(cfg.upstreamTimeout, m) + rest);
    var first, a;
    first, a, k' := Advances(cfg, s, j, o, k, n, m);
    var second;
    second, t := Connects(cfg, a, j, j + 1, o, k', n, s.now, rest);
    assert t.now - rest == a.now;
    Then(cfg, Timed, s, first, a, second, t);
    acts := first + second;
  }

  // The call fails, and the worker backs off for `d`.
  lemma BacksOff(cfg: Config, s: State, j: nat, lo: nat, o: nat, k: nat, n: nat, since: Time, d: nat)
    returns (acts: seq<Action>, t: State)
    requires OnCall(cfg, s, j, lo, o, k, n, since) && j < cfg.maxRetries && d <= Delay(cfg.retryBase, j + 1)
    requires AllLast(cfg, lo, o, s.now + d)
    ensures Run(cfg, Timed, s, acts, t) && t.now == s.now + d && Stage(t, k, n) && t.gate.None? && t.waiting == []
    ensures t.handlers == map[W := Handling(o, Backoff(j + 1), cfg.claimMinIdle, s.now)]
    ensures Kept(cfg, t.db, lo, o)
  {
    var m := Move(s, W, Backoff(j + 1)).(gate := None);
    assert m.handlers == map[W := Handling(o, Backoff(j + 1), cfg.claimMinIdle, s.now)];
    t := m.(now := m.now + d, db := Advance(m.db, m.now + d));
    One(cfg, Timed, s, By(W, Upstream(Transient)), m);
    assert Allows(cfg, Timed, m, Tick(d));
    Extend(cfg, Timed, s, [By(W, Upstream(Transient))], m, Tick(d), t);
    acts := [By(W, Upstream(Transient))] + [Tick(d)];
    KeptLater(cfg, s.db, t.now, lo, o);
  }

  // As old as a claim asks for, the worker is at work, alone, and the claimer is free.
  ghost predicate Caught(cfg: Config, s: State, o: nat) {
    && s.now == 2 * cfg.claimMinIdle && !s.stopping && s.audio == map[] && s.batch == [] && s.waiting == []
    && s.handlers.Keys == {W}
    && s.handlers[W] == Handling(o, s.handlers[W].pc, cfg.claimMinIdle, s.handlers[W].since)
    && AtWork(s, s.handlers[W].pc)
    && Parked(cfg, s.db, o, cfg.claimMinIdle) && Rows(s.db.pending, o, o)
  }

  // The parked records outlast every attempt made before the worker is that old.
  lemma ParkedLast(cfg: Config, lo: nat, o: nat, now: Time)
    requires Sane(cfg) && now <= 2 * cfg.claimMinIdle && (lo < o ==> now <= cfg.claimMinIdle + Spent(cfg, lo))
    ensures AllLast(cfg, lo, o, now)
  {
    if Keeps(cfg) {
      forall i | lo <= i <= o
        ensures now < ParkTime(cfg, o, i) + cfg.jobTTL
      {
        SpentGrows(cfg, lo, i);
      }
    }
  }

  lemma NotMore(q: nat, c: nat, u: Time)
    requires u > 0 && q * u < (c + 1) * u
    ensures q <= c
  {
    if q > c {
      TimesMore(c + 1, q, u);
    }
  }

  // How `d` splits into whole turns of others and the rest of the worker's own.
  lemma Slots(u: Time, d: Time, c: nat) returns (m: nat, rest: nat)
    requires u > 0 && 0 < d <= (c + 1) * u
    ensures m <= c && 0 < rest <= u && Span(u, m) + rest == d
  {
    var q := (d - 1) / u;
    assert q * u <= d - 1 < q * u + u;
    NotMore(q, c, u);
    m := q;
    rest := d - q * u;
    SpanClosed(u, m);
  }

  // The last attempt needed: the worker is inside its call when it is old enough.
  lemma LastRound(cfg: Config, s: State, j: nat, o: nat, k: nat, n: nat) returns (acts: seq<Action>, t: State)
    requires Sane(cfg) && Ready(cfg, s, j, o, k, n) && j < o && cfg.claimCount >= 1 && k + cfg.concurrency <= n
    requires Spent(cfg, j) < cfg.claimMinIdle <= Spent(cfg, j) + Turn(cfg) && cfg.claimMinIdle < cfg.jobTTL
    requires o == j + 1
    ensures Run(cfg, Timed, s, acts, t) && Caught(cfg, t, o)
  {
    var m, rest := Slots(cfg.upstreamTimeout, cfg.claimMinIdle - Spent(cfg, j), cfg.concurrency);
    ParkedLast(cfg, j + 1, o, 2 * cfg.claimMinIdle);
    SpentGrows(cfg, 0, j);
    assert s.now + Span(cfg.upstreamTimeout, m) + rest == 2 * cfg.claimMinIdle;
    var k';
    acts, t, k' := Round(cfg, s, j, o, k, n, m, rest);
    assert Parked(cfg, t.db, o, ParkTime(cfg, o, o));
  }

  // An attempt as long as can be, up to its failure and `d` of the backoff after it.
  lemma FullRound(cfg: Config, s: State, j: nat, o: nat, k: nat, n: nat, d: nat)
    returns (acts: seq<Action>, t: State, k': nat)
    requires Sane(cfg) && Ready(cfg, s, j, o, k, n) && j < o && cfg.claimCount >= 1 && k + cfg.concurrency <= n
    requires j < cfg.maxRetries && cfg.claimMinIdle < cfg.jobTTL && d <= Delay(cfg.retryBase, j + 1)
    requires Spent(cfg, j) + Turn(cfg) + d <= cfg.claimMinIdle
    ensures Run(cfg, Timed, s, acts, t) && t.now == cfg.claimMinIdle + Spent(cfg, j) + Turn(cfg) + d
    ensures k <= k' <= k + cfg.concurrency && Stage(t, k', n) && t.gate.None? && t.waiting == []
    ensures t.handlers.Keys == {W} && t.handlers[W] == Handling(o, Backoff(j + 1), cfg.claimMinIdle, t.handlers[W].since)
    ensures Kept(cfg, t.db, j + 1, o)
  {
    var u, c := cfg.upstreamTimeout, cfg.concurrency;
    SpanClosed(u, c);
    TurnNonneg(cfg);
    SpentGrows(cfg, 0, j);
    var now := cfg.claimMinIdle + Spent(cfg, j) + Turn(cfg);
    ParkedLast(cfg, j + 1, o, now + d);
    AllLastSooner(cfg, j + 1, o, now, now + d);
    assert s.now + Span(u, c) + u == now;
    var first, m;
    first, m, k' := Round(cfg, s, j, o, k, n, c, u);
    var second;
    second, t := BacksOff(cfg, m, j, j + 1, o, k', n, m.now - u, d);
    Then(cfg, Timed, s, first, m, second, t);
    acts := first + second;
  }

  // Every attempt that starts before the worker is old enough has an orphan parked for it.
  ghost predicate Provided(cfg: Config, o: nat) {
    && o <= cfg.maxRetries + 1
    && (forall i :: 0 <= i < o ==> Spent(cfg, i) < cfg.claimMinIdle)
    && (forall i :: o <= i <= cfg.maxRetries ==> cfg.claimMinIdle <= Spent(cfg, i))
  }

  lemma EnoughRequests(c: nat, k: nat, k': nat, n: nat, j: nat, o: nat)
    requires j < o && k + (o - j) * c <= n && k' <= k + c
    ensures k + c <= n && k' + (o - (j + 1)) * c <= n
  {
    assert (o - j) * c == (o - (j + 1)) * c + c;
    assert (o - (j + 1)) * c >= 0;
  }

  // Between two attempts the worker backs off to the end, or until it is old enough.
  lemma BackoffNeeded(cfg: Config, j: nat, o: nat)
    requires Sane(cfg) && Provided(cfg, o) && j < o && cfg.claimMinIdle <= Budget(cfg)
    requires Spent(cfg, j) + Turn(cfg) < cfg.claimMinIdle
    ensures j < cfg.maxRetries && Delay(cfg.retryBase, j + 1) >= 0
    ensures Spent(cfg, j + 1) == Spent(cfg, j) + Turn(cfg) + Delay(cfg.retryBase, j + 1)
    ensures if j + 1 < o then Spent(cfg, j + 1) < cfg.claimMinIdle else cfg.claimMinIdle <= Spent(cfg, j + 1)
  {
    DelayNonneg(cfg.retryBase, j + 1);
  }

  lemma OnlyOneLeft(cfg: Config, j: nat, o: nat)
    requires Sane(cfg) && Provided(cfg, o) && j < o && cfg.claimMinIdle <= Spent(cfg, j) + Turn(cfg)
    ensures o == j + 1
  {
    DelayNonneg(cfg.retryBase, j + 1);
    var next := Spent(cfg, j + 1);
  }

  // One attempt after the other.
  lemma {:induction false} Reach(cfg: Config, s: State, j: nat, o: nat, k: nat, n: nat) returns (acts: seq<Action>, t: State)
    requires Sane(cfg) && Ready(cfg, s, j, o, k, n) && Provided(cfg, o) && j < o && cfg.claimCount >= 1
    requires cfg.claimMinIdle < cfg.jobTTL && cfg.claimMinIdle <= Budget(cfg) && k + (o - j) * cfg.concurrency <= n
    ensures Run(cfg, Timed, s, acts, t) && Caught(cfg, t, o)
    decreases o - j
  {
    EnoughRequests(cfg.concurrency, k, k, n, j, o);
    if cfg.claimMinIdle <= Spent(cfg, j) + Turn(cfg) {
      OnlyOneLeft(cfg, j, o);
      acts, t := LastRound(cfg, s, j, o, k, n);
    } else {
      BackoffNeeded(cfg, j, o);
      var spare := cfg.claimMinIdle - Spent(cfg, j) - Turn(cfg);
      var k';
      acts, t, k' := FullRound(cfg, s, j, o, k, n, if j + 1 == o then spare else Delay(cfg.retryBase, j + 1));
      if j + 1 == o {
        assert Parked(cfg, t.db, o, ParkTime(cfg, o, o));
      } else {
        EnoughRequests(cfg.concurrency, k, k', n, j, o);
        var first, m := acts, t;
        var rest;
        rest, t := Reach(cfg, m, j + 1, o, k', n);
        Then(cfg, Timed, s, first, m, rest, t);
        acts := first + rest;
      }
    }
  }

  // Nobody is at work.
  ghost predicate Quiet(s: State, k: nat, n: nat) {
    Stage(s, k, n) && s.handlers == map[] && s.gate.None? && s.waiting == []
  }

  // Requests 0..n have passed the length check, and nothing is in the stream.
  ghost predicate Opened(s: State, n: nat) {
    && Quiet(s, 0, n) && s.now == 0 && s.db.entries == map[] && s.db.pending == map[]
    && forall id: JobId :: id in s.past.ids ==> id < n
  }

  lemma OpensOne(cfg: Config, s: State, n: nat) returns (acts: seq<Action>, t: State)
    requires Opened(s, n) && cfg.queueSize >= 1
    ensures Run(cfg, Timed, s, acts, t) && Opened(t, n + 1)
  {
    var m := HttpStep(cfg, s, n, StartUrl("", "")).value;
    t := HttpStep(cfg, m, n, CheckLen(Done)).value;
    One(cfg, Timed, s, Http(n, StartUrl("", "")), m);
    Extend(cfg, Timed, s, [Http(n, StartUrl("", ""))], m, Http(n, CheckLen(Done)), t);
    acts := [Http(n, StartUrl("", ""))] + [Http(n, CheckLen(Done))];
  }

  lemma {:induction false} OpensAll(cfg: Config, n: nat) returns (acts: seq<Action>, s: State)
    requires cfg.queueSize >= 1
    ensures Run(cfg, Timed, START, acts, s) && Opened(s, n)
  {
    if n == 0 {
      acts, s := [], START;
    } else {
      var first, m := OpensAll(cfg, n - 1);
      var rest;
      rest, s := OpensOne(cfg, m, n - 1);
      Then(cfg, Timed, START, first, m, rest, s);
      acts := first + rest;
    }
  }

  lemma Idles(cfg: Config, s: State, k: nat, n: nat, d: nat) returns (t: State)
    requires Quiet(s, k, n)
    ensures Run(cfg, Timed, s, [Tick(d)], t) && Quiet(t, k, n)
    ensures t.now == s.now + d && t.db == Advance(s.db, s.now + d)
  {
    t := s.(now := s.now + d, db := Advance(s.db, s.now + d));
    One(cfg, Timed, s, Tick(d), t);
  }

  // The orphans for the attempts before `i` are parked.
  ghost predicate ParkedUpTo(cfg: Config, db: Db, i: nat) {
    && (forall p :: 0 <= p < i ==> Parked(cfg, db, p, Spent(cfg, p)))
    && (forall m :: m in db.pending ==> 0 < m <= i)
  }

  lemma ParkedUpToLater(cfg: Config, db: Db, i: nat, now: Time)
    requires Sane(cfg) && ParkedUpTo(cfg, db, i) && now <= cfg.claimMinIdle < cfg.jobTTL
    ensures ParkedUpTo(cfg, Advance(db, now), i)
  {
    forall p | 0 <= p < i
      ensures Parked(cfg, Advance(db, now), p, Spent(cfg, p))
    {
      SpentGrows(cfg, 0, p);
      ParkedLater(cfg, db, now, p, Spent(cfg, p));
    }
  }

  lemma Lingers(cfg: Config, s: State, i: nat, n: nat, now: Time) returns (t: State)
    requires Sane(cfg) && Quiet(s, i, n) && ParkedUpTo(cfg, s.db, i) && s.now <= now <= cfg.claimMinIdle < cfg.jobTTL
    ensures Run(cfg, Timed, s, [Tick(now - s.now)], t) && Quiet(t, i, n) && t.now == now && ParkedUpTo(cfg, t.db, i)
  {
    t := Idles(cfg, s, i, n, now - s.now);
    ParkedUpToLater(cfg, s.db, i, now);
  }

  lemma ParksNow(cfg: Config, s: State, i: nat, n: nat) returns (acts: seq<Action>, t: State)
    requires Quiet(s, i, n) && ParkedUpTo(cfg, s.db, i) && i < n && cfg.concurrency >= 1 && cfg.jobTTL > 0
    requires s.now == Spent(cfg, i)
    ensures Run(cfg, Timed, s, acts, t) && Quiet(t, i + 1, n) && t.now == s.now && ParkedUpTo(cfg, t.db, i + 1)
  {
    acts, t := Delivers(cfg, s, i, n, 0, ReplyLost);
    HandedParksAll(cfg, s.db, i, s.now);
  }

  lemma ParksOne(cfg: Config, s: State, i: nat, n: nat, d: nat) returns (acts: seq<Action>, t: State)
    requires Sane(cfg) && Quiet(s, i, n) && ParkedUpTo(cfg, s.db, i) && i < n && cfg.concurrency >= 1
    requires s.now + d == Spent(cfg, i) < cfg.claimMinIdle < cfg.jobTTL && cfg.jobTTL > 0
    ensures Run(cfg, Timed, s, acts, t) && Quiet(t, i + 1, n) && t.now == s.now + d && ParkedUpTo(cfg, t.db, i + 1)
  {
    var m := Lingers(cfg, s, i, n, s.now + d);
    var rest;
    rest, t := ParksNow(cfg, m, i, n);
    Then(cfg, Timed, s, [Tick(d)], m, rest, t);
    acts := [Tick(d)] + rest;
  }

  lemma HandedParksAll(cfg: Config, db: Db, i: nat, now: Time)
    requires ParkedUpTo(cfg, db, i) && db.nextId == i + 1 && cfg.jobTTL > 0 && now == Spent(cfg, i)
    ensures ParkedUpTo(cfg, Handed(cfg, db, i, 0, now), i + 1)
  {
    HandedParks(cfg, db, i, 0, now);
  }

  // Orphan by orphan, and then time passes until the worker's own message comes.
  lemma {:induction false} ParksAll(cfg: Config, s: State, i: nat, o: nat, n: nat) returns (acts: seq<Action>, t: State)
    requires Sane(cfg) && Quiet(s, i, n) && ParkedUpTo(cfg, s.db, i) && i <= o < n && cfg.concurrency >= 1
    requires Provided(cfg, o) && s.now <= (if i < o then Spent(cfg, i) else cfg.claimMinIdle) && cfg.claimMinIdle < cfg.jobTTL
    ensures Run(cfg, Timed, s, acts, t) && Quiet(t, o, n) && t.now == cfg.claimMinIdle && ParkedUpTo(cfg, t.db, o)
    decreases o - i
  {
    if i == o {
      t := Lingers(cfg, s, o, n, cfg.claimMinIdle);
      acts := [Tick(cfg.claimMinIdle - s.now)];
    } else {
      SpentGrows(cfg, 0, i);
      var first, m := ParksOne(cfg, s, i, n, Spent(cfg, i) - s.now);
      SpentGrows(cfg, i, i + 1);
      var rest;
      rest, t := ParksAll(cfg, m, i + 1, o, n);
      Then(cfg, Timed, s, first, m, rest, t);
      acts := first + rest;
    }
  }

  // The worker reads its message and starts its download.
  lemma Starts(cfg: Config, s: State, o: nat, n: nat) returns (acts: seq<Action>, t: State)
    requires Quiet(s, o, n) && ParkedUpTo(cfg, s.db, o) && o < n && cfg.concurrency >= 1 && cfg.jobTTL > 0
    requires s.now == cfg.claimMinIdle
    ensures Run(cfg, Timed, s, acts, t) && t.now == s.now && Stage(t, o + 1, n) && t.gate.None? && t.waiting == []
    ensures t.handlers == map[W := Handling(o, Fetching, cfg.claimMinIdle, cfg.claimMinIdle)]
    ensures Kept(cfg, t.db, 0, o)
  {
    var first, m := Delivers(cfg, s, o, n, 0, Done);
    HandedParks(cfg, s.db, o, 0, s.now);
    assert AllParked(cfg, m.db, 0, o);
    var rest;
    rest, t := Marks(cfg, m, W, o);
    Then(cfg, Timed, s, first, m, rest, t);
    acts := first + rest;
    MarkedStays(cfg, m.db, o, s.now);
  }

  lemma MarkedStays(cfg: Config, db: Db, o: nat, now: Time)
    requires AllParked(cfg, db, 0, o) && now == cfg.claimMinIdle && cfg.jobTTL > 0
    ensures AllParked(cfg, UpdateTx(db, o, PROCESSING_PATCH, now, cfg.jobTTL), 0, o)
  {
    var db' := UpdateTx(db, o, PROCESSING_PATCH, now, cfg.jobTTL);
    UpdateOthers(db, o, PROCESSING_PATCH, now, cfg.jobTTL);
    forall i | 0 <= i <= o
      ensures Parked(cfg, db', i, ParkTime(cfg, o, i))
    {
      if i < o {
        ParkedOthers(cfg, db, db', o, i, ParkTime(cfg, o, i));
      } else {
        assert Parked(cfg, db, o, ParkTime(cfg, o, o));
      }
    }
  }

  lemma Downloads(cfg: Config, s: State, o: nat, n: nat, d: nat) returns (t: State)
    requires Sane(cfg) && Stage(s, o + 1, n) && s.gate.None? && s.waiting == [] && d <= cfg.downloadTimeout
    requires s.handlers == map[W := Handling(o, Fetching, cfg.claimMinIdle, cfg.claimMinIdle)]
    requires Kept(cfg, s.db, 0, o) && s.now == cfg.claimMinIdle && d <= cfg.claimMinIdle
    ensures Run(cfg, Timed, s, [Tick(d)], t) && t.now == s.now + d && t.db == Advance(s.db, t.now)
    ensures Stage(t, o + 1, n) && t.gate.None? && t.waiting == [] && t.handlers == s.handlers
    ensures Kept(cfg, t.db, 0, o)
  {
    t := s.(now := s.now + d, db := Advance(s.db, s.now + d));
    assert Allows(cfg, Timed, s, Tick(d));
    One(cfg, Timed, s, Tick(d), t);
    SpentGrows(cfg, 0, 0);
    ParkedLast(cfg, 0, o, t.now);
    KeptLater(cfg, s.db, t.now, 0, o);
  }

  // How many attempts start before the worker is old enough, of the first `n`.
  function Starting(cfg: Config, n: nat): nat {
    if n == 0 then 0 else if Spent(cfg, n - 1) < cfg.claimMinIdle then n else Starting(cfg, n - 1)
  }

  lemma {:induction false} StartingOk(cfg: Config, n: nat)
    requires Sane(cfg)
    ensures Starting(cfg, n) <= n
    ensures forall i :: 0 <= i < Starting(cfg, n) ==> Spent(cfg, i) < cfg.claimMinIdle
    ensures forall i :: Starting(cfg, n) <= i < n ==> cfg.claimMinIdle <= Spent(cfg, i)
  {
    if n > 0 {
      if Spent(cfg, n - 1) < cfg.claimMinIdle {
        forall i | 0 <= i < n
          ensures Spent(cfg, i) < cfg.claimMinIdle
        {
          SpentGrows(cfg, i, n - 1);
        }
      } else {
        StartingOk(cfg, n - 1);
      }
    }
  }

  ghost predicate Settings(cfg: Config) {
    && cfg.concurrency >= 1 && cfg.queueSize >= 1 && cfg.claimCount >= 1
    && cfg.downloadTimeout >= 0 && cfg.upstreamTimeout > 0 && cfg.retryBase >= 0
    && 0 <= cfg.claimMinIdle && (0 < cfg.claimMinIdle || 0 < cfg.jobTTL)
  }

  // A timely run in which a worker becomes as old as a claim asks for.
  lemma CaughtIsReachable(cfg: Config) returns (acts: seq<Action>, t: State, o: nat)
    requires Settings(cfg) && Keeps(cfg) && cfg.claimMinIdle <= Budget(cfg)
    ensures Run(cfg, Timed, START, acts, t) && Caught(cfg, t, o)
  {
    o := Starting(cfg, cfg.maxRetries + 1);
    StartingOk(cfg, cfg.maxRetries + 1);
    SpentGrows(cfg, 0, 0);
    var n := o + 1 + o * cfg.concurrency;
    assert o * cfg.concurrency >= 0;
    var a0, s0 := OpensAll(cfg, n);
    var a1, s1 := ParksAll(cfg, s0, 0, o, n);
    Then(cfg, Timed, START, a0, s0, a1, s1);
    var a2, s2 := Starts(cfg, s1, o, n);
    Then(cfg, Timed, START, a0 + a1, s1, a2, s2);
    var rest;
    rest, t := Overtakes(cfg, s2, o, n);
    Then(cfg, Timed, START, a0 + a1 + a2, s2, rest, t);
    acts := a0 + a1 + a2 + rest;
  }

  // From the start of the download.
  lemma Overtakes(cfg: Config, s: State, o: nat, n: nat) returns (acts: seq<Action>, t: State)
    requires Settings(cfg) && Keeps(cfg) && cfg.claimMinIdle <= Budget(cfg) && Provided(cfg, o)
    requires Stage(s, o + 1, n) && s.gate.None? && s.waiting == [] && o + 1 + o * cfg.concurrency <= n
    requires s.handlers == map[W := Handling(o, Fetching, cfg.claimMinIdle, cfg.claimMinIdle)]
    requires Kept(cfg, s.db, 0, o) && s.now == cfg.claimMinIdle
    ensures Run(cfg, Timed, s, acts, t) && Caught(cfg, t, o)
  {
    assert Spent(cfg, 0) == cfg.downloadTimeout;
    if cfg.claimMinIdle <= cfg.downloadTimeout {
      t := Downloads(cfg, s, o, n, cfg.claimMinIdle);
      acts := [Tick(cfg.claimMinIdle)];
      assert Parked(cfg, t.db, o, ParkTime(cfg, o, o));
    } else {
      var m := Downloads(cfg, s, o, n, cfg.downloadTimeout);
      var rest;
      rest, t := Reach(cfg, m, 0, o, o + 1, n);
      Then(cfg, Timed, s, [Tick(cfg.downloadTimeout)], m, rest, t);
      acts := [Tick(cfg.downloadTimeout)] + rest;
    }
  }

  // The download of a marked job fails, and the handler records it.
  lemma FailsDownload(cfg: Config, s: State, c: Consumer, i: JobId) returns (acts: seq<Action>, t: State)
    requires c in s.handlers && s.handlers[c] == Handling(i, Fetching, s.now, s.now) && !s.stopping
    ensures Run(cfg, Timed, s, acts, t) && Still(s, t) && t.gate == s.gate && t.waiting == s.waiting
    ensures t.db == UpdateTx(s.db, i, FailedPatch(DownloadFailed, s.now), s.now, cfg.jobTTL)
    ensures t.handlers == s.handlers[c := Handling(i, Acking, s.now, s.now)]
  {
    var m := FetchStep(s, c, false);
    assert m.handlers == s.handlers[c := Handling(i, Failing(DownloadFailed), s.now, s.now)];
    t := WriteStep(cfg, m, c, FailedPatch(DownloadFailed, m.now), Acking, Done);
    One(cfg, Timed, s, By(c, Fetch(false)), m);
    Extend(cfg, Timed, s, [By(c, Fetch(false))], m, By(c, Fail(Done)), t);
    acts := [By(c, Fetch(false))] + [By(c, Fail(Done))];
  }

  // The call succeeds, and the handler is about to store the result.
  lemma Succeeds(cfg: Config, s: State, c: Consumer, i: JobId, a: nat, start: Time, since: Time)
    returns (acts: seq<Action>, t: State)
    requires c in s.handlers && s.handlers[c] == Handling(i, Calling(a), start, since)
    ensures Run(cfg, Timed, s, acts, t) && Still(s, t) && t.db == s.db
    ensures t.handlers == s.handlers[c := Handling(i, Completing(""), start, s.now)]
  {
    var m := Move(s, c, Zeroing(Success(""))).(gate := None);
    assert m.handlers == s.handlers[c := Handling(i, Zeroing(Success("")), start, s.now)];
    t := Emptied(m, c, Completing(""));
    One(cfg, Timed, s, By(c, Upstream(Body(""))), m);
    Extend(cfg, Timed, s, [By(c, Upstream(Body("")))], m, By(c, ZeroData), t);
    acts := [By(c, Upstream(Body("")))] + [By(c, ZeroData)];
  }

  // Where a worker caught at work can be.
  ghost predicate AtWork(s: State, pc: Pc) {
    match pc
    case Fetching => s.gate.None?
    case Backoff(a) => s.gate.None? && a > 0
    case Calling(_) => s.gate == Some(W)
    case _ => false
  }

  // From wherever it is, the worker gets its result at once.
  lemma Hurries(cfg: Config, s: State, o: nat, start: Time, since: Time) returns (acts: seq<Action>, t: State)
    requires W in s.handlers && s.handlers[W] == Handling(o, s.handlers[W].pc, start, since)
    requires AtWork(s, s.handlers[W].pc) && s.waiting == []
    ensures Run(cfg, Timed, s, acts, t) && Still(s, t) && t.db == s.db
    ensures t.handlers == s.handlers[W := Handling(o, Completing(""), start, s.now)]
  {
    var pc := s.handlers[W].pc;
    if pc.Calling? {
      acts, t := Succeeds(cfg, s, W, o, pc.attempt, start, since);
    } else {
      var a := if pc.Fetching? then 0 else pc.attempt;
      var first, m := Queues(cfg, s, W, o, a, start, since);
      var n := Enters(cfg, m, W, o, a, start, s.now);
      Extend(cfg, Timed, s, first, m, By(W, Acquire), n);
      var rest;
      rest, t := Succeeds(cfg, n, W, o, a, start, s.now);
      Then(cfg, Timed, s, first + [By(W, Acquire)], n, rest, t);
      acts := first + [By(W, Acquire)] + rest;
    }
  }

  lemma FailureShows(db: Db, o: JobId, at: Time, now: Time, ttl: int)
    requires ttl > 0
    ensures var end := UpdateTx(db, o, FailedPatch(DownloadFailed, at), now, ttl);
            o in end.jobs && end.jobs[o].rec.status == Some(Failed) && end.jobs[o].rec.error.Some?
  {
  }

  // The claimer takes the worker's job and marks it.
  lemma ClaimerMarks(cfg: Config, s: State, o: nat) returns (acts: seq<Action>, t: State)
    requires Settings(cfg) && Keeps(cfg) && Caught(cfg, s, o)
    ensures Run(cfg, Timed, s, acts, t) && Still(s, t) && t.gate == s.gate && t.waiting == s.waiting
    ensures t.handlers == s.handlers[Claimer := Handling(o, Fetching, s.now, s.now)]
  {
    var first, a := ClaimerArrives(cfg, s, o, cfg.claimMinIdle);
    var second;
    second, t := Marks(cfg, a, Claimer, o);
    Then(cfg, Timed, s, first, a, second, t);
    acts := first + second;
    Rewritten(s.handlers, Claimer, a.handlers[Claimer], t.handlers[Claimer]);
  }

  // It fails its download, and records that.
  lemma ClaimerFails(cfg: Config, s: State, o: nat) returns (acts: seq<Action>, t: State)
    requires Settings(cfg) && Keeps(cfg) && Caught(cfg, s, o)
    ensures Run(cfg, Timed, s, acts, t) && Still(s, t) && t.gate == s.gate && t.waiting == s.waiting
    ensures t.handlers == s.handlers[Claimer := Handling(o, Acking, s.now, s.now)]
    ensures o in t.db.jobs && t.db.jobs[o].rec.status == Some(Failed) && t.db.jobs[o].rec.error.Some?
  {
    var first, b := ClaimerMarks(cfg, s, o);
    var second;
    second, t := FailsDownload(cfg, b, Claimer, o);
    Then(cfg, Timed, s, first, b, second, t);
    acts := first + second;
    Rewritten(s.handlers, Claimer, b.handlers[Claimer], t.handlers[Claimer]);
    FailureShows(b.db, o, s.now, s.now, cfg.jobTTL);
  }

  // The worker's write of its result over the recorded failure.
  lemma Overrides(cfg: Config, s: State, o: nat, start: Time, since: Time) returns (t: State)
    requires W in s.handlers && s.handlers[W] == Handling(o, Completing(""), start, since) && !s.stopping && cfg.jobTTL > 0
    requires o in s.db.jobs && s.db.jobs[o].rec.status == Some(Failed) && s.db.jobs[o].rec.error.Some?
    ensures Next(cfg, s, By(W, Complete(Done))) == Some(t) && !Evolves(s.db, t.db, o) && Mixed(t.db, o)
  {
    t := WriteStep(cfg, s, W, CompletedPatch("", s.now), Acking, Done);
    assert t.db == UpdateTx(s.db, o, CompletedPatch("", s.now), s.now, cfg.jobTTL);
  }

  // Then the worker stores its result over the failure.
  lemma Conflict(cfg: Config, s: State, o: nat) returns (acts: seq<Action>, t: State, u: State)
    requires Settings(cfg) && Keeps(cfg) && Caught(cfg, s, o)
    ensures Run(cfg, Timed, s, acts, t) && Next(cfg, t, By(W, Complete(Done))) == Some(u)
    ensures !Evolves(t.db, u.db, o) && Mixed(u.db, o)
  {
    var first, m := ClaimerFails(cfg, s, o);
    var rest;
    rest, t := Hurries(cfg, m, o, cfg.claimMinIdle, s.handlers[W].since);
    Then(cfg, Timed, s, first, m, rest, t);
    acts := first + rest;
    u := Overrides(cfg, t, o, cfg.claimMinIdle, t.now);
  }

  // The same for records that do not last: no orphans, and only workers ahead at the gate.
  ghost predicate ReadyShort(cfg: Config, s: State, j: nat, k: nat, n: nat)
    requires cfg.concurrency >= 1
  {
    && Stage(s, k, n) && s.gate.None? && s.waiting == [] && 0 < k
    && s.handlers.Keys == {W}
    && s.handlers[W] == Handling(0, if j == 0 then Fetching else Backoff(j), cfg.claimMinIdle, s.handlers[W].since)
    && Kept(cfg, s.db, 0, 0)
    && s.now == cfg.claimMinIdle + Spent(Expiry.Alike(cfg), j)
  }

  lemma ShortLast(cfg: Config, o: nat, now: Time)
    requires !Keeps(cfg)
    ensures AllLast(cfg, 0, o, now)
  {
  }

  // Workers 1..m + 1 join the line.
  lemma ShortCompany(cfg: Config, s: State, j: nat, k: nat, n: nat, m: nat)
    returns (acts: seq<Action>, t: State, line: seq<Consumer>)
    requires Settings(cfg) && !Keeps(cfg) && cfg.jobTTL > 0 && ReadyShort(cfg, s, j, k, n)
    requires m < cfg.concurrency && k + m <= n
    ensures Run(cfg, Timed, s, acts, t) && t.now == s.now && t.gate.None? && Stage(t, k + m, n)
    ensures t.waiting == line && |line| == m && Crowd(t.handlers, 0, 0, s.handlers[W], line) && AllParked(cfg, t.db, 0, 0)
    ensures Accounted(t.db.pending, t.handlers, 0, 0, line)
  {
    acts, t, line := LineUp(cfg, s, 0, 0, k, n, s.handlers[W], [], 1, m + 1);
  }

  lemma ShortAdvances(cfg: Config, s: State, j: nat, k: nat, n: nat, m: nat) returns (acts: seq<Action>, t: State)
    requires Settings(cfg) && !Keeps(cfg) && cfg.jobTTL > 0 && ReadyShort(cfg, s, j, k, n)
    requires m < cfg.concurrency && k + m <= n
    ensures Run(cfg, Timed, s, acts, t) && t.now == s.now + Span(cfg.upstreamTimeout, m) && Stage(t, k + m, n)
    ensures t.gate.None? && t.waiting == [W] && Kept(cfg, t.db, 0, 0)
    ensures t.handlers == map[W := Handling(0, Waiting(j), cfg.claimMinIdle, s.now)]
  {
    var first, a, line := ShortCompany(cfg, s, j, k, n, m);
    ShortLast(cfg, 0, a.now + Span(cfg.upstreamTimeout, m));
    var second;
    second, t := Waits(cfg, a, j, 0, 0, k + m, n, line, s.handlers[W].since);
    Then(cfg, Timed, s, first, a, second, t);
    acts := first + second;
  }

  lemma ShortRound(cfg: Config, s: State, j: nat, k: nat, n: nat, m: nat, rest: nat) returns (acts: seq<Action>, t: State)
    requires Settings(cfg) && !Keeps(cfg) && cfg.jobTTL > 0 && ReadyShort(cfg, s, j, k, n)
    requires m < cfg.concurrency && k + m <= n && rest <= cfg.upstreamTimeout
    ensures Run(cfg, Timed, s, acts, t) && t.now == s.now + Span(cfg.upstreamTimeout, m) + rest
    ensures OnCall(cfg, t, j, 0, 0, k + m, n, t.now - rest)
  {
    var first, a := ShortAdvances(cfg, s, j, k, n, m);
    ShortLast(cfg, 0, a.now + rest);
    var second;
    second, t := Connects(cfg, a, j, 0, 0, k + m, n, s.now, rest);
    assert t.now - rest == a.now;
    Then(cfg, Timed, s, first, a, second, t);
    acts := first + second;
  }

  lemma ShortLastRound(cfg: Config, s: State, j: nat, k: nat, n: nat) returns (acts: seq<Action>, t: State)
    requires Settings(cfg) && !Keeps(cfg) && cfg.jobTTL > 0 && ReadyShort(cfg, s, j, k, n) && k + cfg.concurrency <= n
    requires Spent(Expiry.Alike(cfg), j) < cfg.claimMinIdle <= Spent(Expiry.Alike(cfg), j) + Turn(Expiry.Alike(cfg))
    ensures Run(cfg, Timed, s, acts, t) && Caught(cfg, t, 0)
  {
    var m, rest := Slots(cfg.upstreamTimeout, cfg.claimMinIdle - Spent(Expiry.Alike(cfg), j), cfg.concurrency - 1);
    assert s.now + Span(cfg.upstreamTimeout, m) + rest == 2 * cfg.claimMinIdle;
    acts, t := ShortRound(cfg, s, j, k, n, m, rest);
    assert Parked(cfg, t.db, 0, ParkTime(cfg, 0, 0));
  }

  lemma ShortTurn(cfg: Config)
    requires cfg.concurrency >= 1 && cfg.upstreamTimeout >= 0
    ensures Span(cfg.upstreamTimeout, cfg.concurrency - 1) + cfg.upstreamTimeout == Turn(Expiry.Alike(cfg))
  {
    SpanClosed(cfg.upstreamTimeout, cfg.concurrency - 1);
    assert (cfg.concurrency - 1) * cfg.upstreamTimeout + cfg.upstreamTimeout == cfg.concurrency * cfg.upstreamTimeout;
  }

  lemma ShortFullRound(cfg: Config, s: State, j: nat, k: nat, n: nat, d: nat) returns (acts: seq<Action>, t: State)
    requires Settings(cfg) && !Keeps(cfg) && cfg.jobTTL > 0 && ReadyShort(cfg, s, j, k, n) && k + cfg.concurrency <= n
    requires j < cfg.maxRetries && d <= Delay(cfg.retryBase, j + 1)
    ensures Run(cfg, Timed, s, acts, t)
    ensures t.now == cfg.claimMinIdle + Spent(Expiry.Alike(cfg), j) + Turn(Expiry.Alike(cfg)) + d
    ensures Stage(t, k + (cfg.concurrency - 1), n) && t.gate.None? && t.waiting == [] && Kept(cfg, t.db, 0, 0)
    ensures t.handlers.Keys == {W} && t.handlers[W] == Handling(0, Backoff(j + 1), cfg.claimMinIdle, t.handlers[W].since)
  {
    var u, c := cfg.upstreamTimeout, cfg.concurrency - 1;
    ShortTurn(cfg);
    var first, m := ShortRound(cfg, s, j, k, n, c, u);
    ShortLast(cfg, 0, m.now + d);
    var second;
    second, t := BacksOff(cfg, m, j, 0, 0, k + c, n, m.now - u, d);
    Then(cfg, Timed, s, first, m, second, t);
    acts := first + second;
  }

  lemma {:induction false} ShortReach(cfg: Config, s: State, j: nat, k: nat, n: nat) returns (acts: seq<Action>, t: State)
    requires Settings(cfg) && !Keeps(cfg) && cfg.jobTTL > 0 && ReadyShort(cfg, s, j, k, n)
    requires j <= cfg.maxRetries && k + (cfg.maxRetries + 1 - j) * cfg.concurrency <= n
    requires Spent(Expiry.Alike(cfg), j) < cfg.claimMinIdle <= Budget(Expiry.Alike(cfg))
    ensures Run(cfg, Timed, s, acts, t) && Caught(cfg, t, 0)
    decreases cfg.maxRetries - j
  {
    EnoughRequests(cfg.concurrency, k, k + (cfg.concurrency - 1), n, j, cfg.maxRetries + 1);
    var spare := cfg.claimMinIdle - Spent(Expiry.Alike(cfg), j) - Turn(Expiry.Alike(cfg));
    if spare <= 0 {
      acts, t := ShortLastRound(cfg, s, j, k, n);
    } else {
      DelayNonneg(cfg.retryBase, j + 1);
      var delay := Delay(cfg.retryBase, j + 1);
      assert Spent(Expiry.Alike(cfg), j + 1) == Spent(Expiry.Alike(cfg), j) + Turn(Expiry.Alike(cfg)) + delay;
      acts, t := ShortFullRound(cfg, s, j, k, n, if spare <= delay then spare else delay);
      if spare <= delay {
        assert Parked(cfg, t.db, 0, ParkTime(cfg, 0, 0));
      } else {
        var first, m := acts, t;
        var rest;
        rest, t := ShortReach(cfg, m, j + 1, k + (cfg.concurrency - 1), n);
        Then(cfg, Timed, s, first, m, rest, t);
        acts := first + rest;
      }
    }
  }

  lemma ShortOvertakes(cfg: Config, s: State, n: nat) returns (acts: seq<Action>, t: State)
    requires Settings(cfg) && !Keeps(cfg) && cfg.jobTTL > 0 && cfg.claimMinIdle <= Budget(Expiry.Alike(cfg))
    requires Stage(s, 1, n) && s.gate.None? && s.waiting == [] && 1 + (cfg.maxRetries + 1) * cfg.concurrency <= n
    requires s.handlers == map[W := Handling(0, Fetching, cfg.claimMinIdle, cfg.claimMinIdle)]
    requires Kept(cfg, s.db, 0, 0) && s.now == cfg.claimMinIdle
    ensures Run(cfg, Timed, s, acts, t) && Caught(cfg, t, 0)
  {
    assert Spent(Expiry.Alike(cfg), 0) == cfg.downloadTimeout;
    if cfg.claimMinIdle <= cfg.downloadTimeout {
      t := Downloads(cfg, s, 0, n, cfg.claimMinIdle);
      acts := [Tick(cfg.claimMinIdle)];
      assert Parked(cfg, t.db, 0, ParkTime(cfg, 0, 0));
    } else {
      var m := Downloads(cfg, s, 0, n, cfg.downloadTimeout);
      var rest;
      rest, t := ShortReach(cfg, m, 0, 1, n);
      Then(cfg, Timed, s, [Tick(cfg.downloadTimeout)], m, rest, t);
      acts := [Tick(cfg.downloadTimeout)] + rest;
    }
  }

  // A timely run in which a worker becomes as old as a claim asks for, whatever became of its record.
  lemma ShortCaughtIsReachable(cfg: Config) returns (acts: seq<Action>, t: State)
    requires Settings(cfg) && !Keeps(cfg) && cfg.jobTTL > 0 && cfg.claimMinIdle <= Budget(Expiry.Alike(cfg))
    ensures Run(cfg, Timed, START, acts, t) && Caught(cfg, t, 0)
  {
    var n := 1 + (cfg.maxRetries + 1) * cfg.concurrency;
    assert (cfg.maxRetries + 1) * cfg.concurrency >= 0;
    var a0, s0 := OpensAll(cfg, n);
    var s1 := Idles(cfg, s0, 0, n, cfg.claimMinIdle);
    Then(cfg, Timed, START, a0, s0, [Tick(cfg.claimMinIdle)], s1);
    var a2, s2 := Starts(cfg, s1, 0, n);
    Then(cfg, Timed, START, a0 + [Tick(cfg.claimMinIdle)], s1, a2, s2);
    var rest;
    rest, t := ShortOvertakes(cfg, s2, n);
    Then(cfg, Timed, START, a0 + [Tick(cfg.claimMinIdle)] + a2, s2, rest, t);
    acts := a0 + [Tick(cfg.claimMinIdle)] + a2 + rest;
  }

  ghost predicate NeverSteals(cfg: Config) {
    forall acts, s :: Run(cfg, Timed, START, acts, s) ==> Run(cfg, Exclusive, START, acts, s)
  }

  ghost predicate NeverRegresses(cfg: Config) {
    forall acts, s, a, t, id :: Run(cfg, Timed, START, acts, s) && Allows(cfg, Timed, s, a) && Next(cfg, s, a) == Some(t)
      ==> Evolves(s.db, t.db, id)
  }

  ghost predicate NeverMixes(cfg: Config) {
    forall acts, s, id :: Run(cfg, Timed, START, acts, s) ==> !Mixed(s.db, id)
  }

  // The settings under which a handler cannot grow as old as a claim asks for.
  predicate Safe(cfg: Config)
    requires cfg.concurrency >= 1
  {
    if Keeps(cfg) then Budget(cfg) < cfg.claimMinIdle
    else cfg.jobTTL <= 0 || Budget(Expiry.Alike(cfg)) < cfg.claimMinIdle
  }

  lemma SafeRunsAreExclusive(cfg: Config, acts: seq<Action>, s: State)
    requires Settings(cfg) && Safe(cfg) && Run(cfg, Timed, START, acts, s)
    ensures Run(cfg, Exclusive, START, acts, s)
  {
    if Keeps(cfg) {
      BudgetClosed(cfg);
      TimedRunsAreExclusive(cfg, acts, s);
    } else if cfg.jobTTL <= 0 {
      Expiry.NoRecordsNoStealing(cfg, acts, s);
    } else {
      Expiry.ShortRunsAreExclusive(cfg, acts, s);
    }
  }

  /** Timely runs never claim a message under a live handler exactly when the whole budget of a
      handler fits into the idle time a claim asks for. When it does not, some worker can be kept at
      work until it is just old enough: at each of its attempts everybody else joins the line at the
      gate ahead of it, the claimer with an orphan that has just become old enough itself. Where no
      record outlives that idle time the claimer has nothing to bring to the gate, and the budget
      counts one turn fewer for each attempt. */
  lemma NeverStealsIff(cfg: Config)
    requires Settings(cfg)
    ensures NeverSteals(cfg) <==> Safe(cfg)
  {
    if Safe(cfg) {
      forall acts, s | Run(cfg, Timed, START, acts, s)
        ensures Run(cfg, Exclusive, START, acts, s)
      {
        SafeRunsAreExclusive(cfg, acts, s);
      }
    } else {
      var acts, s := TimelySteal(cfg);
    }
  }

  lemma CaughtAnyway(cfg: Config) returns (acts: seq<Action>, t: State, o: nat)
    requires Settings(cfg) && !Safe(cfg)
    ensures Run(cfg, Timed, START, acts, t) && Caught(cfg, t, o)
  {
    if Keeps(cfg) {
      acts, t, o := CaughtIsReachable(cfg);
    } else {
      acts, t := ShortCaughtIsReachable(cfg);
      o := 0;
    }
  }

  // The claim made then.
  lemma TimelySteal(cfg: Config) returns (acts: seq<Action>, s: State)
    requires Settings(cfg) && !Safe(cfg)
    ensures Run(cfg, Timed, START, acts, s) && !Run(cfg, Exclusive, START, acts, s)
  {
    var before, m, o := CaughtAnyway(cfg);
    s := Claims(cfg, m, o, cfg.claimMinIdle);
    Extend(cfg, Timed, START, before, m, Claim([o + 1], Done), s);
    acts := before + [Claim([o + 1], Done)];
    assert m.handlers[W].mid in [o + 1];
    if Run(cfg, Exclusive, START, acts, s) {
      Races.LastStepAllowed(cfg, Exclusive, START, before, m, Claim([o + 1], Done), s);
    }
  }

  lemma TimelyConflict(cfg: Config) returns (acts: seq<Action>, s: State, t: State, id: JobId)
    requires Settings(cfg) && Keeps(cfg) && cfg.claimMinIdle <= Budget(cfg)
    ensures Run(cfg, Timed, START, acts, s) && Next(cfg, s, By(W, Complete(Done))) == Some(t)
    ensures Run(cfg, Timed, START, acts + [By(W, Complete(Done))], t)
    ensures !Evolves(s.db, t.db, id) && Mixed(t.db, id)
  {
    var first, m, o := CaughtIsReachable(cfg);
    var rest;
    rest, s, t := Conflict(cfg, m, o);
    Then(cfg, Timed, START, first, m, rest, s);
    acts, id := first + rest, o;
    Extend(cfg, Timed, START, acts, s, By(W, Complete(Done)), t);
  }

  lemma TimelyStepEvolves(cfg: Config, acts: seq<Action>, s: State, a: Action, t: State, id: JobId)
    requires Settings(cfg) && (Keeps(cfg) ==> Budget(cfg) < cfg.claimMinIdle)
    requires Run(cfg, Timed, START, acts, s) && Allows(cfg, Timed, s, a) && Next(cfg, s, a) == Some(t)
    ensures Evolves(s.db, t.db, id) && !Mixed(t.db, id)
  {
    if Keeps(cfg) {
      Extend(cfg, Timed, START, acts, s, a, t);
      SafeRunsAreExclusive(cfg, acts, s);
      SafeRunsAreExclusive(cfg, acts + [a], t);
      Races.LastStepAllowed(cfg, Exclusive, START, acts, s, a, t);
      StatusOnlyMovesForward(cfg, acts, s, a, t, id);
    } else {
      Expiry.ShortRecordsNeverRegress(cfg, acts, s, a, t, id);
    }
  }

  /** No timely run takes a record backwards exactly when the budget fits, or no record outlives the
      idle time a claim asks for. */
  lemma NeverRegressesIff(cfg: Config)
    requires Settings(cfg)
    ensures NeverRegresses(cfg) <==> Budget(cfg) < cfg.claimMinIdle || cfg.jobTTL <= cfg.claimMinIdle
  {
    if Keeps(cfg) && cfg.claimMinIdle <= Budget(cfg) {
      var acts, s, t, id := TimelyConflict(cfg);
      assert Allows(cfg, Timed, s, By(W, Complete(Done)));
    } else {
      forall acts, s, a, t, id | Run(cfg, Timed, START, acts, s) && Allows(cfg, Timed, s, a) && Next(cfg, s, a) == Some(t)
        ensures Evolves(s.db, t.db, id)
      {
        TimelyStepEvolves(cfg, acts, s, a, t, id);
      }
    }
  }

  /** Nor leave a result and an error in one record. */
  lemma NeverMixesIff(cfg: Config)
    requires Settings(cfg)
    ensures NeverMixes(cfg) <==> Budget(cfg) < cfg.claimMinIdle || cfg.jobTTL <= cfg.claimMinIdle
  {
    if Keeps(cfg) && cfg.claimMinIdle <= Budget(cfg) {
      var acts, s, t, id := TimelyConflict(cfg);
    } else {
      forall acts, s, id | Run(cfg, Timed, START, acts, s)
        ensures !Mixed(s.db, id)
      {
        TimelyStepEvolves(cfg, acts, s, Stop, s.(stopping := true), id);
      }
    }
  }
}
