/** When timeouts leave the claimer nothing to steal: a bound on the life of a handler, and what
    follows for exclusive ownership. */
module Timing {
  import opened Wrappers
  import opened Jobs
  import opened Redis
  import opened Pipeline
  import opened Runs
  import opened Accounting
  import opened Concurrency
  import opened Lifecycle

  // A full turn at the gate: everybody else's call, then one's own.
  function Turn(cfg: Config): Time {
    (cfg.concurrency + 1) * cfg.upstreamTimeout
  }

  // The most that can pass before attempt `a` queues at the gate.
  function Spent(cfg: Config, a: nat): Time {
    if a == 0 then cfg.downloadTimeout
    else Spent(cfg, a - 1) + Turn(cfg) + Delay(cfg.retryBase, a)
  }

  function Budget(cfg: Config): Time {
    Spent(cfg, cfg.maxRetries) + Turn(cfg)
  }

  ghost predicate Sane(cfg: Config) {
    cfg.downloadTimeout >= 0 && cfg.upstreamTimeout > 0 && cfg.retryBase >= 0
  }

  lemma {:induction false} SpentClosed(cfg: Config, a: nat)
    ensures Spent(cfg, a) == cfg.downloadTimeout + a * Turn(cfg) + cfg.retryBase * (Pow2(a) - 1)
  {
    if a > 0 {
      SpentClosed(cfg, a - 1);
      var turn, base, p := Turn(cfg), cfg.retryBase, Pow2(a - 1);
      assert (a - 1) * turn + turn == a * turn;
      assert base * (p - 1) + base * p == base * (2 * p - 1);
    }
  }

  /** The budget of a handler in the terms of the configuration: the download, one gate turn per
      attempt, and the whole backoff. */
  lemma BudgetClosed(cfg: Config)
    ensures Budget(cfg) ==
      cfg.downloadTimeout
      + (cfg.maxRetries + 1) * (cfg.concurrency + 1) * cfg.upstreamTimeout
      + cfg.retryBase * (Pow2(cfg.maxRetries) - 1)
  {
    SpentClosed(cfg, cfg.maxRetries);
    var r, n, u := cfg.maxRetries, cfg.concurrency + 1, cfg.upstreamTimeout;
    assert r * (n * u) + n * u == (r + 1) * (n * u) == (r + 1) * n * u;
  }

  lemma TurnNonneg(cfg: Config)
    requires Sane(cfg)
    ensures 0 <= cfg.concurrency * cfg.upstreamTimeout <= cfg.concurrency * cfg.upstreamTimeout + cfg.upstreamTimeout == Turn(cfg)
  {
  }

  lemma DelayNonneg(base: Time, a: nat)
    requires base >= 0
    ensures Delay(base, a) >= 0
  {
  }

  lemma {:induction false} SpentGrows(cfg: Config, a: nat, b: nat)
    requires Sane(cfg) && a <= b
    ensures cfg.downloadTimeout <= Spent(cfg, a) <= Spent(cfg, b)
    decreases b
  {
    TurnNonneg(cfg);
    if b > 0 {
      DelayNonneg(cfg.retryBase, b);
      if a < b {
        SpentGrows(cfg, a, b - 1);
      } else {
        SpentGrows(cfg, a - 1, b - 1);
      }
    }
  }

  // How late a handler may have entered its current step, and how long it may have been in it.
  ghost predicate OnTime(cfg: Config, now: Time, h: Handler) {
    && h.start <= h.since <= now
    && match h.pc {
         case Getting => h.since == h.start && now == h.since
         case Marking => h.since == h.start && now == h.since
         case Fetching => h.since == h.start && now - h.since <= cfg.downloadTimeout
         case Waiting(a) =>
           a <= cfg.maxRetries && h.since - h.start <= Spent(cfg, a)
           && now - h.since <= cfg.concurrency * cfg.upstreamTimeout
         case Calling(a) =>
           a <= cfg.maxRetries && h.since - h.start <= Spent(cfg, a) + cfg.concurrency * cfg.upstreamTimeout
           && now - h.since <= cfg.upstreamTimeout
         case Backoff(a) =>
           1 <= a <= cfg.maxRetries && h.since - h.start <= Spent(cfg, a - 1) + Turn(cfg)
           && now - h.since <= Delay(cfg.retryBase, a)
         case _ => h.since - h.start <= Budget(cfg) && now == h.since
       }
  }

  lemma OnTimeBound(cfg: Config, now: Time, h: Handler)
    requires Sane(cfg) && OnTime(cfg, now, h)
    ensures now - h.start <= Budget(cfg)
  {
    TurnNonneg(cfg);
    SpentGrows(cfg, 0, cfg.maxRetries);
    match h.pc
    case Waiting(a) => SpentGrows(cfg, a, cfg.maxRetries);
    case Calling(a) => SpentGrows(cfg, a, cfg.maxRetries);
    case Backoff(a) => SpentGrows(cfg, a, cfg.maxRetries);
    case _ =>
  }

  // What is left of the call now in flight.
  function Lead(cfg: Config, now: Time, handlers: map<Consumer, Handler>, gate: Option<Consumer>): Time {
    if gate.Some? && gate.value in handlers
    then cfg.upstreamTimeout - (now - handlers[gate.value].since)
    else 0
  }

  // Whoever is j-th in line gets the gate after j more calls, within concurrency calls of joining.
  ghost predicate InLine(cfg: Config, now: Time, handlers: map<Consumer, Handler>, gate: Option<Consumer>, waiting: seq<Consumer>) {
    && 0 <= Lead(cfg, now, handlers, gate) <= cfg.upstreamTimeout
    && forall j :: 0 <= j < |waiting| && waiting[j] in handlers ==>
         now - handlers[waiting[j]].since + j * cfg.upstreamTimeout + Lead(cfg, now, handlers, gate)
         <= cfg.concurrency * cfg.upstreamTimeout
  }

  ghost predicate PendingLater(handlers: map<Consumer, Handler>, pending: map<MsgId, Delivery>) {
    forall c :: c in handlers && c.Worker? && handlers[c].mid in pending ==>
      handlers[c].start <= pending[handlers[c].mid].at
  }

  ghost predicate Punctual(cfg: Config, s: State) {
    && (forall c :: c in s.handlers ==> OnTime(cfg, s.now, s.handlers[c]))
    && InLine(cfg, s.now, s.handlers, s.gate, s.waiting)
    && PendingLater(s.handlers, s.db.pending)
  }

  lemma TimesMore(a: int, b: int, u: int)
    requires a <= b && u >= 0
    ensures a * u <= b * u
  {
  }

  lemma OnTimeLater(cfg: Config, now: Time, later: Time, h: Handler)
    requires OnTime(cfg, now, h) && now < later
    requires !h.pc.Waiting? ==> later - h.since <= Allowance(cfg, h.pc)
    requires h.pc.Waiting? ==> later - h.since <= cfg.concurrency * cfg.upstreamTimeout
    ensures OnTime(cfg, later, h)
  {
  }

  lemma InLineLater(cfg: Config, s: State, delta: nat)
    requires Sane(cfg) && Gated(s) && InTime(cfg, s, Tick(delta)) && delta > 0
    requires InLine(cfg, s.now, s.handlers, s.gate, s.waiting)
    ensures InLine(cfg, s.now + delta, s.handlers, s.gate, s.waiting)
  {
    if s.gate.Some? {
      assert s.gate.value in s.handlers && s.handlers[s.gate.value].pc.Calling?;
      assert Lead(cfg, s.now + delta, s.handlers, s.gate) == Lead(cfg, s.now, s.handlers, s.gate) - delta;
    }
  }

  // Being in line bounds the whole wait.
  lemma WaitBound(cfg: Config, s: State, c: Consumer, now: Time)
    requires Sane(cfg) && Gated(s) && InLine(cfg, now, s.handlers, s.gate, s.waiting)
    requires c in s.handlers && s.handlers[c].pc.Waiting?
    ensures now - s.handlers[c].since <= cfg.concurrency * cfg.upstreamTimeout
  {
    assert c in s.waiting;
    var j :| 0 <= j < |s.waiting| && s.waiting[j] == c;
    TimesMore(0, j, cfg.upstreamTimeout);
  }

  lemma OnTimeTick(cfg: Config, s: State, delta: nat)
    requires Sane(cfg) && Punctual(cfg, s) && Gated(s) && InTime(cfg, s, Tick(delta)) && delta > 0
    requires InLine(cfg, s.now + delta, s.handlers, s.gate, s.waiting)
    ensures forall c :: c in s.handlers ==> OnTime(cfg, s.now + delta, s.handlers[c])
  {
    forall c | c in s.handlers
      ensures OnTime(cfg, s.now + delta, s.handlers[c])
    {
      if s.handlers[c].pc.Waiting? {
        WaitBound(cfg, s, c, s.now + delta);
      }
      OnTimeLater(cfg, s.now, s.now + delta, s.handlers[c]);
    }
  }

  lemma PunctualTick(cfg: Config, s: State, delta: nat)
    requires Sane(cfg) && Punctual(cfg, s) && Gated(s) && InTime(cfg, s, Tick(delta))
    ensures Punctual(cfg, s.(now := s.now + delta, db := Advance(s.db, s.now + delta)))
  {
    if delta > 0 {
      InLineLater(cfg, s, delta);
      OnTimeTick(cfg, s, delta);
    }
  }

  // A step taken on time leaves its handler on time.
  lemma OnTimeAfter(cfg: Config, s: State, h: Handler, w: Work)
    requires Sane(cfg) && Fits(h.pc, w) && !w.Leave? && OnTime(cfg, s.now, h)
    ensures OnTime(cfg, s.now, After(cfg, s, h, w))
  {
    TurnNonneg(cfg);
    SpentGrows(cfg, 0, cfg.maxRetries);
    if AtGate(w) {
      SpentGrows(cfg, h.pc.attempt, cfg.maxRetries);
      DelayNonneg(cfg.retryBase, h.pc.attempt);
      if h.pc.Backoff? {
        SpentGrows(cfg, h.pc.attempt - 1, cfg.maxRetries);
      }
    }
  }

  lemma {:induction false} WithoutAt(cs: seq<Consumer>, c: Consumer, j: nat) returns (i: nat)
    requires j < |Without(cs, c)|
    ensures j <= i < |cs| && Without(cs, c)[j] == cs[i]
    decreases |cs|
  {
    if cs[0] == c {
      i := j + 1;
    } else if j == 0 {
      i := 0;
    } else {
      i := WithoutAt(cs[1..], c, j - 1);
      i := i + 1;
    }
  }

  // Everybody at the gate is a live handler other than the one about to join.
  lemma RoomInLine(cfg: Config, s: State, c: Consumer)
    requires Gated(s) && c in s.handlers && AwayFromGate(s.handlers[c].pc)
    requires forall d :: d in s.handlers ==> Known(cfg, d)
    ensures |s.waiting| + (if s.gate.Some? then 1 else 0) <= cfg.concurrency
  {
    DistinctSize(s.waiting);
    var all := Elements(s.waiting) + (if s.gate.Some? then {s.gate.value} else {}) + {c};
    assert c !in Elements(s.waiting);
    if s.gate.Some? {
      assert s.gate.value !in Elements(s.waiting) && s.gate.value != c;
    }
    SubsetSize(all, Consumers(cfg.concurrency));
  }

  function Crowding(s: State): nat {
    |s.waiting| + (if s.gate.Some? then 1 else 0)
  }

  // Whoever may join the line next finds at most `concurrency` others at the gate.
  ghost predicate Room(cfg: Config, s: State) {
    forall c :: c in s.handlers && (s.handlers[c].pc.Fetching? || s.handlers[c].pc.Backoff?) ==> Crowding(s) <= cfg.concurrency
  }

  lemma EverybodyFits(cfg: Config, s: State)
    requires Sound(cfg, s) && Gated(s)
    ensures Room(cfg, s)
  {
    forall c | c in s.handlers && (s.handlers[c].pc.Fetching? || s.handlers[c].pc.Backoff?)
      ensures Crowding(s) <= cfg.concurrency
    {
      RoomInLine(cfg, s, c);
    }
  }

  // Everybody in `waiting` but `c`, and whoever has the gate if not `c`, is the same handler in `t`.
  lemma SameInLine(s: State, c: Consumer, t: State)
    requires Gated(s) && c in s.handlers && OnlyHandler(s, c, t)
    ensures forall j :: 0 <= j < |s.waiting| && s.waiting[j] != c ==>
              s.waiting[j] in t.handlers && t.handlers[s.waiting[j]] == s.handlers[s.waiting[j]]
    ensures s.gate.Some? && s.gate.value != c ==>
              s.gate.value in t.handlers && t.handlers[s.gate.value] == s.handlers[s.gate.value]
  {
    assert forall j :: 0 <= j < |s.waiting| ==> s.waiting[j] in s.waiting;
  }

  lemma InLineJoins(cfg: Config, s: State, c: Consumer, t: State)
    requires Sane(cfg) && Gated(s) && c in s.handlers && OnlyHandler(s, c, t)
    requires Crowding(s) <= cfg.concurrency
    requires InLine(cfg, s.now, s.handlers, s.gate, s.waiting) && AwayFromGate(s.handlers[c].pc)
    requires c in t.handlers && t.handlers[c].since == s.now && t.gate == s.gate && t.waiting == s.waiting + [c]
    ensures InLine(cfg, s.now, t.handlers, t.gate, t.waiting)
  {
    SameInLine(s, c, t);
    assert c !in s.waiting;
    assert Lead(cfg, s.now, t.handlers, t.gate) == Lead(cfg, s.now, s.handlers, s.gate);
    TimesMore(Crowding(s), cfg.concurrency, cfg.upstreamTimeout);
  }

  lemma InLineEnters(cfg: Config, s: State, c: Consumer, t: State)
    requires Sane(cfg) && Gated(s) && c in s.handlers && OnlyHandler(s, c, t)
    requires InLine(cfg, s.now, s.handlers, s.gate, s.waiting) && s.gate == None
    requires s.waiting != [] && s.waiting[0] == c
    requires c in t.handlers && t.handlers[c].since == s.now && t.gate == Some(c) && t.waiting == s.waiting[1..]
    ensures InLine(cfg, s.now, t.handlers, t.gate, t.waiting)
  {
    SameInLine(s, c, t);
    assert forall j :: 0 <= j < |t.waiting| ==> t.waiting[j] == s.waiting[j + 1] && s.waiting[j + 1] != c;
  }

  lemma InLineLeaves(cfg: Config, s: State, c: Consumer, t: State)
    requires Sane(cfg) && Gated(s) && c in s.handlers && OnlyHandler(s, c, t)
    requires InLine(cfg, s.now, s.handlers, s.gate, s.waiting) && s.handlers[c].pc.Waiting?
    requires t.gate == s.gate && t.waiting == Without(s.waiting, c)
    ensures InLine(cfg, s.now, t.handlers, t.gate, t.waiting)
  {
    SameInLine(s, c, t);
    WithoutHas(s.waiting, c);
    forall j | 0 <= j < |t.waiting| && t.waiting[j] in t.handlers
      ensures s.now - t.handlers[t.waiting[j]].since + j * cfg.upstreamTimeout + Lead(cfg, s.now, t.handlers, t.gate)
              <= cfg.concurrency * cfg.upstreamTimeout
    {
      var i := WithoutAt(s.waiting, c, j);
      assert t.waiting[j] in t.waiting && s.waiting[i] != c;
      TimesMore(j, i, cfg.upstreamTimeout);
    }
  }

  lemma InLineElsewhere(cfg: Config, s: State, c: Consumer, t: State)
    requires Sane(cfg) && Gated(s) && c in s.handlers && OnlyHandler(s, c, t)
    requires InLine(cfg, s.now, s.handlers, s.gate, s.waiting) && !s.handlers[c].pc.Waiting?
    requires t.waiting == s.waiting && t.gate == if s.handlers[c].pc.Calling? then None else s.gate
    ensures InLine(cfg, s.now, t.handlers, t.gate, t.waiting)
  {
    SameInLine(s, c, t);
    assert forall j :: 0 <= j < |s.waiting| ==> s.waiting[j] in s.waiting && s.waiting[j] != c;
    assert Lead(cfg, s.now, t.handlers, t.gate) <= Lead(cfg, s.now, s.handlers, s.gate);
  }

  lemma InLineWork(cfg: Config, s: State, c: Consumer, t: State)
    requires Sane(cfg) && Gated(s) && c in s.handlers && OnlyHandler(s, c, t) && GateShape(s, c, t)
    requires c in t.handlers && t.handlers[c].pc.Waiting? && !s.handlers[c].pc.Waiting? ==> Crowding(s) <= cfg.concurrency
    requires InLine(cfg, s.now, s.handlers, s.gate, s.waiting)
    requires c in t.handlers ==> t.handlers[c].since == s.now
    requires c in t.handlers && t.handlers[c].pc.Calling? ==> s.waiting != [] && s.waiting[0] == c
    ensures InLine(cfg, s.now, t.handlers, t.gate, t.waiting)
  {
    if s.handlers[c].pc.Waiting? {
      if t.handlers[c].pc.Calling? {
        InLineEnters(cfg, s, c, t);
      } else {
        InLineLeaves(cfg, s, c, t);
      }
    } else if c in t.handlers && t.handlers[c].pc.Waiting? {
      InLineJoins(cfg, s, c, t);
    } else {
      InLineElsewhere(cfg, s, c, t);
    }
  }

  lemma OnTimeWork(cfg: Config, s: State, c: Consumer, w: Work, t: State)
    requires Sane(cfg) && c in s.handlers && WorkStep(cfg, s, c, w) == Some(t)
    requires forall d :: d in s.handlers ==> OnTime(cfg, s.now, s.handlers[d])
    ensures forall d :: d in t.handlers ==> OnTime(cfg, s.now, t.handlers[d])
  {
    HandlerMoves(cfg, s, c, w, t);
    if !w.Leave? {
      OnTimeAfter(cfg, s, s.handlers[c], w);
    }
  }

  lemma PendingWork(s: State, c: Consumer, t: State)
    requires c in s.handlers && OnlyHandler(s, c, t) && PendingLater(s.handlers, s.db.pending)
    ensures PendingLater(t.handlers, t.db.pending)
  {
    assert forall m :: m in t.db.pending ==> m in s.db.pending && t.db.pending[m] == s.db.pending[m];
  }

  // Every move of a handler restarts its clock.
  lemma ClockRestarts(cfg: Config, s: State, h: Handler, w: Work)
    requires Fits(h.pc, w) && !w.Leave?
    ensures After(cfg, s, h, w).since == s.now
    ensures After(cfg, s, h, w).pc.Calling? ==> w.Acquire?
  {
  }

  lemma JoinsFrom(cfg: Config, s: State, h: Handler, w: Work)
    requires Fits(h.pc, w) && !w.Leave? && After(cfg, s, h, w).pc.Waiting?
    ensures h.pc.Fetching? || h.pc.Backoff?
  {
  }

  lemma InLineStep(cfg: Config, s: State, c: Consumer, w: Work, t: State)
    requires Sane(cfg) && Gated(s) && Room(cfg, s)
    requires InLine(cfg, s.now, s.handlers, s.gate, s.waiting)
    requires c in s.handlers && WorkStep(cfg, s, c, w) == Some(t) && InTime(cfg, s, By(c, w)) && OnlyHandler(s, c, t)
    ensures InLine(cfg, s.now, t.handlers, t.gate, t.waiting)
  {
    ShapeOf(cfg, s, c, w, t);
    HandlerMoves(cfg, s, c, w, t);
    if !w.Leave? {
      ClockRestarts(cfg, s, s.handlers[c], w);
      if After(cfg, s, s.handlers[c], w).pc.Waiting? {
        JoinsFrom(cfg, s, s.handlers[c], w);
      }
    }
    InLineWork(cfg, s, c, t);
  }

  lemma PunctualWork(cfg: Config, s: State, c: Consumer, w: Work, t: State)
    requires Sane(cfg) && Room(cfg, s) && Gated(s) && Punctual(cfg, s)
    requires c in s.handlers && WorkStep(cfg, s, c, w) == Some(t) && InTime(cfg, s, By(c, w))
    ensures Punctual(cfg, t)
  {
    WorkFrame(cfg, s, c, w, t);
    OnTimeWork(cfg, s, c, w, t);
    InLineStep(cfg, s, c, w, t);
    PendingWork(s, c, t);
  }

  lemma ArrivesOnTime(cfg: Config, now: Time, m: Message)
    ensures OnTime(cfg, now, Handler(m.mid, m.id, None, Getting, None, now, now, false))
  {
  }

  lemma InLineArrive(cfg: Config, s: State, c: Consumer, m: Message)
    requires Gated(s) && c !in s.handlers && InLine(cfg, s.now, s.handlers, s.gate, s.waiting)
    ensures InLine(cfg, s.now, Arrive(s, c, m).handlers, s.gate, s.waiting)
  {
    assert forall j :: 0 <= j < |s.waiting| ==> s.waiting[j] in s.waiting;
  }

  lemma ArriveLater(s: State, w: nat, mid: MsgId, t: State)
    requires PendingLater(s.handlers, s.db.pending) && (forall c :: c in s.handlers ==> s.handlers[c].mid != mid)
    requires t.db.pending == s.db.pending[mid := Delivery(Worker(w), s.now)]
    requires t.handlers == s.handlers
             || (Worker(w) in t.handlers && t.handlers == s.handlers[Worker(w) := t.handlers[Worker(w)]]
                 && t.handlers[Worker(w)].mid == mid && t.handlers[Worker(w)].start == s.now)
    ensures PendingLater(t.handlers, t.db.pending)
  {
  }

  lemma PunctualRead(cfg: Config, times: Config, s: State, w: nat, mid: MsgId, reply: Reply, t: State)
    requires Sane(times) && Sound(cfg, s) && Gated(s) && Punctual(times, s)
    requires ReadStep(cfg, s, w, mid, reply) == Some(t)
    ensures Punctual(times, t)
  {
    var m := Message(mid, s.db.entries[mid]);
    ArrivesOnTime(times, s.now, m);
    InLineArrive(times, s, Worker(w), m);
    forall c | c in s.handlers
      ensures s.handlers[c].mid != mid
    {
      assert Carried(s.db, s.past, s.handlers[c].mid, s.handlers[c].id);
    }
    ArriveLater(s, w, mid, t);
  }

  lemma PunctualClaim(cfg: Config, s: State, ms: seq<MsgId>, reply: Reply, t: State)
    requires Punctual(cfg, s) && ClaimStep(cfg, s, ms, reply) == Some(t)
    ensures Punctual(cfg, t)
  {
    assert t.handlers == s.handlers;
    forall c | c in s.handlers && c.Worker? && s.handlers[c].mid in t.db.pending
      ensures s.handlers[c].start <= t.db.pending[s.handlers[c].mid].at
    {
      assert OnTime(cfg, s.now, s.handlers[c]);
    }
  }

  lemma PunctualBegin(cfg: Config, s: State, t: State)
    requires Sane(cfg) && Gated(s) && Punctual(cfg, s) && Next(cfg, s, Begin) == Some(t)
    ensures Punctual(cfg, t)
  {
    ArrivesOnTime(cfg, s.now, s.batch[0]);
    InLineArrive(cfg, s, Claimer, s.batch[0]);
  }

  lemma HttpKeepsPending(cfg: Config, s: State, id: JobId, a: Serve, t: State)
    requires HttpStep(cfg, s, id, a) == Some(t)
    ensures t.db.pending == s.db.pending
  {
    if a.Enqueue? {
      EnqueueLeaves(cfg, s, id, a.reply);
    } else {
      HttpQuiet(cfg, s, id, a, t);
    }
  }

  lemma PunctualCrash(cfg: Config, s: State)
    requires Sane(cfg)
    ensures Punctual(cfg, CrashStep(s))
  {
  }

  lemma PunctualHttp(cfg: Config, s: State, id: JobId, a: Serve, t: State)
    requires Punctual(cfg, s) && HttpStep(cfg, s, id, a) == Some(t)
    ensures Punctual(cfg, t)
  {
    HttpAside(cfg, s, id, a, t);
    HttpKeepsPending(cfg, s, id, a, t);
  }

  lemma PunctualLater(cfg: Config, s: State, delta: nat, t: State)
    requires Sane(cfg) && Gated(s) && Punctual(cfg, s)
    requires InTime(cfg, s, Tick(delta)) && Next(cfg, s, Tick(delta)) == Some(t)
    ensures Punctual(cfg, t)
  {
    PunctualTick(cfg, s, delta);
  }

  lemma PunctualDelivery(cfg: Config, s: State, a: Action, t: State)
    requires Sane(cfg) && Sound(cfg, s) && Gated(s) && Punctual(cfg, s)
    requires a.Read? || a.Claim? || a.Begin? || a.Stop? || a.Crash?
    requires Next(cfg, s, a) == Some(t)
    ensures Punctual(cfg, t)
  {
    match a
    case Read(w, mid, reply) => PunctualRead(cfg, cfg, s, w, mid, reply, t);
    case Claim(ms, reply) => PunctualClaim(cfg, s, ms, reply, t);
    case Begin => PunctualBegin(cfg, s, t);
    case Stop =>
    case Crash => PunctualCrash(cfg, s);
  }

  lemma PunctualStep(cfg: Config, s: State, a: Action, t: State)
    requires Sane(cfg) && Sound(cfg, s) && Gated(s) && Punctual(cfg, s)
    requires InTime(cfg, s, a) && Next(cfg, s, a) == Some(t)
    ensures Punctual(cfg, t)
  {
    match a
    case Tick(delta) => PunctualLater(cfg, s, delta, t);
    case By(c, w) =>
      EverybodyFits(cfg, s);
      PunctualWork(cfg, s, c, w, t);
    case Http(id, serve) => PunctualHttp(cfg, s, id, serve, t);
    case _ => PunctualDelivery(cfg, s, a, t);
  }

  /** On every timely run no handler lives longer than the budget. */
  lemma LifeIsBudgeted(cfg: Config, acts: seq<Action>, s: State, c: Consumer)
    requires Sane(cfg) && Run(cfg, Timed, START, acts, s) && c in s.handlers
    ensures s.now - s.handlers[c].start <= Budget(cfg)
  {
    PunctualRun(cfg, START, acts, s);
    OnTimeBound(cfg, s.now, s.handlers[c]);
  }

  // Nothing a live worker holds has been idle long enough.
  lemma NothingToSteal(cfg: Config, s: State, a: Action, t: State)
    requires Sane(cfg) && Sound(cfg, s) && Punctual(cfg, s) && Budget(cfg) < cfg.claimMinIdle
    requires Next(cfg, s, a) == Some(t)
    ensures ClaimsIdleOnly(s, a)
  {
    if a.Claim? {
      forall c | c in s.handlers
        ensures s.handlers[c].mid !in a.mids
      {
        OnTimeBound(cfg, s.now, s.handlers[c]);
      }
    }
  }

  lemma {:induction false} ExclusiveFrom(cfg: Config, s: State, acts: seq<Action>, t: State)
    requires Sane(cfg) && Budget(cfg) < cfg.claimMinIdle
    requires Sound(cfg, s) && Gated(s) && Punctual(cfg, s) && Run(cfg, Timed, s, acts, t)
    ensures Run(cfg, Exclusive, s, acts, t)
    decreases |acts|
  {
    if acts != [] {
      var n := Next(cfg, s, acts[0]).value;
      NothingToSteal(cfg, s, acts[0], n);
      SoundStep(cfg, s, acts[0], n);
      GatedStep(cfg, s, acts[0], n);
      PunctualStep(cfg, s, acts[0], n);
      ExclusiveFrom(cfg, n, acts[1..], t);
    }
  }

  /** If the download, a gate turn for every attempt and the whole backoff fit into the idle time a
      claim asks for, then with honoured timeouts, a gate served in arrival order and Redis calls
      that take no time, the claimer never claims a message under a live handler: every such run
      is a run under exclusive ownership. */
  lemma TimedRunsAreExclusive(cfg: Config, acts: seq<Action>, s: State)
    requires cfg.downloadTimeout >= 0 && cfg.upstreamTimeout > 0 && cfg.retryBase >= 0
    requires cfg.downloadTimeout
             + (cfg.maxRetries + 1) * (cfg.concurrency + 1) * cfg.upstreamTimeout
             + cfg.retryBase * (Pow2(cfg.maxRetries) - 1) < cfg.claimMinIdle
    requires Run(cfg, Timed, START, acts, s)
    ensures Run(cfg, Exclusive, START, acts, s)
  {
    BudgetClosed(cfg);
    ExclusiveFrom(cfg, START, acts, s);
  }

  lemma StartIsPunctual(cfg: Config)
    requires Sane(cfg)
    ensures Sound(cfg, START) && Gated(START) && Punctual(cfg, START)
  {
  }

  lemma TimedRunStaysExclusive(cfg: Config, before: seq<Action>, s: State, after: seq<Action>, t: State)
    requires Sane(cfg) && Budget(cfg) < cfg.claimMinIdle
    requires Run(cfg, Timed, START, before, s) && Run(cfg, Timed, s, after, t)
    ensures Run(cfg, Exclusive, START, before, s) && Run(cfg, Exclusive, s, after, t)
  {
    StartIsPunctual(cfg);
    PunctualRun(cfg, START, before, s);
    ExclusiveFrom(cfg, START, before, s);
    ExclusiveFrom(cfg, s, after, t);
  }

  /** So on such configurations a finished record is frozen until it runs out, with no assumption
      about ownership left. */
  lemma TimedEndIsFrozen(cfg: Config, before: seq<Action>, s: State, after: seq<Action>, t: State, id: JobId)
    requires Sane(cfg) && Budget(cfg) < cfg.claimMinIdle
    requires Run(cfg, Timed, START, before, s) && Run(cfg, Timed, s, after, t)
    requires id in s.db.jobs && Ended(s.db.jobs[id].rec) && id !in t.db.expired
    ensures id in t.db.jobs && t.db.jobs[id].rec == s.db.jobs[id].rec
  {
    TimedRunStaysExclusive(cfg, before, s, after, t);
    EndIsFrozen(cfg, before, s, after, t, id);
  }

  lemma {:induction false} PunctualRun(cfg: Config, s: State, acts: seq<Action>, t: State)
    requires Sane(cfg) && Sound(cfg, s) && Gated(s) && Punctual(cfg, s) && Run(cfg, Timed, s, acts, t)
    ensures Sound(cfg, t) && Gated(t) && Punctual(cfg, t)
    decreases |acts|
  {
    if acts != [] {
      var n := Next(cfg, s, acts[0]).value;
      SoundStep(cfg, s, acts[0], n);
      GatedStep(cfg, s, acts[0], n);
      PunctualStep(cfg, s, acts[0], n);
      PunctualRun(cfg, n, acts[1..], t);
    }
  }
}
