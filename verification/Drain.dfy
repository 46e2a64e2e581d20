/** Draining: with no new requests and no failures, the pipeline stops after a bounded number of
    steps, and it only stops empty, with every job ended. */
module Drain {
  import opened Wrappers
  import opened Jobs
  import opened Redis
  import opened Pipeline
  import opened Runs
  import opened Accounting
  import opened Concurrency
  import opened Loss
  import opened Lifecycle

  // The most steps a handler can still take.
  function Rank(maxRetries: nat, pc: Pc): nat {
    match pc
    case Getting => 11 + 3 * maxRetries
    case Marking => 10 + 3 * maxRetries
    case Fetching => 9 + 3 * maxRetries
    case Backoff(a) => 9 + 3 * Left(maxRetries, a)
    case Waiting(a) => 8 + 3 * Left(maxRetries, a)
    case Calling(a) => 7 + 3 * Left(maxRetries, a)
    case Zeroing(_) => 6
    case Completing(_) => 5
    case Failing(_) => 5
    case Acking => 4
    case Dropping => 3
    case Wiping => 2
    case Leaving => 1
  }

  function Left(maxRetries: nat, attempt: nat): nat {
    if attempt <= maxRetries then maxRetries - attempt else 0
  }

  function RankOf(cfg: Config, handlers: map<Consumer, Handler>, c: Consumer): nat {
    if c in handlers then Rank(cfg.maxRetries, handlers[c].pc) else 0
  }

  // The ranks of the claimer and of the first n workers together.
  function Ranks(cfg: Config, handlers: map<Consumer, Handler>, n: nat): nat {
    if n == 0 then RankOf(cfg, handlers, Claimer)
    else Ranks(cfg, handlers, n - 1) + RankOf(cfg, handlers, Worker(n - 1))
  }

  lemma {:induction false} RanksSame(cfg: Config, hs: map<Consumer, Handler>, gs: map<Consumer, Handler>, n: nat)
    requires RankOf(cfg, hs, Claimer) == RankOf(cfg, gs, Claimer)
    requires forall i: nat :: i < n ==> RankOf(cfg, hs, Worker(i)) == RankOf(cfg, gs, Worker(i))
    ensures Ranks(cfg, hs, n) == Ranks(cfg, gs, n)
  {
    if n > 0 {
      RanksSame(cfg, hs, gs, n - 1);
    }
  }

  // When only consumer `c` changes, the sum changes by the change of its rank.
  lemma {:induction false} RanksChange(cfg: Config, hs: map<Consumer, Handler>, gs: map<Consumer, Handler>, c: Consumer, n: nat)
    requires c.Claimer? || c.index < n
    requires forall d :: d != c ==> RankOf(cfg, hs, d) == RankOf(cfg, gs, d)
    ensures Ranks(cfg, gs, n) - Ranks(cfg, hs, n) == RankOf(cfg, gs, c) - RankOf(cfg, hs, c)
  {
    if n > 0 {
      if c == Worker(n - 1) {
        RanksSame(cfg, hs, gs, n - 1);
      } else {
        RanksChange(cfg, hs, gs, c, n - 1);
      }
    }
  }

  // A claimer that has not acknowledged its message yet, or has it in its batch, will get to it.
  predicate InClaimersHands(s: State, m: MsgId) {
    || (Claimer in s.handlers && s.handlers[Claimer].mid == m && Rank(0, s.handlers[Claimer].pc) >= 4)
    || (exists i :: 0 <= i < |s.batch| && s.batch[i].mid == m)
  }

  function Unclaimed(s: State): set<MsgId> {
    set m | m in s.db.pending && !InClaimersHands(s, m)
  }

  function Full(cfg: Config): nat { Rank(cfg.maxRetries, Getting) }

  function Total(f: nat, queued: nat, unclaimed: nat, batch: nat, ranks: nat): nat {
    (2 * f + 3) * queued + (f + 2) * unclaimed + (f + 1) * batch + ranks
  }

  /** The work left: every queued entry may still be read, claimed once and handled twice; every
      pending one claimed once and handled; every claimed one handled; every handler finish. */
  function WorkLeft(cfg: Config, s: State): nat {
    Total(Full(cfg), |Undelivered(s.db)|, |Unclaimed(s)|, |s.batch|, Ranks(cfg, s.handlers, cfg.concurrency))
  }

  lemma TotalGrows(f: nat, q: nat, u: nat, b: nat, r: nat, q': nat, u': nat, b': nat, r': nat)
    requires q <= q' && u <= u' && b <= b' && r <= r'
    ensures Total(f, q, u, b, r) <= Total(f, q', u', b', r')
    ensures r < r' ==> Total(f, q, u, b, r) < Total(f, q', u', b', r')
  {
    assert (2 * f + 3) * q' == (2 * f + 3) * q + (2 * f + 3) * (q' - q);
    assert (f + 2) * u' == (f + 2) * u + (f + 2) * (u' - u);
    assert (f + 1) * b' == (f + 1) * b + (f + 1) * (b' - b);
  }

  // A read: one queued entry becomes a pending one and a new handler.
  lemma TotalRead(f: nat, q: nat, u: nat, b: nat, r: nat)
    requires q > 0
    ensures Total(f, q - 1, u + 1, b, r + f) < Total(f, q, u, b, r)
  {
    assert (2 * f + 3) * q == (2 * f + 3) * (q - 1) + 2 * f + 3;
    assert (f + 2) * (u + 1) == (f + 2) * u + f + 2;
  }

  // A claim of n pending entries.
  lemma TotalClaim(f: nat, q: nat, u: nat, n: nat, r: nat)
    requires 0 < n <= u
    ensures Total(f, q, u - n, n, r) < Total(f, q, u, 0, r)
  {
    assert (f + 2) * u == (f + 2) * (u - n) + (f + 1) * n + n;
  }

  // One claimed message gets its handler.
  lemma TotalBegin(f: nat, q: nat, u: nat, b: nat, r: nat)
    requires b > 0
    ensures Total(f, q, u, b - 1, r + f) < Total(f, q, u, b, r)
  {
    assert (f + 1) * b == (f + 1) * (b - 1) + f + 1;
  }

  // Every step of a handler leaves it fewer to take.
  lemma RankAfter(cfg: Config, s: State, h: Handler, w: Work)
    requires Fits(h.pc, w) && !w.Leave?
    ensures Rank(cfg.maxRetries, After(cfg, s, h, w).pc) < Rank(cfg.maxRetries, h.pc)
  {
  }

  lemma RankFalls(cfg: Config, s: State, c: Consumer, w: Work, t: State)
    requires c in s.handlers && WorkStep(cfg, s, c, w) == Some(t)
    ensures RankOf(cfg, t.handlers, c) < RankOf(cfg, s.handlers, c)
  {
    HandlerMoves(cfg, s, c, w, t);
    if !w.Leave? {
      RankAfter(cfg, s, s.handlers[c], w);
    }
  }

  // Past its ack a claimer has, in a calm run, taken its message out of the stream.
  lemma HandsKeep(cfg: Config, s: State, c: Consumer, w: Work, t: State, m: MsgId)
    requires c in s.handlers && WorkStep(cfg, s, c, w) == Some(t) && CalmAction(By(c, w)) && OnlyHandler(s, c, t)
    requires m in t.db.pending && InClaimersHands(s, m)
    ensures m in s.db.pending && InClaimersHands(t, m)
  {
    if c == Claimer && s.handlers[c].mid == m && Rank(0, s.handlers[c].pc) >= 4 {
      WorkDb(cfg, s, c, w, t);
      if !w.Ack? {
        HandlerMoves(cfg, s, c, w, t);
        StaysAboveAck(cfg, s, s.handlers[c], w);
      }
    } else if i :| 0 <= i < |s.batch| && s.batch[i].mid == m {
      assert t.batch[i].mid == m;
    } else {
      assert t.handlers[Claimer] == s.handlers[Claimer];
    }
  }

  lemma StaysAboveAck(cfg: Config, s: State, h: Handler, w: Work)
    requires Fits(h.pc, w) && !w.Ack? && Rank(0, h.pc) >= 4
    ensures !w.Leave? && Rank(0, After(cfg, s, h, w).pc) >= 4
  {
  }

  lemma UnclaimedWork(cfg: Config, s: State, c: Consumer, w: Work, t: State)
    requires c in s.handlers && WorkStep(cfg, s, c, w) == Some(t) && CalmAction(By(c, w)) && OnlyHandler(s, c, t)
    ensures Unclaimed(t) <= Unclaimed(s)
  {
    forall m | m in Unclaimed(t)
      ensures m in Unclaimed(s)
    {
      if InClaimersHands(s, m) {
        HandsKeep(cfg, s, c, w, t, m);
      }
    }
  }

  lemma UndeliveredFalls(db: Db, db': Db)
    requires db'.last == db.last && db'.entries.Keys <= db.entries.Keys
    ensures |Undelivered(db')| <= |Undelivered(db)|
  {
    SubsetSize(Undelivered(db'), Undelivered(db));
  }

  lemma WorkDrains(cfg: Config, s: State, c: Consumer, w: Work, t: State)
    requires Sound(cfg, s) && c in s.handlers && WorkStep(cfg, s, c, w) == Some(t) && CalmAction(By(c, w))
    ensures WorkLeft(cfg, t) < WorkLeft(cfg, s)
  {
    WorkFrame(cfg, s, c, w, t);
    RankFalls(cfg, s, c, w, t);
    RanksChange(cfg, s.handlers, t.handlers, c, cfg.concurrency);
    UndeliveredFalls(s.db, t.db);
    UnclaimedWork(cfg, s, c, w, t);
    SubsetSize(Unclaimed(t), Unclaimed(s));
    TotalGrows(Full(cfg), |Undelivered(t.db)|, |Unclaimed(t)|, |t.batch|, Ranks(cfg, t.handlers, cfg.concurrency),
               |Undelivered(s.db)|, |Unclaimed(s)|, |s.batch|, Ranks(cfg, s.handlers, cfg.concurrency));
  }

  lemma ReadSets(cfg: Config, s: State, w: nat, mid: MsgId, t: State)
    requires Sound(cfg, s) && ReadStep(cfg, s, w, mid, Done) == Some(t)
    ensures |Undelivered(t.db)| == |Undelivered(s.db)| - 1
    ensures |Unclaimed(t)| <= |Unclaimed(s)| + 1
  {
    assert Undelivered(t.db) == Undelivered(s.db) - {mid} && mid in Undelivered(s.db);
    HandsSame(s, t);
    assert Unclaimed(t) <= Unclaimed(s) + {mid};
    SubsetSize(Unclaimed(t), Unclaimed(s) + {mid});
  }

  lemma HandsSame(s: State, t: State)
    requires s.batch == t.batch && (Claimer in s.handlers <==> Claimer in t.handlers)
    requires Claimer in s.handlers ==> s.handlers[Claimer] == t.handlers[Claimer]
    ensures forall m :: InClaimersHands(t, m) == InClaimersHands(s, m)
  {
  }

  lemma ReadRanks(cfg: Config, s: State, w: nat, mid: MsgId, t: State)
    requires ReadStep(cfg, s, w, mid, Done) == Some(t)
    ensures Ranks(cfg, t.handlers, cfg.concurrency) == Ranks(cfg, s.handlers, cfg.concurrency) + Full(cfg)
    ensures t.batch == s.batch
  {
    RanksChange(cfg, s.handlers, t.handlers, Worker(w), cfg.concurrency);
  }

  lemma ReadDrains(cfg: Config, s: State, w: nat, mid: MsgId, t: State)
    requires Sound(cfg, s) && ReadStep(cfg, s, w, mid, Done) == Some(t)
    ensures WorkLeft(cfg, t) < WorkLeft(cfg, s)
  {
    var q, u, b, r := |Undelivered(s.db)|, |Unclaimed(s)|, |s.batch|, Ranks(cfg, s.handlers, cfg.concurrency);
    ReadRanks(cfg, s, w, mid, t);
    ReadSets(cfg, s, w, mid, t);
    TotalRead(Full(cfg), q, u, b, r);
    TotalGrows(Full(cfg), q - 1, |Unclaimed(t)|, b, r + Full(cfg), q - 1, u + 1, b, r + Full(cfg));
  }

  lemma ClaimSets(cfg: Config, s: State, ms: seq<MsgId>, t: State)
    requires ClaimStep(cfg, s, ms, Done) == Some(t)
    ensures |Unclaimed(t)| <= |Unclaimed(s)| - |ms|
  {
    DistinctSize(ms);
    assert Unclaimed(s) == s.db.pending.Keys;
    forall m | m in Elements(ms)
      ensures InClaimersHands(t, m)
    {
      var i :| 0 <= i < |ms| && ms[i] == m;
      assert t.batch[i].mid == m;
    }
    assert Unclaimed(t) <= Unclaimed(s) - Elements(ms);
    SubsetSize(Unclaimed(t), Unclaimed(s) - Elements(ms));
    assert Elements(ms) <= Unclaimed(s);
  }

  lemma ClaimDrains(cfg: Config, s: State, ms: seq<MsgId>, t: State)
    requires ClaimStep(cfg, s, ms, Done) == Some(t)
    ensures WorkLeft(cfg, t) < WorkLeft(cfg, s)
  {
    var q, u, r := |Undelivered(s.db)|, |Unclaimed(s)|, Ranks(cfg, s.handlers, cfg.concurrency);
    ClaimSets(cfg, s, ms, t);
    assert Undelivered(t.db) == Undelivered(s.db);
    TotalClaim(Full(cfg), q, u, |ms|, r);
    TotalGrows(Full(cfg), q, |Unclaimed(t)|, |ms|, r, q, u - |ms|, |ms|, r);
  }

  lemma BeginSets(s: State, t: State)
    requires Claimer !in s.handlers && s.batch != []
    requires t == Arrive(s, Claimer, s.batch[0]).(batch := s.batch[1..])
    ensures Unclaimed(t) <= Unclaimed(s)
  {
    forall m | InClaimersHands(s, m)
      ensures InClaimersHands(t, m)
    {
      var i :| 0 <= i < |s.batch| && s.batch[i].mid == m;
      assert if i == 0 then t.handlers[Claimer].mid == m else t.batch[i - 1].mid == m;
    }
  }

  lemma BeginDrains(cfg: Config, s: State, t: State)
    requires Next(cfg, s, Begin) == Some(t)
    ensures WorkLeft(cfg, t) < WorkLeft(cfg, s)
  {
    var q, u, b, r := |Undelivered(s.db)|, |Unclaimed(s)|, |s.batch|, Ranks(cfg, s.handlers, cfg.concurrency);
    RanksChange(cfg, s.handlers, t.handlers, Claimer, cfg.concurrency);
    BeginSets(s, t);
    SubsetSize(Unclaimed(t), Unclaimed(s));
    TotalBegin(Full(cfg), q, u, b, r);
    TotalGrows(Full(cfg), q, |Unclaimed(t)|, b - 1, r + Full(cfg), q, u, b - 1, r + Full(cfg));
  }

  lemma TickKeepsWork(cfg: Config, s: State, delta: nat, t: State)
    requires Next(cfg, s, Tick(delta)) == Some(t)
    ensures WorkLeft(cfg, t) == WorkLeft(cfg, s)
  {
    assert Undelivered(t.db) == Undelivered(s.db);
    HandsSame(s, t);
    assert Unclaimed(t) == Unclaimed(s);
  }

  lemma CalmDrains(cfg: Config, s: State, a: Action, t: State)
    requires Sound(cfg, s) && CalmAction(a) && Next(cfg, s, a) == Some(t)
    ensures if a.Tick? then WorkLeft(cfg, t) == WorkLeft(cfg, s) else WorkLeft(cfg, t) < WorkLeft(cfg, s)
  {
    match a
    case Tick(delta) => TickKeepsWork(cfg, s, delta, t);
    case Read(w, mid, _) => ReadDrains(cfg, s, w, mid, t);
    case Claim(ms, _) => ClaimDrains(cfg, s, ms, t);
    case Begin => BeginDrains(cfg, s, t);
    case By(c, w) => WorkDrains(cfg, s, c, w, t);
  }

  // The actions of a run other than the passing of time.
  function Moves(acts: seq<Action>): nat {
    if acts == [] then 0 else (if acts[0].Tick? then 0 else 1) + Moves(acts[1..])
  }

  /** A calm run takes at most as many steps as there was work left at its start. */
  lemma {:induction false} DrainIsBounded(cfg: Config, s: State, acts: seq<Action>, t: State)
    requires Sound(cfg, s) && Run(cfg, Calm, s, acts, t)
    ensures Moves(acts) + WorkLeft(cfg, t) <= WorkLeft(cfg, s)
    decreases |acts|
  {
    if acts != [] {
      var n := Next(cfg, s, acts[0]).value;
      CalmDrains(cfg, s, acts[0], n);
      SoundStep(cfg, s, acts[0], n);
      DrainIsBounded(cfg, n, acts[1..], t);
    }
  }

  ghost predicate Drained(s: State) {
    s.db.entries == map[] && s.handlers == map[] && s.batch == []
  }

  function Later(s: State, delta: nat): State {
    s.(now := s.now + delta, db := Advance(s.db, s.now + delta))
  }

  // A step a handler can always take; a handler waiting at a busy gate has none of its own.
  function Onward(s: State, c: Consumer): Work
    requires c in s.handlers
  {
    match s.handlers[c].pc
    case Getting => Get(Done)
    case Marking => Mark(Done)
    case Fetching => Fetch(true)
    case Waiting(_) => Acquire
    case Calling(_) => Upstream(Permanent)
    case Backoff(_) => Wake
    case Zeroing(_) => ZeroData
    case Completing(_) => Complete(Done)
    case Failing(_) => Fail(Done)
    case Acking => Ack(Done)
    case Dropping => Drop
    case Wiping => Wipe
    case Leaving => Leave
  }

  lemma OnwardWorks(cfg: Config, s: State, c: Consumer)
    requires c in s.handlers && !s.stopping && (s.handlers[c].pc.Waiting? ==> s.gate.None?)
    ensures Next(cfg, s, By(c, Onward(s, c))).Some? && CalmAction(By(c, Onward(s, c)))
  {
  }

  lemma CanRead(cfg: Config, s: State) returns (mid: MsgId)
    requires cfg.concurrency >= 1 && s.handlers == map[] && !s.stopping && Undelivered(s.db) != {}
    ensures Next(cfg, s, Read(0, mid, Done)).Some?
  {
    mid := Least(Undelivered(s.db));
    forall o | o in s.db.entries && s.db.last < o
      ensures mid <= o
    {
      assert o in Undelivered(s.db);
    }
  }

  // What Redis answers to a claim.
  lemma ClaimAnswer(db: Db, now: Time, minIdle: Time, count: nat) returns (ms: seq<MsgId>)
    requires forall m :: m in db.pending ==> m in db.entries
    ensures Claimable(db, ms, now, minIdle, count)
  {
    ms := [];
    var rest := db.pending.Keys;
    var scanned := 0;
    while rest != {} && scanned < 10 * count && |ms| < count
      invariant |ms| <= count && scanned <= 10 * count && Walked(db.pending, ms, rest, now - minIdle, scanned)
      decreases |rest|
    {
      var m := Least(rest);
      WalkOn(db.pending, ms, rest, now - minIdle, scanned, m);
      if minIdle <= now - db.pending[m].at {
        ms := ms + [m];
      }
      rest := rest - {m};
      scanned := scanned + 1;
    }
    WalkEnds(db.pending, ms, rest, now - minIdle, scanned, count);
  }

  lemma CanClaim(cfg: Config, s: State) returns (delta: nat, ms: seq<MsgId>)
    requires Sound(cfg, s) && cfg.claimCount >= 1 && s.handlers == map[] && s.batch == [] && !s.stopping
    requires s.db.pending != map[]
    ensures Next(cfg, Later(s, delta), Claim(ms, Done)).Some?
  {
    var first := Least(s.db.pending.Keys);
    var short := cfg.claimMinIdle - (s.now - s.db.pending[first].at);
    delta := if short > 0 then short else 0;
    ms := ClaimAnswer(Later(s, delta).db, Later(s, delta).now, cfg.claimMinIdle, cfg.claimCount);
    FirstIsTaken(Later(s, delta).db, ms, first, Later(s, delta).now, cfg.claimMinIdle, cfg.claimCount);
    ClaimWorks(cfg, Later(s, delta), ms);
  }

  // A claim always gets the first pending row once that has been idle long enough.
  lemma FirstIsTaken(db: Db, ms: seq<MsgId>, first: MsgId, now: Time, minIdle: Time, count: nat)
    requires Claimable(db, ms, now, minIdle, count) && count >= 1
    requires first in db.pending && (forall o :: o in db.pending ==> first <= o) && minIdle <= now - db.pending[first].at
    ensures first in ms
  {
    assert Below(db.pending.Keys, first) == {};
    if ms != [] {
      assert ms[0] in ms;
    }
  }

  lemma ClaimWorks(cfg: Config, s: State, ms: seq<MsgId>)
    requires s.handlers == map[] && s.batch == [] && !s.stopping && ms != []
    requires Claimable(s.db, ms, s.now, cfg.claimMinIdle, cfg.claimCount)
    ensures Next(cfg, s, Claim(ms, Done)).Some?
  {
  }

  /** As long as anything is left, some step can be taken, at the latest once a pending message has
      been idle long enough to be claimed. */
  lemma NeverStuck(cfg: Config, s: State) returns (delta: nat, a: Action)
    requires Sound(cfg, s) && Gated(s) && !s.stopping && cfg.concurrency >= 1 && cfg.claimCount >= 1
    requires !Drained(s)
    ensures CalmAction(a) && !a.Tick? && Next(cfg, Later(s, delta), a).Some?
  {
    delta := 0;
    if s.handlers != map[] {
      var c := if s.gate.Some? then s.gate.value else Somebody(s.handlers);
      OnwardWorks(cfg, Later(s, 0), c);
      a := By(c, Onward(Later(s, 0), c));
    } else if s.batch != [] {
      a := Begin;
    } else if Undelivered(s.db) != {} {
      var mid := CanRead(cfg, Later(s, 0));
      a := Read(0, mid, Done);
    } else {
      assert s.db.entries.Keys == s.db.pending.Keys by {
        assert forall m :: m in s.db.entries ==> m !in Undelivered(s.db);
      }
      var ms;
      delta, ms := CanClaim(cfg, s);
      a := Claim(ms, Done);
    }
  }

  ghost function Somebody(hs: map<Consumer, Handler>): (c: Consumer)
    requires hs != map[]
    ensures c in hs
  {
    assert hs.Keys != {};
    var c :| c in hs;
    c
  }

  // Nothing but the passing of time is possible any more, now or later.
  ghost predicate Stuck(cfg: Config, s: State) {
    forall delta: nat, a :: CalmAction(a) && !a.Tick? ==> Next(cfg, Later(s, delta), a).None?
  }

  lemma CalmStays(cfg: Config, s: State, a: Action, t: State)
    requires CalmAction(a) && Next(cfg, s, a) == Some(t)
    ensures t.stopping == s.stopping && t.requests == s.requests && t.past.sent == s.past.sent
  {
    match a
    case By(c, w) => WorkFrame(cfg, s, c, w, t);
    case _ =>
  }

  lemma {:induction false} CalmRun(cfg: Config, s: State, acts: seq<Action>, t: State)
    requires Sound(cfg, s) && Gated(s) && Run(cfg, Calm, s, acts, t)
    ensures Sound(cfg, t) && Gated(t) && t.stopping == s.stopping && t.past.sent == s.past.sent
    decreases |acts|
  {
    if acts != [] {
      var n := Next(cfg, s, acts[0]).value;
      SoundStep(cfg, s, acts[0], n);
      GatedStep(cfg, s, acts[0], n);
      CalmStays(cfg, s, acts[0], n);
      CalmRun(cfg, n, acts[1..], t);
    }
  }

  /** A calm run that cannot be continued has drained the pipeline: the stream is empty and nobody
      is at work. Any history may precede it. */
  lemma MaximalCalmRunDrains(cfg: Config, before: seq<Action>, s: State, acts: seq<Action>, t: State)
    requires cfg.concurrency >= 1 && cfg.claimCount >= 1
    requires Run(cfg, Any, START, before, s) && !s.stopping
    requires Run(cfg, Calm, s, acts, t) && Stuck(cfg, t)
    ensures Drained(t)
  {
    SoundRun(cfg, Any, START, before, s);
    GatedRun(cfg, Any, START, before, s);
    CalmRun(cfg, s, acts, t);
    if !Drained(t) {
      var delta, a := NeverStuck(cfg, t);
    }
  }

  lemma LaterIsTick(cfg: Config, s: State, delta: nat)
    ensures Next(cfg, s, Tick(delta)) == Some(Later(s, delta)) && CalmAction(Tick(delta))
  {
  }

  // One more step of a calm run, once enough time has passed.
  lemma DrainMore(cfg: Config, s: State) returns (acts: seq<Action>, n: State)
    requires Sound(cfg, s) && Gated(s) && !s.stopping && cfg.concurrency >= 1 && cfg.claimCount >= 1 && !Drained(s)
    ensures Run(cfg, Calm, s, acts, n) && WorkLeft(cfg, n) < WorkLeft(cfg, s)
  {
    var delta, a := NeverStuck(cfg, s);
    var m := Later(s, delta);
    n := Next(cfg, m, a).value;
    LaterIsTick(cfg, s, delta);
    SoundStep(cfg, s, Tick(delta), m);
    CalmDrains(cfg, s, Tick(delta), m);
    CalmDrains(cfg, m, a, n);
    One(cfg, Calm, s, Tick(delta), m);
    Extend(cfg, Calm, s, [Tick(delta)], m, a, n);
    acts := [Tick(delta)] + [a];
  }

  /** And such a run exists from every state. */
  lemma {:induction false} CanDrain(cfg: Config, s: State) returns (acts: seq<Action>, t: State)
    requires Sound(cfg, s) && Gated(s) && !s.stopping && cfg.concurrency >= 1 && cfg.claimCount >= 1
    ensures Run(cfg, Calm, s, acts, t) && Drained(t)
    decreases WorkLeft(cfg, s)
  {
    if Drained(s) {
      acts, t := [], s;
    } else {
      var first, n := DrainMore(cfg, s);
      CalmRun(cfg, s, first, n);
      var rest;
      rest, t := CanDrain(cfg, n);
      Then(cfg, Calm, s, first, n, rest, t);
      acts := first + rest;
    }
  }

  // Between marking the job as processing and writing its end.
  predicate PastMark(pc: Pc) {
    Rank(0, pc) >= 5 && !pc.Getting? && !pc.Marking?
  }

  ghost predicate EndsSoon(s: State, id: JobId, c: Consumer) {
    c in s.handlers && s.handlers[c].id == id && PastMark(s.handlers[c].pc)
  }

  // The record is gone, or ended, or about to be ended by a handler at work.
  ghost predicate Closing(s: State, id: JobId) {
    || id !in s.db.jobs
    || Ended(s.db.jobs[id].rec)
    || exists c :: EndsSoon(s, id, c)
  }

  ghost predicate AllClosing(s: State) {
    && (forall c :: c in s.handlers && s.handlers[c].pc.Acking? ==> Closing(s, s.handlers[c].id))
    && (forall id :: id in s.past.sent ==> s.past.sent[id] in s.db.entries || Closing(s, id))
  }

  // A handler past its mark stays past it until it has written the end.
  lemma MarkLasts(cfg: Config, s: State, c: Consumer, w: Work, t: State)
    requires c in s.handlers && WorkStep(cfg, s, c, w) == Some(t) && SmoothAction(By(c, w))
    requires PastMark(s.handlers[c].pc) && OnlyHandler(s, c, t)
    ensures Closing(t, s.handlers[c].id)
  {
    var id := s.handlers[c].id;
    if w.Complete? || w.Fail? {
      WorkDb(cfg, s, c, w, t);
    } else {
      HandlerMoves(cfg, s, c, w, t);
      StaysMarked(cfg, s, s.handlers[c], w);
      assert EndsSoon(t, id, c);
    }
  }

  lemma StaysMarked(cfg: Config, s: State, h: Handler, w: Work)
    requires Fits(h.pc, w) && PastMark(h.pc) && !w.Complete? && !w.Fail?
    ensures !w.Leave? && PastMark(After(cfg, s, h, w).pc)
  {
  }

  lemma ClosingWork(cfg: Config, s: State, c: Consumer, w: Work, t: State, id: JobId)
    requires c in s.handlers && WorkStep(cfg, s, c, w) == Some(t) && SmoothAction(By(c, w)) && OnlyHandler(s, c, t)
    requires Closing(s, id)
    ensures Closing(t, id)
  {
    WorkDb(cfg, s, c, w, t);
    var h := s.handlers[c];
    if d :| EndsSoon(s, id, d) {
      if d == c {
        MarkLasts(cfg, s, c, w, t);
      } else {
        assert EndsSoon(t, id, d);
      }
    } else if h.id == id && w.Mark? {
      assert EndsSoon(t, id, c);
    }
  }

  lemma ClosingAtAck(cfg: Config, s: State, c: Consumer, w: Work, t: State)
    requires c in s.handlers && WorkStep(cfg, s, c, w) == Some(t) && SmoothAction(By(c, w))
    requires c in t.handlers && t.handlers[c].pc.Acking?
    ensures Closing(t, s.handlers[c].id)
  {
    WorkDb(cfg, s, c, w, t);
    HandlerMoves(cfg, s, c, w, t);
    ReachesAck(cfg, s, s.handlers[c], w);
  }

  lemma AllClosingWork(cfg: Config, s: State, c: Consumer, w: Work, t: State)
    requires Sound(cfg, s) && AllClosing(s)
    requires c in s.handlers && WorkStep(cfg, s, c, w) == Some(t) && SmoothAction(By(c, w))
    ensures AllClosing(t)
  {
    WorkFrame(cfg, s, c, w, t);
    assert Carried(s.db, s.past, s.handlers[c].mid, s.handlers[c].id);
    forall d | d in t.handlers && t.handlers[d].pc.Acking?
      ensures Closing(t, t.handlers[d].id)
    {
      if d == c {
        ClosingAtAck(cfg, s, c, w, t);
      } else {
        ClosingWork(cfg, s, c, w, t, s.handlers[d].id);
      }
    }
    forall id | id in t.past.sent
      ensures t.past.sent[id] in t.db.entries || Closing(t, id)
    {
      if Closing(s, id) {
        ClosingWork(cfg, s, c, w, t, id);
      } else if s.past.sent[id] !in t.db.entries {
        WorkRemoves(cfg, s, c, w, t, s.past.sent[id]);
      }
    }
  }

  lemma ClosingStays(s: State, t: State, id: JobId)
    requires Closing(s, id)
    requires forall c :: c in s.handlers ==> c in t.handlers && t.handlers[c] == s.handlers[c]
    requires id in t.db.jobs ==> id in s.db.jobs && t.db.jobs[id].rec == s.db.jobs[id].rec
    ensures Closing(t, id)
  {
    if c :| EndsSoon(s, id, c) {
      assert EndsSoon(t, id, c);
    }
  }

  lemma AllClosingElsewhere(cfg: Config, s: State, t: State)
    requires AllClosing(s)
    requires forall c :: c in s.handlers ==> c in t.handlers && t.handlers[c] == s.handlers[c]
    requires forall c :: c in t.handlers && c !in s.handlers ==> t.handlers[c].pc.Getting?
    requires forall id :: id in t.db.jobs ==> id in s.db.jobs && t.db.jobs[id].rec == s.db.jobs[id].rec
    requires t.past.sent == s.past.sent && t.db.entries == s.db.entries
    ensures AllClosing(t)
  {
    forall c | c in t.handlers && t.handlers[c].pc.Acking?
      ensures Closing(t, t.handlers[c].id)
    {
      ClosingStays(s, t, s.handlers[c].id);
    }
    forall id | id in t.past.sent
      ensures t.past.sent[id] in t.db.entries || Closing(t, id)
    {
      if Closing(s, id) {
        ClosingStays(s, t, id);
      }
    }
  }

  // An applied enqueue adds one entry and one record, both of its own job.
  lemma EnqueueAdds(cfg: Config, s: State, id: JobId, reply: Reply)
    requires id in s.requests && s.requests[id].phase.Adding?
    ensures var t := EnqueueStep(cfg, s, id, reply);
            && t.handlers == s.handlers
            && (forall m :: m in s.db.entries ==> m in t.db.entries)
            && (forall i :: i != id && i in t.db.jobs ==> i in s.db.jobs && t.db.jobs[i] == s.db.jobs[i])
            && (forall i :: i != id && i in t.past.sent ==> i in s.past.sent && t.past.sent[i] == s.past.sent[i])
            && (Applied(reply) ==> id in t.past.sent && t.past.sent[id] in t.db.entries)
            && (!Applied(reply) ==> t.db == s.db && t.past.sent == s.past.sent)
  {
  }

  lemma AllClosingEnqueue(cfg: Config, s: State, id: JobId, reply: Reply)
    requires Sound(cfg, s) && AllClosing(s) && id in s.requests && s.requests[id].phase.Adding?
    ensures AllClosing(EnqueueStep(cfg, s, id, reply))
  {
    var t := EnqueueStep(cfg, s, id, reply);
    EnqueueAdds(cfg, s, id, reply);
    assert id !in s.past.sent;
    forall c | c in t.handlers && t.handlers[c].pc.Acking?
      ensures Closing(t, t.handlers[c].id)
    {
      assert Carried(s.db, s.past, s.handlers[c].mid, s.handlers[c].id);
      ClosingStays(s, t, s.handlers[c].id);
    }
    forall i | i in t.past.sent
      ensures t.past.sent[i] in t.db.entries || Closing(t, i)
    {
      if i in s.past.sent && Closing(s, i) {
        ClosingStays(s, t, i);
      }
    }
  }

  lemma AllClosingHttp(cfg: Config, s: State, id: JobId, a: Serve, t: State)
    requires Sound(cfg, s) && AllClosing(s) && HttpStep(cfg, s, id, a) == Some(t)
    ensures AllClosing(t)
  {
    if a.Enqueue? {
      AllClosingEnqueue(cfg, s, id, a.reply);
    } else {
      HttpQuiet(cfg, s, id, a, t);
      AllClosingElsewhere(cfg, s, t);
    }
  }

  lemma AllClosingTick(cfg: Config, s: State, delta: nat, t: State)
    requires AllClosing(s) && t == Later(s, delta)
    ensures AllClosing(t)
  {
    AllClosingElsewhere(cfg, s, t);
  }

  lemma AllClosingDelivery(cfg: Config, s: State, a: Action, t: State)
    requires AllClosing(s) && Next(cfg, s, a) == Some(t) && (a.Stop? || a.Read? || a.Claim? || a.Begin?)
    ensures AllClosing(t)
  {
    DeliveryFrame(cfg, s, a, t);
    DeliveryKeeps(cfg, s, a, t);
    AllClosingElsewhere(cfg, s, t);
  }

  lemma DeliveryKeeps(cfg: Config, s: State, a: Action, t: State)
    requires Next(cfg, s, a) == Some(t) && (a.Stop? || a.Read? || a.Claim? || a.Begin?)
    ensures forall c :: c in s.handlers ==> c in t.handlers && t.handlers[c] == s.handlers[c]
  {
  }

  lemma AllClosingStep(cfg: Config, s: State, a: Action, t: State)
    requires Sound(cfg, s) && AllClosing(s) && SmoothAction(a) && Next(cfg, s, a) == Some(t)
    ensures AllClosing(t)
  {
    match a
    case By(c, w) => AllClosingWork(cfg, s, c, w, t);
    case Http(id, serve) => AllClosingHttp(cfg, s, id, serve, t);
    case Tick(delta) => AllClosingTick(cfg, s, delta, t);
    case _ => AllClosingDelivery(cfg, s, a, t);
  }

  lemma {:induction false} AllClosingRun(cfg: Config, s: State, acts: seq<Action>, t: State)
    requires Sound(cfg, s) && AllClosing(s) && Run(cfg, Smooth, s, acts, t)
    ensures AllClosing(t)
    decreases |acts|
  {
    if acts != [] {
      var n := Next(cfg, s, acts[0]).value;
      SoundStep(cfg, s, acts[0], n);
      AllClosingStep(cfg, s, acts[0], n);
      AllClosingRun(cfg, n, acts[1..], t);
    }
  }

  /** After a history without crashes and failed Redis calls, duplicate claims included, every job
      left in a drained pipeline is completed or failed. */
  lemma DrainedJobsHaveEnded(cfg: Config, acts: seq<Action>, s: State, id: JobId)
    requires Run(cfg, Smooth, START, acts, s) && s.db.entries == map[] && s.handlers == map[]
    requires id in s.past.sent && id in s.db.jobs
    ensures Ended(s.db.jobs[id].rec)
  {
    AllClosingRun(cfg, START, acts, s);
    assert Closing(s, id);
  }

  lemma {:induction false} CalmIsFailStop(cfg: Config, s: State, acts: seq<Action>, t: State)
    requires Run(cfg, Calm, s, acts, t) && forall c :: c in s.handlers ==> !s.handlers[c].down
    ensures Run(cfg, FailStop, s, acts, t)
    decreases |acts|
  {
    if acts != [] {
      var n := Next(cfg, s, acts[0]).value;
      StaysUp(cfg, s, acts[0], n);
      CalmIsFailStop(cfg, n, acts[1..], t);
    }
  }

  lemma StaysUp(cfg: Config, s: State, a: Action, t: State)
    requires CalmAction(a) && Next(cfg, s, a) == Some(t)
    requires forall c :: c in s.handlers ==> !s.handlers[c].down
    ensures forall c :: c in t.handlers ==> !t.handlers[c].down
  {
    match a
    case By(c, w) =>
      WorkFrame(cfg, s, c, w, t);
      HandlerMoves(cfg, s, c, w, t);
      if !w.Leave? {
        HandlerStaysUp(cfg, s, s.handlers[c], w);
      }
    case Tick(_) =>
    case _ => DeliveryFrame(cfg, s, a, t);
  }

  lemma HandlerStaysUp(cfg: Config, s: State, h: Handler, w: Work)
    requires Fits(h.pc, w) && !w.Leave? && !h.down && (ReplyOf(w).Some? ==> ReplyOf(w).value.Done?)
    ensures !After(cfg, s, h, w).down
  {
  }

  /** After any fail-stop history, crashes and duplicate claims included, once no handler with a
      failed Redis call is left, a maximal calm run ends with an empty stream and the end of every
      job that never ran out on record. */
  lemma DrainedJobsAreRecorded(cfg: Config, before: seq<Action>, s: State, acts: seq<Action>, t: State, id: JobId)
    requires cfg.concurrency >= 1 && cfg.claimCount >= 1
    requires Run(cfg, FailStop, START, before, s) && !s.stopping && (forall c :: c in s.handlers ==> !s.handlers[c].down)
    requires Run(cfg, Calm, s, acts, t) && Stuck(cfg, t)
    requires id in t.past.sent && id !in t.db.expired
    ensures id in t.db.jobs && t.db.jobs[id].rec.completedAt.Some?
  {
    RunIsAny(cfg, FailStop, START, before, s);
    MaximalCalmRunDrains(cfg, before, s, acts, t);
    CalmIsFailStop(cfg, s, acts, t);
    Then(cfg, FailStop, START, before, s, acts, t);
    NoAcceptedJobIsLost(cfg, before + acts, t, id);
  }

  lemma EndedWhenRecorded(cfg: Config, s: State, id: JobId)
    requires Orderly(cfg, s) && id in s.db.jobs && s.db.jobs[id].rec.completedAt.Some?
    ensures Ended(s.db.jobs[id].rec)
  {
    assert Shaped(s.db.jobs[id].rec);
  }

  /** When no message was claimed under a live handler either, before or during the drain, the end
      on record is a status too: every job that never ran out is completed or failed, crashes and
      redeliveries included. */
  lemma DrainedJobsHaveEndedOrderly(cfg: Config, before: seq<Action>, s: State, acts: seq<Action>, t: State, id: JobId)
    requires cfg.concurrency >= 1 && cfg.claimCount >= 1
    requires Run(cfg, FailStop, START, before, s) && Run(cfg, Exclusive, START, before, s)
    requires !s.stopping && (forall c :: c in s.handlers ==> !s.handlers[c].down)
    requires Run(cfg, Calm, s, acts, t) && Run(cfg, Exclusive, s, acts, t) && Stuck(cfg, t)
    requires id in t.past.sent && id !in t.db.expired
    ensures id in t.db.jobs && Ended(t.db.jobs[id].rec)
  {
    DrainedJobsAreRecorded(cfg, before, s, acts, t, id);
    StartIsOrderly(cfg);
    OrderlyRun(cfg, START, before, s);
    OrderlyRun(cfg, s, acts, t);
    EndedWhenRecorded(cfg, t, id);
  }
}
