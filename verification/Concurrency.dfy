/** The capacity-one gate in front of Whisper and the bounds on handlers at work. */
module Concurrency {
  import opened Wrappers
  import opened Jobs
  import opened Redis
  import opened Pipeline
  import opened Runs
  import opened Accounting

  ghost predicate Distinct<T>(xs: seq<T>) {
    forall i, j :: 0 <= i < j < |xs| ==> xs[i] != xs[j]
  }

  function Elements<T(==)>(xs: seq<T>): set<T> {
    set x | x in xs
  }

  lemma {:induction false} DistinctSize<T>(xs: seq<T>)
    requires Distinct(xs)
    ensures |Elements(xs)| == |xs|
    decreases |xs|
  {
    if xs != [] {
      var rest := xs[1..];
      DistinctSize(rest);
      assert xs == [xs[0]] + rest;
      assert xs[0] !in rest;
      assert Elements(xs) == Elements(rest) + {xs[0]};
    }
  }

  ghost predicate GateOk(handlers: map<Consumer, Handler>, gate: Option<Consumer>, waiting: seq<Consumer>) {
    && (forall c :: gate == Some(c) <==> c in handlers && handlers[c].pc.Calling?)
    && (forall c :: c in waiting <==> c in handlers && handlers[c].pc.Waiting?)
    && Distinct(waiting)
  }

  ghost predicate Gated(s: State) {
    && GateOk(s.handlers, s.gate, s.waiting)
    && s.inFlight == |s.handlers|
  }

  lemma {:induction false} WithoutHas(cs: seq<Consumer>, c: Consumer)
    requires Distinct(cs)
    ensures Distinct(Without(cs, c))
    ensures forall d :: d in Without(cs, c) <==> d in cs && d != c
    decreases |cs|
  {
    if cs != [] {
      var rest := cs[1..];
      WithoutHas(rest, c);
      assert cs == [cs[0]] + rest;
      assert cs[0] !in rest;
      if cs[0] != c {
        var r := Without(rest, c);
        assert Without(cs, c) == [cs[0]] + r;
        assert forall i :: 0 <= i < |r| ==> r[i] in r;
      }
    }
  }

  lemma Joined(cs: seq<Consumer>, c: Consumer)
    requires Distinct(cs) && c !in cs
    ensures Distinct(cs + [c])
    ensures forall d :: d in cs + [c] <==> d in cs || d == c
  {
    assert forall i :: 0 <= i < |cs| ==> cs[i] in cs;
  }

  predicate AwayFromGate(pc: Pc) {
    !pc.Waiting? && !pc.Calling?
  }

  // The ways a step of handler `c` can meet the gate.
  ghost predicate GateShape(s: State, c: Consumer, t: State)
    requires c in s.handlers
  {
    var was := s.handlers[c].pc;
    if c !in t.handlers then AwayFromGate(was) && t.gate == s.gate && t.waiting == s.waiting
    else
      var is_ := t.handlers[c].pc;
      || (AwayFromGate(was) && AwayFromGate(is_) && t.gate == s.gate && t.waiting == s.waiting)
      || (AwayFromGate(was) && is_.Waiting? && t.gate == s.gate && t.waiting == s.waiting + [c])
      || (was.Waiting? && is_.Calling? && s.gate == None && t.gate == Some(c) && t.waiting == Without(s.waiting, c))
      || (was.Waiting? && AwayFromGate(is_) && t.gate == s.gate && t.waiting == Without(s.waiting, c))
      || (was.Calling? && AwayFromGate(is_) && t.gate == None && t.waiting == s.waiting)
  }

  lemma ShapeAtGate(cfg: Config, s: State, c: Consumer, w: Work, t: State)
    requires c in s.handlers && WorkStep(cfg, s, c, w) == Some(t) && AtGate(w)
    ensures GateShape(s, c, t)
  {
  }

  lemma ShapeFetch(s: State, c: Consumer, downloaded: bool)
    requires c in s.handlers && s.handlers[c].pc.Fetching?
    ensures GateShape(s, c, FetchStep(s, c, downloaded))
  {
  }

  lemma GateDrop(s: State, c: Consumer)
    requires c in s.handlers
    ensures DropStep(s, c).gate == s.gate && DropStep(s, c).waiting == s.waiting
  {
  }

  lemma GateMove(s: State, c: Consumer, pc: Pc, reply: Reply)
    requires c in s.handlers
    ensures MoveDown(s, c, pc, reply).gate == s.gate && MoveDown(s, c, pc, reply).waiting == s.waiting
  {
  }

  lemma GateWrite(cfg: Config, s: State, c: Consumer, patch: Record, pc: Pc, reply: Reply)
    requires c in s.handlers
    ensures var t := WriteStep(cfg, s, c, patch, pc, reply); t.gate == s.gate && t.waiting == s.waiting
  {
    GateMove(s, c, pc, reply);
  }

  lemma GateElsewhere(cfg: Config, s: State, c: Consumer, w: Work, t: State)
    requires c in s.handlers && WorkStep(cfg, s, c, w) == Some(t) && !AtGate(w) && !w.Fetch?
    ensures t.gate == s.gate && t.waiting == s.waiting
  {
    match w
    case Drop => GateDrop(s, c);
    case Mark(reply) => GateWrite(cfg, s, c, PROCESSING_PATCH, Fetching, reply);
    case Complete(reply) => GateWrite(cfg, s, c, CompletedPatch(s.handlers[c].pc.body, s.now), Acking, reply);
    case Fail(reply) => GateWrite(cfg, s, c, FailedPatch(s.handlers[c].pc.cause, s.now), Acking, reply);
    case _ =>
  }

  lemma AwayElsewhere(cfg: Config, s: State, h: Handler, w: Work)
    requires Fits(h.pc, w) && !AtGate(w) && !w.Fetch?
    ensures AwayFromGate(h.pc) && (!w.Leave? ==> AwayFromGate(After(cfg, s, h, w).pc))
  {
  }

  lemma ShapeElsewhere(cfg: Config, s: State, c: Consumer, w: Work, t: State)
    requires c in s.handlers && WorkStep(cfg, s, c, w) == Some(t) && !AtGate(w) && !w.Fetch?
    ensures GateShape(s, c, t)
  {
    HandlerMoves(cfg, s, c, w, t);
    GateElsewhere(cfg, s, c, w, t);
    AwayElsewhere(cfg, s, s.handlers[c], w);
  }

  lemma ShapeOf(cfg: Config, s: State, c: Consumer, w: Work, t: State)
    requires c in s.handlers && WorkStep(cfg, s, c, w) == Some(t)
    ensures GateShape(s, c, t)
  {
    if w.Fetch? {
      ShapeFetch(s, c, w.downloaded);
    } else if AtGate(w) {
      ShapeAtGate(cfg, s, c, w, t);
    } else {
      ShapeElsewhere(cfg, s, c, w, t);
    }
  }

  lemma GatedWork(s: State, c: Consumer, t: State)
    requires Gated(s) && c in s.handlers && OnlyHandler(s, c, t) && GateShape(s, c, t)
    requires t.inFlight == s.inFlight + |t.handlers| - |s.handlers|
    ensures Gated(t)
  {
    WithoutHas(s.waiting, c);
    if c !in s.waiting {
      Joined(s.waiting, c);
    }
  }

  lemma Counted(s: State, c: Consumer, t: State)
    requires c in s.handlers && OnlyHandler(s, c, t)
    ensures t.inFlight == s.inFlight + |t.handlers| - |s.handlers|
  {
    if c in t.handlers {
      assert t.handlers.Keys == s.handlers.Keys;
    } else {
      assert t.handlers.Keys == s.handlers.Keys - {c};
    }
  }

  lemma GatedArrive(s: State, c: Consumer, m: Message)
    requires Gated(s) && c !in s.handlers
    ensures Gated(Arrive(s, c, m))
  {
    assert Arrive(s, c, m).handlers.Keys == s.handlers.Keys + {c};
  }

  lemma HttpAside(cfg: Config, s: State, id: JobId, a: Serve, t: State)
    requires HttpStep(cfg, s, id, a) == Some(t)
    ensures t.handlers == s.handlers && t.gate == s.gate && t.waiting == s.waiting && t.inFlight == s.inFlight
    ensures t.batch == s.batch && t.now == s.now && t.stopping == s.stopping
  {
    if a.Enqueue? {
      EnqueueAside(cfg, s, id, a.reply);
    }
  }

  lemma EnqueueAside(cfg: Config, s: State, id: JobId, reply: Reply)
    requires id in s.requests
    ensures var t := EnqueueStep(cfg, s, id, reply);
            && t.handlers == s.handlers && t.gate == s.gate && t.waiting == s.waiting && t.inFlight == s.inFlight
            && t.batch == s.batch && t.now == s.now && t.stopping == s.stopping
  {
  }

  lemma GatedStep(cfg: Config, s: State, a: Action, t: State)
    requires Gated(s) && Next(cfg, s, a) == Some(t)
    ensures Gated(t)
  {
    match a
    case By(c, w) =>
      WorkFrame(cfg, s, c, w, t);
      ShapeOf(cfg, s, c, w, t);
      Counted(s, c, t);
      GatedWork(s, c, t);
    case Read(w, mid, reply) =>
      var r := s.(db := ReadTx(s.db, mid, Worker(w), s.now), past := s.past.(handed := s.past.handed + [mid]));
      GatedArrive(r, Worker(w), Message(mid, s.db.entries[mid]));
    case Begin => GatedArrive(s, Claimer, s.batch[0]);
    case Http(id, serve) =>
      HttpAside(cfg, s, id, serve, t);
    case _ =>
  }

  lemma {:induction false} GatedRun(cfg: Config, p: Policy, s: State, acts: seq<Action>, t: State)
    requires Gated(s) && Run(cfg, p, s, acts, t)
    ensures Gated(t)
    decreases |acts|
  {
    if acts != [] {
      var n := Next(cfg, s, acts[0]).value;
      GatedStep(cfg, s, acts[0], n);
      GatedRun(cfg, p, n, acts[1..], t);
    }
  }

  function Consumers(n: nat): (cs: set<Consumer>)
    ensures |cs| == n + 1
    ensures forall c: Consumer :: c in cs <==> c.Claimer? || c.index < n
  {
    if n == 0 then {Claimer} else Consumers(n - 1) + {Worker(n - 1)}
  }

  // The handlers busy with one message.
  function Busy(s: State, mid: MsgId): set<Consumer> {
    set c | c in s.handlers && s.handlers[c].mid == mid
  }

  lemma AtMostTwo(cfg: Config, s: State, mid: MsgId)
    requires Sound(cfg, s)
    ensures |Busy(s, mid)| <= 2
  {
    if w :| w in Busy(s, mid) && w.Worker? {
      assert forall c :: c in Busy(s, mid) ==> c == w || c == Claimer;
      SubsetSize(Busy(s, mid), {w, Claimer});
    } else {
      SubsetSize(Busy(s, mid), {Claimer});
    }
  }

  /** In every reachable state the gate is held by exactly the handler that is inside the upstream
      call, nobody else is inside one, the in-flight counter is the number of live handlers and
      stays within concurrency + 1, and a message has at most two live handlers, of which at most
      one is a worker. */
  lemma ConcurrencyBounds(cfg: Config, acts: seq<Action>, s: State)
    requires Run(cfg, Any, START, acts, s)
    ensures forall c :: s.gate == Some(c) <==> c in s.handlers && s.handlers[c].pc.Calling?
    ensures forall c, d :: c in s.handlers && d in s.handlers && s.handlers[c].pc.Calling? && s.handlers[d].pc.Calling? ==> c == d
    ensures s.inFlight == |s.handlers| <= cfg.concurrency + 1
    ensures forall mid :: |Busy(s, mid)| <= 2
    ensures forall c, d :: c in s.handlers && d in s.handlers && c.Worker? && d.Worker? && c != d ==> s.handlers[c].mid != s.handlers[d].mid
  {
    SoundRun(cfg, Any, START, acts, s);
    GatedRun(cfg, Any, START, acts, s);
    assert forall c :: c in s.handlers ==> Known(cfg, c);
    SubsetSize(s.handlers.Keys, Consumers(cfg.concurrency));
    forall mid
      ensures |Busy(s, mid)| <= 2
    {
      AtMostTwo(cfg, s, mid);
    }
  }
}
