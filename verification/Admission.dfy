/** Admission control: the length check and the transaction that adds are separate calls, so the
    cap on the queue depends on how many requests race. */
module Admission {
  import opened Wrappers
  import opened Jobs
  import opened Redis
  import opened Pipeline
  import opened Runs
  import opened Accounting
  import opened Concurrency

  // Requests that passed the length check and have not added their entry yet.
  function Admitted(s: State): set<JobId> {
    set id | id in s.requests && s.requests[id].phase.Adding?
  }

  ghost predicate WithinCap(cfg: Config, k: nat, s: State) {
    |s.db.entries| + |Admitted(s)| <= cfg.queueSize - 1 + k
  }

  lemma AdmittedCheck(cfg: Config, k: nat, s: State, id: JobId, reply: Reply, t: State)
    requires WithinCap(cfg, k, s) && |Inside(s)| <= k
    requires HttpStep(cfg, s, id, CheckLen(reply)) == Some(t)
    ensures WithinCap(cfg, k, t)
  {
    if reply.Done? && |s.db.entries| < cfg.queueSize {
      assert Admitted(t) <= Inside(s);
      SubsetSize(Admitted(t), Inside(s));
    } else {
      assert Admitted(t) <= Admitted(s);
      SubsetSize(Admitted(t), Admitted(s));
    }
  }

  lemma AdmittedEnqueue(cfg: Config, k: nat, s: State, id: JobId, reply: Reply, t: State)
    requires WithinCap(cfg, k, s)
    requires HttpStep(cfg, s, id, Enqueue(reply)) == Some(t)
    ensures WithinCap(cfg, k, t)
  {
    EnqueueLeaves(cfg, s, id, reply);
    assert Admitted(t) == Admitted(s) - {id};
    assert id in Admitted(s);
    EntriesGrow(s.db.entries, s.db.nextId, id);
  }

  lemma AdmittedOther(cfg: Config, k: nat, s: State, id: JobId, a: Serve, t: State)
    requires WithinCap(cfg, k, s) && !a.CheckLen? && !a.Enqueue?
    requires HttpStep(cfg, s, id, a) == Some(t)
    ensures WithinCap(cfg, k, t)
  {
    HttpQuiet(cfg, s, id, a, t);
    NotAdding(cfg, s, id, a, t);
    assert Admitted(t) <= Admitted(s);
    SubsetSize(Admitted(t), Admitted(s));
  }

  lemma NotAdding(cfg: Config, s: State, id: JobId, a: Serve, t: State)
    requires HttpStep(cfg, s, id, a) == Some(t) && !a.CheckLen? && !a.Enqueue?
    ensures id in t.requests ==> !t.requests[id].phase.Adding?
  {
  }

  lemma EntriesGrow(entries: map<MsgId, JobId>, mid: MsgId, id: JobId)
    ensures |entries[mid := id]| <= |entries| + 1
    ensures mid !in entries ==> |entries[mid := id]| == |entries| + 1
  {
    assert entries[mid := id].Keys == entries.Keys + {mid};
  }

  lemma AdmittedSame(cfg: Config, k: nat, s: State, t: State)
    requires WithinCap(cfg, k, s) && t.requests == s.requests && t.db.entries.Keys <= s.db.entries.Keys
    ensures WithinCap(cfg, k, t)
  {
    assert Admitted(t) == Admitted(s);
    SubsetSize(t.db.entries.Keys, s.db.entries.Keys);
  }

  lemma AdmittedStep(cfg: Config, k: nat, s: State, a: Action, t: State)
    requires WithinCap(cfg, k, s) && Allows(cfg, Admitting(k), s, a) && Next(cfg, s, a) == Some(t)
    ensures WithinCap(cfg, k, t)
  {
    match a
    case Http(id, serve) =>
      match serve {
        case CheckLen(reply) => AdmittedCheck(cfg, k, s, id, reply, t);
        case Enqueue(reply) => AdmittedEnqueue(cfg, k, s, id, reply, t);
        case _ => AdmittedOther(cfg, k, s, id, serve, t);
      }
    case By(c, w) =>
      WorkFrame(cfg, s, c, w, t);
      AdmittedSame(cfg, k, s, t);
    case Crash =>
      assert Admitted(t) == {};
    case _ =>
      AdmittedSame(cfg, k, s, t);
  }

  /** With never more than k requests inside the enqueue call at once, the stream length plus the
      requests already past the check never exceeds queueSize - 1 + k. */
  lemma {:induction false} AdmissionBound(cfg: Config, k: nat, s: State, acts: seq<Action>, t: State)
    requires WithinCap(cfg, k, s) && Run(cfg, Admitting(k), s, acts, t)
    ensures WithinCap(cfg, k, t)
    decreases |acts|
  {
    if acts != [] {
      var n := Next(cfg, s, acts[0]).value;
      AdmittedStep(cfg, k, s, acts[0], n);
      AdmissionBound(cfg, k, n, acts[1..], t);
    }
  }

  // URL requests 0..hi have started, those below `checked` passed the length check, and those
  // below `lo` are in the stream.
  ghost predicate Loaded(s: State, lo: nat, checked: nat, hi: nat) {
    && lo <= checked <= hi
    && (forall id: JobId :: id in s.past.ids <==> id < hi)
    && (forall id: JobId :: id in s.requests <==> lo <= id < hi)
    && (forall id :: id in s.requests ==>
          && s.requests[id].source == Url
          && s.requests[id].phase == if id < checked then Adding else Checking)
    && |s.db.entries| == lo
    && (forall m :: m in s.db.entries ==> m < s.db.nextId)
  }

  function Range(lo: nat, hi: nat): (r: set<nat>)
    requires lo <= hi
    ensures |r| == hi - lo
    ensures forall i :: i in r <==> lo <= i < hi
    decreases hi - lo
  {
    if lo == hi then {} else Range(lo, hi - 1) + {hi - 1}
  }

  lemma LoadedInside(s: State, lo: nat, checked: nat, hi: nat)
    requires Loaded(s, lo, checked, hi)
    ensures |Inside(s)| == hi - lo
  {
    assert Inside(s) == Range(lo, hi);
  }

  lemma Opens(cfg: Config, s: State, lo: nat, checked: nat, hi: nat) returns (t: State)
    requires Loaded(s, lo, checked, hi)
    ensures Next(cfg, s, Http(hi, StartUrl("", ""))) == Some(t) && Loaded(t, lo, checked, hi + 1)
  {
    t := HttpStep(cfg, s, hi, StartUrl("", "")).value;
  }

  lemma Passes(cfg: Config, s: State, lo: nat, checked: nat, hi: nat) returns (t: State)
    requires Loaded(s, lo, checked, hi) && checked < hi && lo < cfg.queueSize
    ensures Next(cfg, s, Http(checked, CheckLen(Done))) == Some(t) && Loaded(t, lo, checked + 1, hi)
  {
    t := HttpStep(cfg, s, checked, CheckLen(Done)).value;
  }

  lemma Adds(cfg: Config, s: State, lo: nat, checked: nat, hi: nat) returns (t: State)
    requires Loaded(s, lo, checked, hi) && lo < checked
    ensures Next(cfg, s, Http(lo, Enqueue(Done))) == Some(t) && Loaded(t, lo + 1, checked, hi)
  {
    t := HttpStep(cfg, s, lo, Enqueue(Done)).value;
    EntriesGrow(s.db.entries, s.db.nextId, lo);
  }

  // From `lo` entries and nobody inside, one more request at a time.
  lemma {:induction false} FillUp(cfg: Config, k: nat, s: State, lo: nat, goal: nat) returns (acts: seq<Action>, t: State)
    requires Loaded(s, lo, lo, lo) && lo <= goal < cfg.queueSize && k >= 1
    ensures Run(cfg, Admitting(k), s, acts, t) && Loaded(t, goal, goal, goal)
    decreases goal - lo
  {
    if lo == goal {
      acts, t := [], s;
    } else {
      var s1 := Opens(cfg, s, lo, lo, lo);
      var s2 := Passes(cfg, s1, lo, lo, lo + 1);
      var s3 := Adds(cfg, s2, lo, lo + 1, lo + 1);
      LoadedInside(s, lo, lo, lo);
      LoadedInside(s1, lo, lo, lo + 1);
      LoadedInside(s2, lo, lo + 1, lo + 1);
      var rest;
      rest, t := FillUp(cfg, k, s3, lo + 1, goal);
      One(cfg, Admitting(k), s, Http(lo, StartUrl("", "")), s1);
      One(cfg, Admitting(k), s1, Http(lo, CheckLen(Done)), s2);
      One(cfg, Admitting(k), s2, Http(lo, Enqueue(Done)), s3);
      Then(cfg, Admitting(k), s2, [Http(lo, Enqueue(Done))], s3, rest, t);
      Then(cfg, Admitting(k), s1, [Http(lo, CheckLen(Done))], s2, [Http(lo, Enqueue(Done))] + rest, t);
      acts := [Http(lo, StartUrl("", ""))] + ([Http(lo, CheckLen(Done))] + ([Http(lo, Enqueue(Done))] + rest));
      Then(cfg, Admitting(k), s, [Http(lo, StartUrl("", ""))], s1, [Http(lo, CheckLen(Done))] + ([Http(lo, Enqueue(Done))] + rest), t);
    }
  }

  // With room for one, `hi` requests enter together, all pass the check, and all add.
  lemma {:induction false} Race(cfg: Config, k: nat, s: State, lo: nat, checked: nat, hi: nat, goal: nat)
    returns (acts: seq<Action>, t: State)
    requires Loaded(s, lo, checked, hi) && hi <= goal <= cfg.queueSize - 1 + k
    requires goal - lo <= k
    requires checked < goal ==> lo == cfg.queueSize - 1
    requires lo == checked || hi == goal == checked || lo == cfg.queueSize - 1
    requires checked == lo || hi == goal
    ensures Run(cfg, Admitting(k), s, acts, t) && Loaded(t, goal, goal, goal)
    decreases goal - hi, goal - checked, goal - lo
  {
    LoadedInside(s, lo, checked, hi);
    if hi < goal {
      var n := Opens(cfg, s, lo, checked, hi);
      var rest;
      rest, t := Race(cfg, k, n, lo, checked, hi + 1, goal);
      One(cfg, Admitting(k), s, Http(hi, StartUrl("", "")), n);
      acts := [Http(hi, StartUrl("", ""))] + rest;
      Then(cfg, Admitting(k), s, [Http(hi, StartUrl("", ""))], n, rest, t);
    } else if checked < goal {
      var n := Passes(cfg, s, lo, checked, hi);
      var rest;
      rest, t := Race(cfg, k, n, lo, checked + 1, hi, goal);
      One(cfg, Admitting(k), s, Http(checked, CheckLen(Done)), n);
      acts := [Http(checked, CheckLen(Done))] + rest;
      Then(cfg, Admitting(k), s, [Http(checked, CheckLen(Done))], n, rest, t);
    } else if lo < goal {
      var n := Adds(cfg, s, lo, checked, hi);
      var rest;
      rest, t := Race(cfg, k, n, lo + 1, checked, hi, goal);
      One(cfg, Admitting(k), s, Http(lo, Enqueue(Done)), n);
      acts := [Http(lo, Enqueue(Done))] + rest;
      Then(cfg, Admitting(k), s, [Http(lo, Enqueue(Done))], n, rest, t);
    } else {
      acts, t := [], s;
    }
  }

  /** The bound is attained: for every cap and every k, k racing requests fill the stream to
      queueSize - 1 + k. */
  lemma BoundAttained(cfg: Config, k: nat) returns (acts: seq<Action>, t: State)
    requires cfg.queueSize >= 1 && k >= 1
    ensures Run(cfg, Admitting(k), START, acts, t) && |t.db.entries| == cfg.queueSize - 1 + k
  {
    var first, s := FillUp(cfg, k, START, 0, cfg.queueSize - 1);
    var n := cfg.queueSize - 1;
    var second;
    second, t := Race(cfg, k, s, n, n, n, n + k);
    acts := first + second;
    Then(cfg, Admitting(k), START, first, s, second, t);
  }

  ghost predicate CapHolds(cfg: Config, k: nat) {
    forall acts, t :: Run(cfg, Admitting(k), START, acts, t) ==> |t.db.entries| <= cfg.queueSize
  }

  /** So the configured cap holds on every run exactly when requests enter one at a time. */
  lemma CapHoldsIffSerial(cfg: Config, k: nat)
    requires cfg.queueSize >= 1 && k >= 1
    ensures CapHolds(cfg, k) <==> k == 1
  {
    if k == 1 {
      forall acts, t | Run(cfg, Admitting(k), START, acts, t)
        ensures |t.db.entries| <= cfg.queueSize
      {
        AdmissionBound(cfg, k, START, acts, t);
      }
    } else if CapHolds(cfg, k) {
      var acts, t := BoundAttained(cfg, k);
    }
  }
}
