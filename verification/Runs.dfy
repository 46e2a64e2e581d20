/** Runs of the pipeline, and the assumptions under which some of its promises hold. */
module Runs {
  import opened Wrappers
  import opened Jobs
  import opened Redis
  import opened Pipeline

  /** Any: no assumption. FailStop: once a Redis call of a handler has failed, its later ones never
      reach Redis. Exclusive: no message is claimed while a handler of it is live. Admitting(k): at
      most k requests are inside the enqueue call at once. Timed: timeouts are honoured, the gate
      is served in arrival order, and Redis calls take no time. Smooth: no crash, and every Redis
      call of a handler works. Calm: no requests, no failed Redis calls, no crash and no shutdown. */
  datatype Policy = Any | FailStop | Exclusive | Admitting(k: nat) | Timed | Smooth | Calm

  function ReplyOf(w: Work): Option<Reply> {
    match w
    case Get(r) => Some(r)
    case Mark(r) => Some(r)
    case Complete(r) => Some(r)
    case Fail(r) => Some(r)
    case Ack(r) => Some(r)
    case _ => None
  }

  predicate FailsStop(s: State, a: Action) {
    a.By? && a.who in s.handlers && s.handlers[a.who].down && ReplyOf(a.work).Some?
    ==> ReplyOf(a.work).value.Refused?
  }

  ghost predicate ClaimsIdleOnly(s: State, a: Action) {
    a.Claim? ==> forall c :: c in s.handlers ==> s.handlers[c].mid !in a.mids
  }

  predicate IsInside(r: Request) {
    r.phase.Checking? || r.phase.Adding?
  }

  function Inside(s: State): set<JobId> {
    set id | id in s.requests && IsInside(s.requests[id])
  }

  function Pow2(n: nat): nat {
    if n == 0 then 1 else 2 * Pow2(n - 1)
  }

  // The delay slept before retry `attempt`, which starts at 1.
  function Delay(base: Time, attempt: nat): Time {
    if attempt == 0 then 0 else base * Pow2(attempt - 1)
  }

  // How long a handler may stay where it is; a negative value means as long as it takes.
  function Allowance(cfg: Config, pc: Pc): Time {
    match pc
    case Fetching => cfg.downloadTimeout
    case Calling(_) => cfg.upstreamTimeout
    case Backoff(attempt) => Delay(cfg.retryBase, attempt)
    case Waiting(_) => -1
    case _ => 0
  }

  ghost predicate InTime(cfg: Config, s: State, a: Action) {
    match a
    case Tick(delta) =>
      delta > 0 ==>
        && (s.waiting != [] ==> s.gate.Some?)
        && forall c :: c in s.handlers && !s.handlers[c].pc.Waiting? ==>
             s.now + delta - s.handlers[c].since <= Allowance(cfg, s.handlers[c].pc)
    case By(c, w) => w.Acquire? ==> s.waiting != [] && s.waiting[0] == c
    case _ => true
  }

  predicate CalmAction(a: Action) {
    match a
    case Tick(_) => true
    case Read(_, _, reply) => reply.Done?
    case Claim(_, reply) => reply.Done?
    case Begin => true
    case By(_, w) => ReplyOf(w).Some? ==> ReplyOf(w).value.Done?
    case _ => false
  }

  predicate SmoothAction(a: Action) {
    match a
    case Crash => false
    case By(_, w) => ReplyOf(w).Some? ==> ReplyOf(w).value.Done?
    case _ => true
  }

  ghost predicate Allows(cfg: Config, p: Policy, s: State, a: Action) {
    match p
    case Any => true
    case FailStop => FailsStop(s, a)
    case Exclusive => ClaimsIdleOnly(s, a)
    case Admitting(k) => |Inside(s)| <= k
    case Timed => InTime(cfg, s, a)
    case Smooth => SmoothAction(a)
    case Calm => CalmAction(a)
  }

  /** The actions `acts`, taken in order from `s`, all happen, all respect `p`, and end in `t`. */
  ghost predicate Run(cfg: Config, p: Policy, s: State, acts: seq<Action>, t: State)
    decreases |acts|
  {
    if acts == [] then s == t
    else
      && Allows(cfg, p, s, acts[0])
      && Next(cfg, s, acts[0]).Some?
      && Run(cfg, p, Next(cfg, s, acts[0]).value, acts[1..], t)
  }

  // Any run is a run without assumptions.
  lemma {:induction false} RunIsAny(cfg: Config, p: Policy, s: State, acts: seq<Action>, t: State)
    requires Run(cfg, p, s, acts, t)
    ensures Run(cfg, Any, s, acts, t)
    decreases |acts|
  {
    if acts != [] {
      RunIsAny(cfg, p, Next(cfg, s, acts[0]).value, acts[1..], t);
    }
  }

  lemma {:induction false} Then(cfg: Config, p: Policy, s: State, first: seq<Action>, t: State, second: seq<Action>, u: State)
    requires Run(cfg, p, s, first, t) && Run(cfg, p, t, second, u)
    ensures Run(cfg, p, s, first + second, u)
    decreases |first|
  {
    if first == [] {
      assert first + second == second;
    } else {
      var all := first + second;
      assert all[0] == first[0] && all[1..] == first[1..] + second;
      var n := Next(cfg, s, first[0]);
      Then(cfg, p, n.value, first[1..], t, second, u);
    }
  }

  lemma One(cfg: Config, p: Policy, s: State, a: Action, t: State)
    requires Allows(cfg, p, s, a) && Next(cfg, s, a) == Some(t)
    ensures Run(cfg, p, s, [a], t)
  {
    assert [a][1..] == [];
  }

  lemma Extend(cfg: Config, p: Policy, s: State, acts: seq<Action>, t: State, a: Action, u: State)
    requires Run(cfg, p, s, acts, t) && Allows(cfg, p, t, a) && Next(cfg, t, a) == Some(u)
    ensures Run(cfg, p, s, acts + [a], u)
  {
    One(cfg, p, t, a, u);
    Then(cfg, p, s, acts, t, [a], u);
  }
}
