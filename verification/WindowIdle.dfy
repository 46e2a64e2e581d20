/** The worker's loop around the window: how long it idles, and what it does when it wakes. */
module WindowIdle {
  import opened Wrappers
  import opened Jobs
  import opened Redis
  import opened Window

  // The longest single nap while the window is closed.
  const POLL: int := MINUTE

  function WindowSleep(w: Window, now: int): int {
    var d := NextOpen(w, now);
    if d <= 0 || d > POLL then POLL else d
  }

  lemma NextOpenLater(w: Window, t: int, e: int)
    requires Valid(w) && 0 <= e <= NextOpen(w, t)
    ensures NextOpen(w, t + e) == NextOpen(w, t) - e
  {
    NextOpenIsLeast(w, t);
    NextOpenIsUnique(w, t + e, NextOpen(w, t) - e);
  }

  // How many naps of at most POLL cover `d`.
  function Naps(d: int): int {
    (d + POLL - 1) / POLL
  }

  /** With one clock and exact timers, a worker that finds the window closed naps until exactly the
      opening edge, in as few naps as the cap allows, and never sleeps through an open instant. */
  method IdleUntilOpen(w: Window, from: int) returns (now: int, naps: int)
    requires Valid(w)
    ensures now == from + NextOpen(w, from) && IsOpen(w, now)
    ensures naps == Naps(NextOpen(w, from))
    ensures forall u :: from <= u < now ==> !IsOpen(w, u)
  {
    now, naps := from, 0;
    ghost var wait := NextOpen(w, from);
    NextOpenIsLeast(w, from);
    while !IsOpen(w, now)
      invariant from <= now <= from + wait
      invariant NextOpen(w, now) == from + wait - now
      invariant naps >= 0
      invariant now < from + wait ==> now == from + naps * POLL
      invariant now == from + wait ==> naps == Naps(wait)
      decreases NextOpen(w, now)
    {
      NextOpenIsLeast(w, now);
      var d := WindowSleep(w, now);
      NextOpenLater(w, now, d);
      now := now + d;
      naps := naps + 1;
    }
    NextOpenIsLeast(w, now);
  }

  /** The clock may have moved, either way, from `looked`, when the window was found closed, to
      `now`, when the nap is sized: the worker wakes at most POLL after `now`; a nap that starts in
      a closed stretch never sleeps through an open instant; and as long as the opening edge after
      `looked` has not come, the nap does not pass it. */
  lemma NapAfterDrift(w: Window, looked: int, now: int)
    requires Valid(w) && !IsOpen(w, looked)
    ensures now < now + WindowSleep(w, now) <= now + POLL
    ensures forall u :: now <= u < now + WindowSleep(w, now) && IsOpen(w, u) ==> IsOpen(w, now)
    ensures looked <= now < looked + NextOpen(w, looked) ==>
              now + WindowSleep(w, now) <= looked + NextOpen(w, looked)
  {
    NextOpenIsLeast(w, now);
    if looked <= now < looked + NextOpen(w, looked) {
      NextOpenLater(w, looked, now - looked);
    }
  }

  datatype Event = Pausing | Resuming | Napped(d: int) | ReadAt(looked: int)

  function OpenLooks(w: Window, looks: seq<int>): seq<int> {
    if looks == [] then []
    else
      var before := OpenLooks(w, looks[..|looks| - 1]);
      var t := looks[|looks| - 1];
      if IsOpen(w, t) then before + [t] else before
  }

  lemma OpenLooksGrow(w: Window, looks: seq<int>, i: nat)
    requires i < |looks|
    ensures OpenLooks(w, looks[..i + 1]) == OpenLooks(w, looks[..i]) + (if IsOpen(w, looks[i]) then [looks[i]] else [])
  {
    assert looks[..i + 1][..i] == looks[..i];
  }

  function ReadLooks(log: seq<Event>): seq<int> {
    if log == [] then []
    else ReadLooks(log[..|log| - 1]) + (if log[|log| - 1].ReadAt? then [log[|log| - 1].looked] else [])
  }

  // The log without its pausing and resuming lines.
  function Doings(log: seq<Event>): seq<Event> {
    if log == [] then []
    else
      var e := log[|log| - 1];
      Doings(log[..|log| - 1]) + (if e.Pausing? || e.Resuming? then [] else [e])
  }

  function Act(w: Window, look: int, nap: int): Event {
    if IsOpen(w, look) then ReadAt(look) else Napped(WindowSleep(w, nap))
  }

  // One read or one nap for each reading of the clock, in order.
  function Acts(w: Window, looks: seq<int>, naps: seq<int>): seq<Event>
    requires |looks| <= |naps|
  {
    if looks == [] then []
    else var n := |looks| - 1; Acts(w, looks[..n], naps) + [Act(w, looks[n], naps[n])]
  }

  lemma {:induction false} ActsAre(w: Window, looks: seq<int>, naps: seq<int>)
    requires |looks| <= |naps|
    ensures |Acts(w, looks, naps)| == |looks|
    ensures forall i :: 0 <= i < |looks| ==>
              Acts(w, looks, naps)[i] == if IsOpen(w, looks[i]) then ReadAt(looks[i]) else Napped(WindowSleep(w, naps[i]))
    decreases |looks|
  {
    if looks != [] {
      ActsAre(w, looks[..|looks| - 1], naps);
    }
  }

  lemma ActsGrow(w: Window, looks: seq<int>, naps: seq<int>, i: nat)
    requires i < |looks| <= |naps|
    ensures Acts(w, looks[..i + 1], naps) == Acts(w, looks[..i], naps) + [Act(w, looks[i], naps[i])]
  {
    assert looks[..i + 1][..i] == looks[..i];
  }

  // Whether the last pausing or resuming line of the log says "paused".
  function Paused(log: seq<Event>): bool {
    if log == [] then false
    else if log[|log| - 1].Pausing? then true
    else if log[|log| - 1].Resuming? then false
    else Paused(log[..|log| - 1])
  }

  // Reads and pauses happen only while resumed, naps and resumptions only while paused.
  predicate Fits(paused: bool, e: Event) {
    paused == (e.Resuming? || e.Napped?)
  }

  // Pausing and resuming lines alternate, starting with a pause.
  ghost predicate Alternates(log: seq<Event>) {
    forall i :: 0 <= i < |log| ==> Fits(Paused(log[..i]), log[i])
  }

  lemma LogGrows(log: seq<Event>, e: Event)
    requires Alternates(log) && Fits(Paused(log), e)
    ensures Alternates(log + [e])
    ensures ReadLooks(log + [e]) == ReadLooks(log) + (if e.ReadAt? then [e.looked] else [])
    ensures Paused(log + [e]) == if e.Pausing? then true else if e.Resuming? then false else Paused(log)
    ensures Doings(log + [e]) == Doings(log) + (if e.Pausing? || e.Resuming? then [] else [e])
  {
    var all := log + [e];
    assert all[..|log|] == log;
    forall i | 0 <= i < |all|
      ensures Fits(Paused(all[..i]), all[i])
    {
      if i < |log| {
        assert all[..i] == log[..i];
      }
    }
  }

  // The log of a worker that has gone through `looks`.
  ghost predicate Logged(w: Window, looks: seq<int>, naps: seq<int>, log: seq<Event>)
    requires |looks| <= |naps|
  {
    && ReadLooks(log) == OpenLooks(w, looks) && Doings(log) == Acts(w, looks, naps)
    && Alternates(log)
    && (if looks == [] then !Paused(log) else Paused(log) <==> !IsOpen(w, looks[|looks| - 1]))
  }

  lemma LogNap(w: Window, looks: seq<int>, naps: seq<int>, i: nat, log: seq<Event>)
    requires i < |looks| <= |naps| && Logged(w, looks[..i], naps, log) && !IsOpen(w, looks[i])
    ensures var more := (if Paused(log) then log else log + [Pausing]) + [Napped(WindowSleep(w, naps[i]))];
            Logged(w, looks[..i + 1], naps, more) && Paused(more)
  {
    OpenLooksGrow(w, looks, i);
    ActsGrow(w, looks, naps, i);
    var was := if Paused(log) then log else log + [Pausing];
    if !Paused(log) {
      LogGrows(log, Pausing);
    }
    assert ReadLooks(was) == ReadLooks(log) && Doings(was) == Doings(log) && Alternates(was) && Paused(was);
    LogGrows(was, Napped(WindowSleep(w, naps[i])));
    assert looks[..i + 1] != [];
  }

  lemma LogRead(w: Window, looks: seq<int>, naps: seq<int>, i: nat, log: seq<Event>)
    requires i < |looks| <= |naps| && Logged(w, looks[..i], naps, log) && IsOpen(w, looks[i])
    ensures var more := (if Paused(log) then log + [Resuming] else log) + [ReadAt(looks[i])];
            Logged(w, looks[..i + 1], naps, more) && !Paused(more)
  {
    OpenLooksGrow(w, looks, i);
    ActsGrow(w, looks, naps, i);
    var was := if Paused(log) then log + [Resuming] else log;
    if Paused(log) {
      LogGrows(log, Resuming);
    }
    assert ReadLooks(was) == ReadLooks(log) && Doings(was) == Doings(log) && Alternates(was) && !Paused(was);
    LogGrows(was, ReadAt(looks[i]));
    assert looks[..i + 1] != [];
  }

  /** The loop of one worker over the clock readings it happens to make, `looks` for the check and
      `naps` for the nap: for every reading, in order, it reads from the queue once if the window was
      open and naps once if not, and it logs pausing and resuming only on a change. */
  method Consume(w: Window, looks: seq<int>, naps: seq<int>) returns (log: seq<Event>)
    requires |naps| == |looks|
    ensures ReadLooks(log) == OpenLooks(w, looks)
    ensures |Doings(log)| == |looks| && Alternates(log)
    ensures forall i :: 0 <= i < |looks| ==>
              Doings(log)[i] == if IsOpen(w, looks[i]) then ReadAt(looks[i]) else Napped(WindowSleep(w, naps[i]))
    ensures looks != [] ==> (Paused(log) <==> !IsOpen(w, looks[|looks| - 1]))
  {
    log := [];
    var closed := false;
    var i := 0;
    while i < |looks|
      invariant 0 <= i <= |looks|
      invariant Logged(w, looks[..i], naps, log) && closed == Paused(log)
    {
      if !IsOpen(w, looks[i]) {
        LogNap(w, looks, naps, i, log);
        if !closed {
          log := log + [Pausing];
          closed := true;
        }
        log := log + [Napped(WindowSleep(w, naps[i]))];
        i := i + 1;
        continue;
      }
      LogRead(w, looks, naps, i, log);
      if closed {
        log := log + [Resuming];
        closed := false;
      }
      log := log + [ReadAt(looks[i])];
      i := i + 1;
    }
    assert looks[..|looks|] == looks;
    ActsAre(w, looks, naps);
  }

  /** The claimer's loop over the clock readings its ticks make: it claims for every reading at which
      the window was open, and for no other. */
  method ClaimTicks(w: Window, looks: seq<int>) returns (claims: seq<int>)
    ensures claims == OpenLooks(w, looks)
  {
    claims := [];
    var i := 0;
    while i < |looks|
      invariant 0 <= i <= |looks| && claims == OpenLooks(w, looks[..i])
    {
      OpenLooksGrow(w, looks, i);
      if !IsOpen(w, looks[i]) {
        i := i + 1;
        continue;
      }
      claims := claims + [looks[i]];
      i := i + 1;
    }
    assert looks[..|looks|] == looks;
  }

  /** What OpenLooks keeps: the readings at which the window was open, each one, in order. */
  lemma {:induction false} OpenLooksAreOpen(w: Window, looks: seq<int>)
    ensures forall t :: t in OpenLooks(w, looks) <==> t in looks && IsOpen(w, t)
    ensures multiset(OpenLooks(w, looks)) <= multiset(looks)
    decreases |looks|
  {
    if looks != [] {
      var less := looks[..|looks| - 1];
      OpenLooksAreOpen(w, less);
      assert looks == less + [looks[|looks| - 1]];
    }
  }

  // A job enqueued at `t` and left alone until the window opens.
  function AtOpening(w: Window, db: Db, id: JobId, rec: Record, t: Time, ttl: int): Db {
    Advance(EnqueueTx(db, id, rec, t, ttl), t + NextOpen(w, t))
  }

  ghost predicate SurvivesTheNight(w: Window, ttl: int) {
    forall db, id, rec, t :: id in AtOpening(w, db, id, rec, t, ttl).jobs
  }

  /** The record of a queued job is still there when the window opens, whenever the job was
      enqueued, exactly when the time to live is longer than the closed part of the day. */
  lemma SurvivesIffTtlIsLonger(w: Window, ttl: int)
    requires Valid(w)
    ensures SurvivesTheNight(w, ttl) <==> ttl > ClosedLength(w)
  {
    if ttl > ClosedLength(w) {
      forall db, id, rec, t
        ensures id in AtOpening(w, db, id, rec, t, ttl).jobs
      {
        LongestWait(w, t);
        NextOpenIsLeast(w, t);
      }
    } else {
      var t := ClosingEdge(w);
      LongestWait(w, t);
      assert 0 !in AtOpening(w, EMPTY, 0, BLANK, t, ttl).jobs;
    }
  }
}
