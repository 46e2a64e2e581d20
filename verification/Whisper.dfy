/** The upstream client and the retry loop around it. */
module Whisper {
  import opened Wrappers
  import opened Jobs
  import opened Pipeline
  import opened Runs
  import opened ByteGuards

  // How one attempt goes: given up while waiting for the gate, failed in transport or while
  // reading the response, or answered.
  datatype Try = GateCancelled | Transport | BrokenBody | Answer(status: int, body: string)

  // What an attempt carries, and an attempt that got past the gate.
  datatype Payload = Payload(audio: Bytes, language: string)

  datatype Sending = Sending(what: Payload, answer: Try)

  const MAX_ERROR_BODY := 4096

  // A result, an error worth another attempt, or a final one. An error that comes from an answer
  // keeps its status and the head of its body.
  datatype Reported =
    | Good(body: string)
    | Retryable(answered: Option<int>, shown: string)
    | Final(status: int, shown: string)

  function Shown(body: string): (s: string)
    ensures |s| <= MAX_ERROR_BODY && s <= body
    ensures |body| <= MAX_ERROR_BODY ==> s == body
  {
    if |body| > MAX_ERROR_BODY then body[..MAX_ERROR_BODY] else body
  }

  predicate IsTransient(r: Reported) { r.Retryable? }

  // No answer, or the server's own failure.
  predicate AskAgain(t: Try) {
    !t.Answer? || t.status >= 500
  }

  // The outcome of an attempt as the pipeline sees it.
  function OutcomeOf(t: Try): Outcome {
    match t
    case Answer(status, body) =>
      if status == 200 then Body(body) else if status >= 500 then Transient else Permanent
    case _ => Transient
  }

  /** A client and its capacity-one gate. `sent` lists the attempts that got past the gate,
      each with what it carried. */
  class Client {
    var held: bool
    var sent: seq<Sending>

    constructor ()
      ensures !held && sent == []
    {
      held, sent := false, [];
    }

    /** One attempt. Whatever happens after the gate is acquired, it is free again on return; an
        attempt cancelled at the gate never reaches the upstream. Only a 200 is a result; no answer
        and anything from 500 up can be retried; every other status is final. */
    method Transcribe(what: Payload, t: Try) returns (r: Reported)
      requires !held
      modifies this
      ensures !held
      ensures sent == if t.GateCancelled? then old(sent) else old(sent) + [Sending(what, t)]
      ensures r.Good? <==> t.Answer? && t.status == 200
      ensures IsTransient(r) <==> !t.Answer? || t.status >= 500
      ensures r.Good? ==> r.body == t.body
      ensures r.Final? ==> r.status == t.status
      ensures r.Retryable? ==> r.answered == if t.Answer? then Some(t.status) else None
      ensures t.Answer? && !r.Good? ==> r.shown == if |t.body| <= 4096 then t.body else t.body[..4096]
    {
      if t.GateCancelled? {
        r := Retryable(None, "gate wait");
        return;
      }
      held := true;
      sent := sent + [Sending(what, t)];
      if t.Transport? {
        r := Retryable(None, "request");
      } else if t.BrokenBody? {
        r := Retryable(None, "response body");
      } else if t.status == 200 {
        r := Good(t.body);
      } else if t.status >= 500 {
        r := Retryable(Some(t.status), Shown(t.body));
      } else {
        r := Final(t.status, Shown(t.body));
      }
      held := false;
    }
  }

  // The first attempt that is not retryable decides; if there is none the job has failed.
  function Decided(os: seq<Outcome>): Verdict {
    if os == [] then Failure(Exhausted)
    else match os[0]
         case Body(b) => Success(b)
         case Permanent => Failure(Rejected)
         case Transient => Decided(os[1..])
  }

  function Outcomes(ts: seq<Try>): (os: seq<Outcome>)
    ensures |os| == |ts| && forall i :: 0 <= i < |ts| ==> os[i] == OutcomeOf(ts[i])
  {
    if ts == [] then [] else [OutcomeOf(ts[0])] + Outcomes(ts[1..])
  }

  lemma {:induction false} DecidedAt(os: seq<Outcome>, k: nat)
    requires k < |os| && (forall i :: 0 <= i < k ==> os[i].Transient?) && !os[k].Transient?
    ensures Decided(os) == if os[k].Body? then Success(os[k].body) else Failure(Rejected)
    decreases k
  {
    if k > 0 {
      DecidedAt(os[1..], k - 1);
    }
  }

  lemma {:induction false} NeverDecided(os: seq<Outcome>)
    requires forall i :: 0 <= i < |os| ==> os[i].Transient?
    ensures Decided(os) == Failure(Exhausted)
    decreases |os|
  {
    if os != [] {
      NeverDecided(os[1..]);
    }
  }

  /** The machine's outcomes are these statuses: 200 is a body, no answer and 500 up are transient,
      the rest is permanent. */
  lemma OutcomesAreStatuses(t: Try)
    ensures OutcomeOf(t).Body? <==> t.Answer? && t.status == 200
    ensures OutcomeOf(t).Transient? <==> !t.Answer? || t.status >= 500
    ensures OutcomeOf(t).Body? ==> OutcomeOf(t).body == t.body
  {
  }

  // Every one of the first `n` attempts called for another.
  ghost predicate Again(ts: seq<Try>, n: nat)
    requires n <= |ts|
  {
    forall i :: 0 <= i < n ==> AskAgain(ts[i])
  }

  // Every sleep before one of the first `n` attempts ran to its end.
  ghost predicate Awake(wakes: seq<bool>, n: nat)
    requires n <= |wakes|
  {
    forall i :: 1 <= i < n ==> wakes[i]
  }

  // Attempt `k` is the first that does not call for another.
  ghost predicate Decides(ts: seq<Try>, k: nat) {
    k < |ts| && Again(ts, k) && !AskAgain(ts[k])
  }

  lemma AgainMore(ts: seq<Try>, n: nat)
    requires n < |ts| && Again(ts, n) && AskAgain(ts[n])
    ensures Again(ts, n + 1)
  {
  }

  lemma AwakeMore(wakes: seq<bool>, n: nat)
    requires n < |wakes| && Awake(wakes, n) && (n > 0 ==> wakes[n])
    ensures Awake(wakes, n + 1)
  {
  }

  lemma DecidedBy(ts: seq<Try>, k: nat)
    requires Decides(ts, k)
    ensures Decided(Outcomes(ts)) == if ts[k].status == 200 then Success(ts[k].body) else Failure(Rejected)
  {
    DecidedAt(Outcomes(ts), k);
  }

  lemma DecidedByNone(ts: seq<Try>)
    requires Again(ts, |ts|)
    ensures Decided(Outcomes(ts)) == Failure(Exhausted)
  {
    NeverDecided(Outcomes(ts));
  }

  // The backoff before attempts 1..n together.
  function Backed(base: Time, n: nat): Time {
    if n == 0 then 0 else Backed(base, n - 1) + Delay(base, n)
  }

  lemma {:induction false} BackedClosed(base: Time, n: nat)
    ensures Backed(base, n) == base * (Pow2(n) - 1)
  {
    if n > 0 {
      BackedClosed(base, n - 1);
      var p: int := Pow2(n - 1);
      assert base * (p - 1) + base * p == base * (2 * p - 1);
    }
  }

  // What the attempts that got past the gate carried.
  function Passed(what: Payload, ts: seq<Try>): seq<Sending> {
    if ts == [] then []
    else
      var last := ts[|ts| - 1];
      Passed(what, ts[..|ts| - 1]) + (if last.GateCancelled? then [] else [Sending(what, last)])
  }

  lemma PassedMore(what: Payload, ts: seq<Try>, n: nat)
    requires n < |ts|
    ensures Passed(what, ts[..n + 1]) ==
      Passed(what, ts[..n]) + (if ts[n].GateCancelled? then [] else [Sending(what, ts[n])])
  {
    assert ts[..n + 1][..n] == ts[..n];
  }

  /** The retry loop. `tries` is what the upstream would answer to each attempt and `wakes` whether
      the sleep before it runs to its end. The loop goes on exactly while attempts are left, the
      last one calls for another and the sleep before that runs to its end; the last attempt made
      gives the verdict; every attempt that got past the gate carried the same audio and language;
      and for k retries the loop has slept 2^k - 1 times the base delay. */
  method TranscribeWithRetry(c: Client, maxRetries: nat, what: Payload, tries: seq<Try>, wakes: seq<bool>)
    returns (v: Verdict, calls: nat, slept: nat)
    requires !c.held && |tries| == |wakes| == maxRetries + 1
    modifies c
    ensures !c.held && 0 < calls <= maxRetries + 1
    ensures c.sent == old(c.sent) + Passed(what, tries[..calls])
    ensures Again(tries, calls - 1) && Awake(wakes, calls)
    ensures calls <= maxRetries ==> !AskAgain(tries[calls - 1]) || !wakes[calls]
    ensures AskAgain(tries[calls - 1]) ==> v == Failure(if calls <= maxRetries then Cancelled else Exhausted)
    ensures !AskAgain(tries[calls - 1]) ==>
              v == if tries[calls - 1].status == 200 then Success(tries[calls - 1].body) else Failure(Rejected)
    ensures slept == Pow2(calls - 1) - 1
  {
    calls, slept := 0, 0;
    var attempt := 0;
    while attempt <= maxRetries
      invariant 0 <= attempt <= maxRetries + 1 && calls == attempt && !c.held
      invariant c.sent == old(c.sent) + Passed(what, tries[..calls])
      invariant Again(tries, attempt) && Awake(wakes, attempt)
      invariant slept == if attempt == 0 then 0 else Pow2(attempt - 1) - 1
    {
      if attempt > 0 {
        if !wakes[attempt] {
          return Failure(Cancelled), calls, slept;
        }
        slept := slept + Pow2(attempt - 1);
      }
      AwakeMore(wakes, attempt);
      var r := c.Transcribe(what, tries[attempt]);
      calls := calls + 1;
      PassedMore(what, tries, attempt);
      assert c.sent == old(c.sent) + Passed(what, tries[..calls]);
      if !IsTransient(r) {
        v := if r.Good? then Success(r.body) else Failure(Rejected);
        return;
      }
      AgainMore(tries, attempt);
      attempt := attempt + 1;
    }
    v := Failure(Exhausted);
  }

  // The attempts a loop makes that nobody cancels.
  function Used(ts: seq<Try>): seq<Try> {
    if ts == [] then []
    else if AskAgain(ts[0]) then [ts[0]] + Used(ts[1..])
    else [ts[0]]
  }

  /** They end with the first attempt that does not call for another, or are all there are. */
  lemma {:induction false} UsedAre(ts: seq<Try>, k: nat)
    requires k <= |ts| && Again(ts, k) && (k < |ts| ==> !AskAgain(ts[k]))
    ensures Used(ts) == if k < |ts| then ts[..k + 1] else ts
    decreases k
  {
    if k > 0 {
      assert forall i :: 0 <= i < k - 1 ==> ts[1..][i] == ts[i + 1];
      UsedAre(ts[1..], k - 1);
    }
  }

  lemma DecidesOnce(ts: seq<Try>, j: nat, k: nat)
    requires Decides(ts, j) && Decides(ts, k)
    ensures j == k
  {
  }

  // The first attempt that does not call for another gives the verdict.
  ghost predicate Concluded(ts: seq<Try>, v: Verdict) {
    && (forall k: nat :: Decides(ts, k) ==> v == if ts[k].status == 200 then Success(ts[k].body) else Failure(Rejected))
    && (Again(ts, |ts|) ==> v == Failure(Exhausted))
  }

  lemma EndsDecided(ts: seq<Try>, k: nat, v: Verdict)
    requires Decides(ts, k) && v == if ts[k].status == 200 then Success(ts[k].body) else Failure(Rejected)
    ensures Used(ts) == ts[..k + 1] && Concluded(ts, v) && v == Decided(Outcomes(ts))
  {
    UsedAre(ts, k);
    DecidedBy(ts, k);
    forall j: nat | Decides(ts, j)
      ensures j == k
    {
      DecidesOnce(ts, j, k);
    }
  }

  lemma EndsExhausted(ts: seq<Try>)
    requires Again(ts, |ts|)
    ensures Used(ts) == ts && Concluded(ts, Failure(Exhausted)) && Decided(Outcomes(ts)) == Failure(Exhausted)
  {
    UsedAre(ts, |ts|);
    DecidedByNone(ts);
  }

  /** The loop with every sleep running to its end: the first attempt that does not call for another
      decides, and nothing is sent after it. */
  method TranscribeToTheEnd(c: Client, maxRetries: nat, what: Payload, tries: seq<Try>) returns (v: Verdict)
    requires !c.held && |tries| == maxRetries + 1
    modifies c
    ensures !c.held && c.sent == old(c.sent) + Passed(what, Used(tries))
    ensures v == Decided(Outcomes(tries)) && Concluded(tries, v)
  {
    var wakes := seq(maxRetries + 1, _ => true);
    var calls, slept;
    v, calls, slept := TranscribeWithRetry(c, maxRetries, what, tries, wakes);
    if AskAgain(tries[calls - 1]) {
      AgainMore(tries, calls - 1);
      assert calls == |tries| && tries[..calls] == tries;
      EndsExhausted(tries);
    } else {
      EndsDecided(tries, calls - 1, v);
    }
  }

  // The verdict the step machine reaches when its handler gets `os` from attempt `a` on.
  function Followed(maxRetries: nat, a: nat, os: seq<Outcome>): Verdict
    requires a <= maxRetries && |os| == maxRetries + 1 - a
    decreases |os|
  {
    match AfterAttempt(maxRetries, a, os[0])
    case Zeroing(v) => v
    case Backoff(b) => Followed(maxRetries, b, os[1..])
    case _ => Failure(Exhausted)
  }

  /** The handler of the step machine retries exactly as the loop does. */
  lemma {:induction false} MachineRetriesLikeLoop(maxRetries: nat, a: nat, os: seq<Outcome>)
    requires a <= maxRetries && |os| == maxRetries + 1 - a
    ensures Followed(maxRetries, a, os) == Decided(os)
    decreases |os|
  {
    if os[0].Transient? && a < maxRetries {
      MachineRetriesLikeLoop(maxRetries, a + 1, os[1..]);
    }
  }
}
