/** The worker's `handle` as the program writes it, on the mutable store, audio store and client,
    proved to be a run of the step machine: the steps come in the machine's order and do to Redis
    and to the audio store what the machine says. */
module Pool {
  import opened Wrappers
  import opened Jobs
  import opened Redis
  import opened Pipeline
  import opened Runs
  import opened Whisper
  import opened Accounting
  import opened Handling
  import RedisStore
  import AudioStore
  import opened ByteGuards

  ghost predicate AllBy(c: Consumer, acts: seq<Action>) {
    forall i :: 0 <= i < |acts| ==> acts[i].By? && acts[i].who == c
  }

  // `now` continues `was` with steps of `c` alone.
  ghost predicate Continues(c: Consumer, was: seq<Action>, now: seq<Action>) {
    |was| <= |now| && now[..|was|] == was && AllBy(c, now[|was|..])
  }

  lemma ContinuesMore(c: Consumer, was: seq<Action>, now: seq<Action>, more: seq<Action>)
    requires Continues(c, was, now) && AllBy(c, more)
    ensures Continues(c, was, now + more)
  {
    assert (now + more)[|was|..] == now[|was|..] + more;
    assert (now + more)[..|was|] == was;
  }

  lemma ContinuesTwice(c: Consumer, a: seq<Action>, b: seq<Action>, d: seq<Action>)
    requires Continues(c, a, b) && Continues(c, b, d)
    ensures Continues(c, a, d)
  {
    assert d == b + d[|b|..];
    ContinuesMore(c, a, b, d[|b|..]);
  }

  // One attempt of a handler alone at the gate.
  lemma AttemptRuns(cfg: Config, s: State, c: Consumer, a: nat, o: Outcome) returns (acts: seq<Action>)
    requires c in s.handlers && s.handlers[c].pc == Waiting(a) && s.gate.None? && s.waiting == [c]
    ensures var t := Move(s.(waiting := []), c, AfterAttempt(cfg.maxRetries, a, o));
            Run(cfg, Any, s, acts, t) && AllBy(c, acts)
  {
    var s1 := Move(s, c, Calling(a)).(gate := Some(c), waiting := []);
    assert Without([c], c) == [];
    assert Next(cfg, s, By(c, Acquire)) == Some(s1);
    var s2 := Move(s1, c, AfterAttempt(cfg.maxRetries, a, o)).(gate := None);
    assert s2 == Move(s.(waiting := []), c, AfterAttempt(cfg.maxRetries, a, o));
    assert Next(cfg, s1, By(c, Upstream(o))) == Some(s2);
    One(cfg, Any, s, By(c, Acquire), s1);
    Extend(cfg, Any, s, [By(c, Acquire)], s1, By(c, Upstream(o)), s2);
    acts := [By(c, Acquire)] + [By(c, Upstream(o))];
  }

  lemma WakeRuns(cfg: Config, s: State, c: Consumer, a: nat)
    requires c in s.handlers && s.handlers[c].pc == Backoff(a)
    ensures Next(cfg, s, By(c, Wake)) == Some(Queue(s, c, s.handlers[c], a))
  {
  }

  // A handler alone at the gate goes through its attempts to the verdict the retry loop reaches.
  lemma {:induction false} AttemptsRun(cfg: Config, s: State, c: Consumer, a: nat, os: seq<Outcome>)
    returns (acts: seq<Action>, t: State)
    requires c in s.handlers && s.handlers[c].pc == Waiting(a) && s.gate.None? && s.waiting == [c]
    requires a <= cfg.maxRetries && |os| == cfg.maxRetries + 1 - a
    ensures Run(cfg, Any, s, acts, t) && AllBy(c, acts)
    ensures t == Move(s.(waiting := []), c, Zeroing(Decided(os)))
    decreases |os|
  {
    acts := AttemptRuns(cfg, s, c, a, os[0]);
    t := Move(s.(waiting := []), c, AfterAttempt(cfg.maxRetries, a, os[0]));
    if os[0].Transient? && a < cfg.maxRetries {
      var u := Queue(t, c, t.handlers[c], a + 1);
      WakeRuns(cfg, t, c, a + 1);
      Extend(cfg, Any, s, acts, t, By(c, Wake), u);
      var rest;
      rest, t := AttemptsRun(cfg, u, c, a + 1, os[1..]);
      Then(cfg, Any, s, acts + [By(c, Wake)], u, rest, t);
      acts := acts + [By(c, Wake)] + rest;
      assert t.handlers == s.handlers[c := t.handlers[c]];
    } else {
      assert Decided(os[1..]) == Failure(Exhausted) || !os[0].Transient?;
    }
  }

  // The write of the outcome and the ack, as two steps of the machine.
  function PersistStep(cfg: Config, s: State, c: Consumer, v: Verdict, write: Reply, ack: Reply): State
    requires c in s.handlers
  {
    AckStep(WriteStep(cfg, s, c, PatchFor(v, s.now), Acking, write), c, ack)
  }

  // The attempts, the clearing of the audio, and what PersistStep does.
  function DeliverStep(cfg: Config, s: State, c: Consumer, v: Verdict, write: Reply, ack: Reply): State
    requires c in s.handlers
  {
    PersistStep(cfg, Emptied(Move(s.(waiting := []), c, Zeroing(v)), c, AfterZeroing(v)), c, v, write, ack)
  }

  // Nobody is at the gate.
  ghost predicate Idle(s: State) {
    s.gate.None? && s.waiting == []
  }

  // The handler has acknowledged its message, holds no clip, and has left the gate alone.
  ghost predicate Acknowledged(s: State, c: Consumer, m: Message) {
    && c in s.handlers && s.handlers[c].pc.Dropping? && s.handlers[c].held.None?
    && s.handlers[c].mid == m.mid && s.handlers[c].id == m.id
    && Idle(s)
  }

  ghost predicate SameCrew(s: State, t: State) {
    t.inFlight == s.inFlight && t.handlers.Keys == s.handlers.Keys && t.now == s.now
    && t.audio == s.audio && t.stopping == s.stopping && t.batch == s.batch
  }

  lemma PersistFacts(cfg: Config, s: State, c: Consumer, m: Message, v: Verdict, write: Reply, ack: Reply)
    requires c in s.handlers && s.handlers[c].held.None? && Idle(s)
    requires s.handlers[c].mid == m.mid && s.handlers[c].id == m.id
    ensures var t := PersistStep(cfg, s, c, v, write, ack);
            Acknowledged(t, c, m) && SameCrew(s, t) && t.db == Persisted(s.db, m, v, write, ack, s.now, cfg.jobTTL)
  {
  }

  lemma DeliverFacts(cfg: Config, s: State, c: Consumer, m: Message, v: Verdict, write: Reply, ack: Reply)
    requires c in s.handlers && s.gate.None? && s.handlers[c].mid == m.mid && s.handlers[c].id == m.id
    ensures var t := DeliverStep(cfg, s, c, v, write, ack);
            Acknowledged(t, c, m) && SameCrew(s, t) && t.db == Persisted(s.db, m, v, write, ack, s.now, cfg.jobTTL)
  {
    var s1 := Emptied(Move(s.(waiting := []), c, Zeroing(v)), c, AfterZeroing(v));
    assert s1.handlers.Keys == s.handlers.Keys;
    PersistFacts(cfg, s1, c, m, v, write, ack);
  }

  // A handler standing at `pc` with nothing in hand.
  ghost predicate Placed(s: State, c: Consumer, m: Message, pc: Pc) {
    && c in s.handlers && s.handlers[c].pc == pc && s.handlers[c].held.None?
    && s.handlers[c].mid == m.mid && s.handlers[c].id == m.id
  }

  // Besides, nobody is at the gate.
  ghost predicate Standing(s: State, c: Consumer, m: Message, pc: Pc) {
    Placed(s, c, m, pc) && Idle(s)
  }

  lemma MarkFacts(cfg: Config, s: State, c: Consumer, m: Message, mark: Reply)
    requires Standing(s, c, m, Marking)
    ensures var t := WriteStep(cfg, s, c, PROCESSING_PATCH, Fetching, mark);
            && Standing(t, c, m, Fetching) && SameCrew(s, t) && t.handlers[c].source == s.handlers[c].source
            && t.db == Written(s.db, m.id, PROCESSING_PATCH, s.now, cfg.jobTTL, mark)
  {
  }

  // The audio is in hand and the handler queues at the gate, or the fetch has failed.
  ghost predicate Fetched(s: State, c: Consumer, m: Message) {
    && c in s.handlers && s.handlers[c].mid == m.mid && s.handlers[c].id == m.id && s.gate.None?
    && if s.handlers[c].pc.Failing? then Standing(s, c, m, s.handlers[c].pc)
       else s.handlers[c].pc == Waiting(0) && s.waiting == [c]
  }

  // What InStep looks at, apart from the audio store.
  ghost predicate SameOutside(s: State, t: State) {
    t.db == s.db && t.now == s.now && t.stopping == s.stopping
  }

  lemma TakeOutside(s: State, c: Consumer)
    requires c in s.handlers
    ensures SameOutside(s, TakeStep(s, c)) && TakeStep(s, c).audio == s.audio - {s.handlers[c].id}
  {
  }

  lemma FetchOutside(s: State, c: Consumer, downloaded: bool)
    requires c in s.handlers
    ensures var t := FetchStep(s, c, downloaded);
            SameOutside(s, t) && t.audio == if s.handlers[c].source == Some(Upload) then s.audio - {s.handlers[c].id} else s.audio
  {
    TakeOutside(s, c);
  }

  lemma TranscribedOutside(s: State, c: Consumer, v: Verdict)
    requires c in s.handlers
    ensures var t := Emptied(Move(s.(waiting := []), c, Zeroing(v)), c, AfterZeroing(v));
            SameOutside(s, t) && t.audio == s.audio
  {
  }

  lemma TakeFacts(s: State, c: Consumer, m: Message)
    requires Standing(s, c, m, Fetching)
    ensures Fetched(TakeStep(s, c), c, m)
  {
  }

  lemma FetchFacts(s: State, c: Consumer, m: Message, downloaded: bool)
    requires Standing(s, c, m, Fetching)
    ensures Fetched(FetchStep(s, c, downloaded), c, m)
  {
    TakeFacts(s, c, m);
  }

  lemma TakeCrew(s: State, c: Consumer)
    requires c in s.handlers
    ensures var t := TakeStep(s, c);
            t.handlers.Keys == s.handlers.Keys && t.inFlight == s.inFlight && t.batch == s.batch
  {
  }

  lemma FetchCrew(s: State, c: Consumer, downloaded: bool)
    requires c in s.handlers
    ensures var t := FetchStep(s, c, downloaded);
            t.handlers.Keys == s.handlers.Keys && t.inFlight == s.inFlight && t.batch == s.batch
  {
    TakeCrew(s, c);
  }

  lemma FailIsPersist(cfg: Config, s: State, c: Consumer, cause: Cause, write: Reply, ack: Reply)
    requires c in s.handlers
    ensures AckStep(WriteStep(cfg, s, c, FailedPatch(cause, s.now), Acking, write), c, ack)
            == PersistStep(cfg, s, c, Failure(cause), write, ack)
  {
  }

  // The deferred Drop and the wiping of what it found.
  function Dropped(s: State, c: Consumer): State
    requires c in s.handlers
  {
    var t := DropStep(s, c);
    if s.handlers[c].id in s.audio then Emptied(t, c, Leaving) else t
  }

  // The end of the handler.
  function Gone(s: State, c: Consumer): State {
    s.(handlers := s.handlers - {c}, inFlight := s.inFlight - 1)
  }

  function LeaveStep(s: State, c: Consumer): State
    requires c in s.handlers
  {
    Gone(Dropped(s, c), c)
  }

  lemma DropFacts(cfg: Config, s: State, c: Consumer)
    requires c in s.handlers && s.handlers[c].pc.Dropping?
    ensures var t := DropStep(s, c);
            && WorkStep(cfg, s, c, Drop) == Some(t) && c in t.handlers
            && t.handlers[c].pc == if s.handlers[c].id in s.audio then Wiping else Leaving
  {
  }

  lemma DroppedFacts(cfg: Config, s: State, c: Consumer)
    requires c in s.handlers
    ensures var t := Dropped(s, c); c in t.handlers && t.handlers[c].pc == Leaving
  {
  }

  lemma WipeIs(cfg: Config, s: State, c: Consumer)
    requires c in s.handlers && s.handlers[c].pc.Wiping?
    ensures WorkStep(cfg, s, c, Wipe) == Some(Emptied(s, c, Leaving))
  {
  }

  lemma LeaveIs(cfg: Config, s: State, c: Consumer)
    requires c in s.handlers && s.handlers[c].pc.Leaving?
    ensures WorkStep(cfg, s, c, Leave) == Some(Gone(s, c))
  {
  }

  lemma DroppedCrew(s: State, c: Consumer)
    requires c in s.handlers
    ensures var t := Dropped(s, c); t.handlers.Keys == s.handlers.Keys && t.inFlight == s.inFlight
  {
  }

  lemma DroppedStore(s: State, c: Consumer)
    requires c in s.handlers
    ensures var t := Dropped(s, c);
            t.db == s.db && t.now == s.now && t.audio.Keys == s.audio.Keys - {s.handlers[c].id}
  {
  }

  lemma LeaveFacts(s: State, c: Consumer, m: Message)
    requires Acknowledged(s, c, m)
    ensures var t := LeaveStep(s, c);
            && t.handlers.Keys == s.handlers.Keys - {c} && t.inFlight == s.inFlight - 1
            && t.db == s.db && t.now == s.now && t.audio.Keys == s.audio.Keys - {m.id}
  {
    DroppedCrew(s, c);
    DroppedStore(s, c);
  }

  lemma LeaveLeaves(s: State, c: Consumer)
    requires c in s.handlers && Idle(s)
    ensures var t := LeaveStep(s, c); Idle(t) && t.stopping == s.stopping && t.batch == s.batch
  {
  }

  lemma GetFacts(cfg: Config, s: State, c: Consumer, m: Message, reply: Reply)
    requires Standing(s, c, m, Getting)
    ensures var t := GetStep(s, c, reply);
            && SameCrew(s, t) && t.db == s.db
            && (if reply.Done? && m.id in s.db.jobs && !Ended(s.db.jobs[m.id].rec)
                then Standing(t, c, m, Marking) && t.handlers[c].source == s.db.jobs[m.id].rec.source
                else Standing(t, c, m, Acking))
  {
  }

  lemma AckFacts(s: State, c: Consumer, m: Message, reply: Reply)
    requires Standing(s, c, m, Acking)
    ensures var t := AckStep(s, c, reply);
            Acknowledged(t, c, m) && SameCrew(s, t) && t.db == Acked(s.db, m.mid, reply)
  {
  }

  lemma Removed<K, V>(now: map<K, V>, was: map<K, V>, k: K)
    requires now == was || now == was - {k}
    ensures now - {k} == was - {k}
    ensures k in now ==> k in was && now[k] == was[k]
  {
  }

  // The handler `c` of message `m` has just started.
  ghost predicate Arrived(s: State, c: Consumer, m: Message, t: State) {
    && Placed(t, c, m, Getting) && t.handlers.Keys == s.handlers.Keys + {c} && t.inFlight == s.inFlight + 1
    && t.now == s.now && t.audio == s.audio && t.stopping == s.stopping && t.gate == s.gate && t.waiting == s.waiting
  }

  lemma Reads(cfg: Config, s: State, w: nat, mid: MsgId, reply: Reply) returns (t: State)
    requires w < cfg.concurrency && Worker(w) !in s.handlers && Applied(reply) && IsNext(s.db, mid) && !s.stopping
    ensures Next(cfg, s, Read(w, mid, reply)) == Some(t) && t.db == ReadTx(s.db, mid, Worker(w), s.now)
    ensures if reply.Done? then Arrived(s, Worker(w), Message(mid, s.db.entries[mid]), t) && t.batch == s.batch
            else t == s.(db := t.db, past := t.past)
  {
    t := Next(cfg, s, Read(w, mid, reply)).value;
  }

  lemma Claims(cfg: Config, s: State, ms: seq<MsgId>, reply: Reply) returns (t: State)
    requires Claimer !in s.handlers && s.batch == [] && ms != [] && Applied(reply) && !s.stopping
    requires Claimable(s.db, ms, s.now, cfg.claimMinIdle, cfg.claimCount)
    ensures Next(cfg, s, Claim(ms, reply)) == Some(t) && t.db == ClaimTx(s.db, ms, Claimer, s.now)
    ensures t == s.(db := t.db, batch := t.batch)
    ensures if reply.Done? then |t.batch| == |ms| && forall i :: 0 <= i < |ms| ==> t.batch[i] == Message(ms[i], s.db.entries[ms[i]])
            else t.batch == []
  {
    t := Next(cfg, s, Claim(ms, reply)).value;
  }

  lemma Begins(cfg: Config, s: State) returns (t: State)
    requires Claimer !in s.handlers && s.batch != []
    ensures Next(cfg, s, Begin) == Some(t) && Arrived(s, Claimer, s.batch[0], t)
    ensures t.db == s.db && t.batch == s.batch[1..]
  {
    t := Next(cfg, s, Begin).value;
  }

  // The messages are those of the entries, in order.
  ghost predicate Names(db: Db, mids: seq<MsgId>, ms: seq<Message>) {
    |ms| <= |mids| && forall i :: 0 <= i < |ms| ==> mids[i] in db.entries && ms[i] == Message(mids[i], db.entries[mids[i]])
  }

  /** In a reachable state every claimed message is the only one of its job. */
  lemma ClaimedAreAlone(db: Db, past: History, mids: seq<MsgId>, ms: seq<Message>, i: nat)
    requires StreamOk(db, past) && Ascending(mids) && Names(db, mids, ms) && i < |ms|
    ensures Handling.Alone(ms, i)
  {
    forall j | 0 <= j < |ms| && j != i
      ensures ms[j].id != ms[i].id
    {
      assert past.sent[ms[j].id] == mids[j] && past.sent[ms[i].id] == mids[i] && mids[j] != mids[i];
    }
  }

  lemma NamesAre(db: Db, mids: seq<MsgId>, ms: seq<Message>)
    requires |ms| == |mids| && forall m :: m in mids ==> m in db.entries
    requires forall i :: 0 <= i < |ms| ==> mids[i] in db.entries && ms[i] == Message(mids[i], db.entries[mids[i]])
    ensures Names(db, mids, ms)
  {
  }

  lemma WithoutAt<K, V>(now: map<K, V>, was: map<K, V>, k: K, j: K)
    requires now == was - {k} && j in now
    ensures j != k && j in was && now[j] == was[j]
  {
  }

  lemma SameBut<K, V>(now: map<K, V>, was: map<K, V>, k: K)
    requires now.Keys == was.Keys - {k} && forall j :: j in now ==> now[j] == was[j]
    ensures now == was - {k}
  {
  }

  ghost function BytesOf(data: array?<byte>): Bytes
    reads data
  {
    if data == null then [] else data[..]
  }

  // The bytes in hand, if any.
  ghost function InHand(clip: AudioStore.Clip?): Option<Bytes>
    reads clip, if clip == null then null else clip.data
  {
    if clip == null then None else Some(BytesOf(clip.data))
  }

  class Pool {
    const cfg: Config
    const store: RedisStore.Store
    const audio: AudioStore.Store
    const whisper: Client
    const language: string
    var inFlight: int
    // The step machine run alongside: where it started, what it did, where it is.
    ghost var origin: State
    ghost var acts: seq<Action>
    ghost var s: State

    constructor (cfg: Config, store: RedisStore.Store, audio: AudioStore.Store, whisper: Client, language: string, ghost s: State)
      ensures this.cfg == cfg && this.store == store && this.audio == audio && this.whisper == whisper && this.language == language
      ensures inFlight == 0 && origin == s && acts == [] && this.s == s
    {
      this.cfg, this.store, this.audio, this.whisper, this.language := cfg, store, audio, whisper, language;
      this.inFlight, this.origin, this.acts, this.s := 0, s, [], s;
    }

    ghost predicate InStep()
      reads this, store.rdb, audio, audio.m.Values
    {
      && Run(cfg, Any, origin, acts, s)
      && store.rdb.Settled() && store.rdb.now == s.now && store.jobTTL == cfg.jobTTL
      && s.db == store.rdb.View()
      && audio.Valid() && s.audio.Keys == audio.m.Keys
      && !s.stopping
    }

    // The buffer of the job's clip, if the store has one.
    ghost function Buffer(id: JobId): array?<byte>
      reads audio, audio.m.Values
    {
      if id in audio.m then audio.m[id].data else null
    }

    // The bytes of the job's clip, if the store has one.
    ghost function Stored(id: JobId): Option<Bytes>
      reads audio, audio.m.Values, Buffer(id)
    {
      if id in audio.m then Some(BytesOf(audio.m[id].data)) else None
    }

    // What a call has done to Redis and to the upstream is what the handler of `m` does.
    twostate predicate Did(m: Message, luck: Luck)
      reads this, whisper
    {
      var stored := old(Stored(m.id));
      && s.now == old(s.now) && s.db == Served(old(s.db), m, stored, luck, s.now, cfg.jobTTL)
      && whisper.sent == old(whisper.sent) + SentFor(old(s.db), m, stored, luck, language)
    }

    // The same, field by field.
    twostate predicate Handled(m: Message, luck: Luck)
      reads this, whisper
    {
      var stored := old(Stored(m.id));
      var sent := SentFor(old(s.db), m, stored, luck, language);
      && whisper.sent == old(whisper.sent) + sent
      && HandledBy(old(s.db), m, stored, luck, s.now, cfg.jobTTL, language, s.db, sent)
    }

    // What is in the audio store is neither the pool nor the server.
    lemma ShelfApart()
      ensures (audio as object) != this && (audio as object) != store.rdb
      ensures forall id :: id in audio.m ==> (audio.m[id] as object) != this && (audio.m[id] as object) != store.rdb
      ensures forall id :: id in audio.m && audio.m[id].data != null ==>
                (audio.m[id].data as object) != this && (audio.m[id].data as object) != store.rdb
    {
    }

    // One more step of handler `c`.
    ghost method Do(c: Consumer, w: Work)
      requires Run(cfg, Any, origin, acts, s) && c in s.handlers && WorkStep(cfg, s, c, w).Some?
      modifies `acts, `s
      ensures Run(cfg, Any, origin, acts, s)
      ensures Some(s) == WorkStep(cfg, old(s), c, w) && Continues(c, old(acts), acts) && acts == old(acts) + [By(c, w)]
    {
      var t := WorkStep(cfg, s, c, w).value;
      Extend(cfg, Any, origin, acts, s, By(c, w), t);
      acts, s := acts + [By(c, w)], t;
    }

    // The attempts of handler `c`, alone at the gate.
    ghost method DoAttempts(c: Consumer, os: seq<Outcome>)
      requires Run(cfg, Any, origin, acts, s) && c in s.handlers && s.handlers[c].pc == Waiting(0)
      requires s.gate.None? && s.waiting == [c] && |os| == cfg.maxRetries + 1
      modifies `acts, `s
      ensures Run(cfg, Any, origin, acts, s) && Continues(c, old(acts), acts)
      ensures s == Move(old(s).(waiting := []), c, Zeroing(Decided(os)))
    {
      var more, t := AttemptsRun(cfg, s, c, 0, os);
      Then(cfg, Any, origin, acts, s, more, t);
      ContinuesMore(c, acts, acts, more);
      acts, s := acts + more, t;
    }

    // The attempts and the clearing of the audio.
    ghost method DoTranscribe(c: Consumer, os: seq<Outcome>)
      requires Run(cfg, Any, origin, acts, s) && c in s.handlers && s.handlers[c].pc == Waiting(0)
      requires s.gate.None? && s.waiting == [c] && |os| == cfg.maxRetries + 1
      modifies `acts, `s
      ensures Run(cfg, Any, origin, acts, s) && Continues(c, old(acts), acts)
      ensures s == Emptied(Move(old(s).(waiting := []), c, Zeroing(Decided(os))), c, AfterZeroing(Decided(os)))
      ensures SameOutside(old(s), s) && s.audio == old(s).audio
    {
      TranscribedOutside(s, c, Decided(os));
      DoAttempts(c, os);
      ghost var mid := acts;
      Do(c, ZeroData);
      ContinuesTwice(c, old(acts), mid, acts);
    }

    method Ack(c: Consumer, mid: MsgId, reply: Reply)
      requires InStep() && c in s.handlers && s.handlers[c].pc.Acking? && s.handlers[c].mid == mid
      modifies store.rdb, `acts, `s
      ensures InStep() && s == AckStep(old(s), c, reply) && Continues(c, old(acts), acts)
      ensures acts == old(acts) + [By(c, Pipeline.Ack(reply))]
    {
      var _ := store.Ack(mid, reply);
      Do(c, Pipeline.Ack(reply));
    }

    method Fail(c: Consumer, m: Message, cause: Cause, write: Reply, ack: Reply)
      requires InStep() && c in s.handlers && s.handlers[c].pc == Failing(cause)
      requires s.handlers[c].mid == m.mid && s.handlers[c].id == m.id
      modifies store.rdb, `acts, `s
      ensures InStep() && Continues(c, old(acts), acts)
      ensures s == AckStep(WriteStep(cfg, old(s), c, FailedPatch(cause, old(s).now), Acking, write), c, ack)
    {
      var _ := store.SetFailed(m.id, cause, store.rdb.now, write);
      Do(c, Pipeline.Fail(write));
      ghost var mid := acts;
      Ack(c, m.mid, ack);
      ContinuesTwice(c, old(acts), mid, acts);
    }

    // The machine's side of it.
    ghost method DoFetch(c: Consumer, downloaded: bool)
      requires Run(cfg, Any, origin, acts, s) && c in s.handlers && s.handlers[c].pc.Fetching?
      modifies `acts, `s
      ensures Run(cfg, Any, origin, acts, s) && Continues(c, old(acts), acts) && s == FetchStep(old(s), c, downloaded)
      ensures SameOutside(old(s), s) && c in s.handlers && s.handlers[c] == AfterFetch(old(s), old(s).handlers[c], downloaded)
      ensures s.audio == if old(s).handlers[c].source == Some(Upload) then old(s).audio - {old(s).handlers[c].id} else old(s).audio
    {
      FetchOutside(s, c, downloaded);
      MovesFetch(cfg, s, c, downloaded);
      Do(c, Fetch(downloaded));
    }

    // The audio downloaded, in a buffer of its own.
    method Hold(bytes: Bytes) returns (clip: AudioStore.Clip)
      ensures fresh(clip) && clip.data != null && fresh(clip.data) && BytesOf(clip.data) == bytes
    {
      var data := new byte[|bytes|](i requires 0 <= i < |bytes| => bytes[i]);
      clip := new AudioStore.Clip("", data);
    }

    // The audio in hand is the job's own, or there is a reason why there is none; an upload's clip is
    // the very one the store had.
    twostate predicate Got(id: JobId, source: Option<Source>, download: Option<Bytes>, new clip: AudioStore.Clip?, new cause: Option<Cause>)
      reads this, audio, clip, if clip == null then null else clip.data
    {
      && InHand(clip) == AudioFor(source, old(Stored(id)), download)
      && cause == (if clip == null then Some(CauseFor(source)) else None)
      && (clip != null ==>
           if source == Some(Upload) then id in old(audio.m) && clip == old(audio.m)[id]
           else fresh(clip) && clip.data != null && fresh(clip.data))
      && audio.m == if source == Some(Upload) then old(audio.m) - {id} else old(audio.m)
    }

    /** Gets the audio of the job: out of the store for an upload, which takes its very clip, from the
        network for a URL, which leaves the store alone. */
    method GetAudio(id: JobId, source: Option<Source>, download: Option<Bytes>)
      returns (clip: AudioStore.Clip?, cause: Option<Cause>)
      requires audio.Valid()
      modifies audio
      ensures audio.Valid() && Got(id, source, download, clip, cause)
      ensures source.None? ==> cause == Some(UnknownSource)
      ensures source == Some(Upload) ==> cause == if id in old(audio.m) then None else Some(AudioGone)
      ensures source == Some(Url) ==> cause == if download.Some? then None else Some(DownloadFailed)
      ensures cause.None? ==> InHand(clip) == if source == Some(Upload) then old(Stored(id)) else download
    {
      clip, cause := null, None;
      match source {
        case Some(Upload) =>
          var found;
          clip, found := audio.Take(id);
          if !found {
            cause := Some(AudioGone);
          }
        case Some(Url) =>
          if download.None? {
            cause := Some(DownloadFailed);
          } else {
            clip := Hold(download.value);
          }
        case None =>
          cause := Some(UnknownSource);
      }
    }

    /** The same in step with the machine. */
    method FetchAudio(c: Consumer, m: Message, source: Option<Source>, download: Option<Bytes>)
      returns (clip: AudioStore.Clip?, cause: Option<Cause>)
      requires InStep() && c in s.handlers && s.handlers[c].pc.Fetching?
      requires s.handlers[c].source == source && s.handlers[c].id == m.id
      modifies audio, `acts, `s
      ensures InStep() && Continues(c, old(acts), acts) && s == FetchStep(old(s), c, download.Some?) && c in s.handlers
      ensures s.handlers[c].pc == if cause.None? then Waiting(0) else Failing(cause.value)
      ensures Got(m.id, source, download, clip, cause)
    {
      clip, cause := GetAudio(m.id, source, download);
      DoFetch(c, download.Some?);
    }

    /** Overwrites the audio in place. */
    method ZeroAudio(clip: AudioStore.Clip)
      modifies clip.data
      ensures clip.data != null ==> AudioStore.AllZero(clip.data[..])
    {
      if clip.data != null {
        var i := 0;
        while i < clip.data.Length
          invariant 0 <= i <= clip.data.Length && forall k :: 0 <= k < i ==> clip.data[k] == 0
        {
          clip.data[i] := 0;
          i := i + 1;
        }
      }
    }

    /** Stores what the attempts came to and acknowledges the message. */
    method Persist(c: Consumer, m: Message, v: Verdict, write: Reply, ack: Reply)
      requires InStep() && c in s.handlers && s.handlers[c].pc == AfterZeroing(v)
      requires s.handlers[c].mid == m.mid && s.handlers[c].id == m.id
      modifies store.rdb, `acts, `s
      ensures InStep() && Continues(c, old(acts), acts)
      ensures s == PersistStep(cfg, old(s), c, v, write, ack)
    {
      match v {
        case Failure(cause) => Fail(c, m, cause, write, ack);
        case Success(body) =>
          var _ := store.SetCompleted(m.id, body, store.rdb.now, write);
          Do(c, Complete(write));
          ghost var mid := acts;
          Ack(c, m.mid, ack);
          ContinuesTwice(c, old(acts), mid, acts);
      }
    }

    // The upstream side of it: the attempts, and then the clearing of the audio in place.
    method Exchange(clip: AudioStore.Clip, language: string, tries: seq<Try>) returns (v: Verdict)
      requires InStep() && !whisper.held && |tries| == cfg.maxRetries + 1
      modifies whisper, clip.data
      ensures InStep() && !whisper.held && v == Decided(Outcomes(tries))
      ensures whisper.sent == old(whisper.sent) + Passed(Payload(old(BytesOf(clip.data)), language), Used(tries))
      ensures clip.data != null ==> AudioStore.AllZero(clip.data[..])
    {
      var heard := if clip.data == null then [] else clip.data[..];
      v := TranscribeToTheEnd(whisper, cfg.maxRetries, Payload(heard, language), tries);
      ZeroAudio(clip);
    }

    /** Transcribes the audio in hand, then clears it. */
    method Transcribe(c: Consumer, clip: AudioStore.Clip, language: string, tries: seq<Try>) returns (v: Verdict)
      requires InStep() && c in s.handlers && s.handlers[c].pc == Waiting(0)
      requires s.gate.None? && s.waiting == [c] && !whisper.held && |tries| == cfg.maxRetries + 1
      modifies whisper, `acts, `s, clip.data
      ensures InStep() && Continues(c, old(acts), acts) && !whisper.held
      ensures v == Decided(Outcomes(tries))
      ensures whisper.sent == old(whisper.sent) + Passed(Payload(old(BytesOf(clip.data)), language), Used(tries))
      ensures s == Emptied(Move(old(s).(waiting := []), c, Zeroing(v)), c, AfterZeroing(v))
      ensures clip.data != null ==> AudioStore.AllZero(clip.data[..])
    {
      v := Exchange(clip, language, tries);
      DoTranscribe(c, Outcomes(tries));
    }

    /** Transcribes, clears the audio, then stores the outcome and acknowledges. */
    method Deliver(c: Consumer, m: Message, clip: AudioStore.Clip, language: string, luck: Luck)
      requires InStep() && c in s.handlers && s.handlers[c].pc == Waiting(0)
      requires s.handlers[c].mid == m.mid && s.handlers[c].id == m.id
      requires s.gate.None? && s.waiting == [c] && !whisper.held && |luck.tries| == cfg.maxRetries + 1
      modifies store.rdb, whisper, `acts, `s, clip.data
      ensures InStep() && Continues(c, old(acts), acts) && !whisper.held
      ensures s == DeliverStep(cfg, old(s), c, Decided(Outcomes(luck.tries)), luck.write, luck.ack)
      ensures whisper.sent == old(whisper.sent) + Passed(Payload(old(BytesOf(clip.data)), language), Used(luck.tries))
      ensures clip.data != null ==> AudioStore.AllZero(clip.data[..])
    {
      var v := Transcribe(c, clip, language, luck.tries);
      ghost var mid := acts;
      Persist(c, m, v, luck.write, luck.ack);
      ContinuesTwice(c, old(acts), mid, acts);
    }

    /** Marks the job as processing, whether or not that works. */
    method SetProcessing(c: Consumer, m: Message, mark: Reply)
      requires InStep() && Standing(s, c, m, Marking)
      modifies store.rdb, `acts, `s
      ensures InStep() && Continues(c, old(acts), acts) && Standing(s, c, m, Fetching)
      ensures SameCrew(old(s), s) && s.handlers[c].source == old(s).handlers[c].source
      ensures s.db == Written(old(s.db), m.id, PROCESSING_PATCH, s.now, cfg.jobTTL, mark)
    {
      MarkFacts(cfg, s, c, m, mark);
      var _ := store.SetProcessing(m.id, mark);
      Do(c, Mark(mark));
    }

    /** Marks the job as processing and fetches its audio. */
    method Obtain(c: Consumer, m: Message, source: Option<Source>, mark: Reply, download: Option<Bytes>)
      returns (clip: AudioStore.Clip?, cause: Option<Cause>)
      requires InStep() && Standing(s, c, m, Marking) && s.handlers[c].source == source
      modifies store.rdb, audio, `acts, `s
      ensures InStep() && Continues(c, old(acts), acts) && Fetched(s, c, m)
      ensures s.handlers.Keys == old(s.handlers.Keys) && s.inFlight == old(s.inFlight) && s.batch == old(s.batch)
      ensures s.now == old(s.now) && s.db == Written(old(s.db), m.id, PROCESSING_PATCH, s.now, cfg.jobTTL, mark)
      ensures s.handlers[c].pc == if cause.None? then Waiting(0) else Failing(cause.value)
      ensures Got(m.id, source, download, clip, cause)
    {
      ShelfApart();
      ghost var stored := Stored(m.id);
      SetProcessing(c, m, mark);
      assert Stored(m.id) == stored;
      ghost var mid := acts;
      FetchFacts(s, c, m, download.Some?);
      FetchCrew(s, c, download.Some?);
      clip, cause := FetchAudio(c, m, source, download);
      ContinuesTwice(c, old(acts), mid, acts);
    }

    /** Fails the job when the fetch failed, else transcribes; either way acknowledges. */
    method Conclude(c: Consumer, m: Message, clip: AudioStore.Clip?, cause: Option<Cause>, language: string, luck: Luck)
      requires InStep() && Fetched(s, c, m) && (cause.Some? <==> clip == null)
      requires s.handlers[c].pc == if cause.None? then Waiting(0) else Failing(cause.value)
      requires !whisper.held && |luck.tries| == cfg.maxRetries + 1
      modifies store.rdb, whisper, `acts, `s, if clip == null then null else clip.data
      ensures InStep() && Continues(c, old(acts), acts) && !whisper.held
      ensures Acknowledged(s, c, m) && SameCrew(old(s), s)
      ensures clip != null && clip.data != null ==> AudioStore.AllZero(clip.data[..])
      ensures var v := if cause.Some? then Failure(cause.value) else Decided(Outcomes(luck.tries));
              s.db == Persisted(old(s.db), m, v, luck.write, luck.ack, s.now, cfg.jobTTL)
      ensures var heard := old(InHand(clip));
              whisper.sent == old(whisper.sent)
                              + if heard.Some? then Passed(Payload(heard.value, language), Used(luck.tries)) else []
    {
      if cause.Some? {
        FailIsPersist(cfg, s, c, cause.value, luck.write, luck.ack);
        PersistFacts(cfg, s, c, m, Failure(cause.value), luck.write, luck.ack);
        Fail(c, m, cause.value, luck.write, luck.ack);
      } else {
        DeliverFacts(cfg, s, c, m, Decided(Outcomes(luck.tries)), luck.write, luck.ack);
        Deliver(c, m, clip, language, luck);
      }
    }

    /** From the mark as processing to the ack. */
    method Process(c: Consumer, m: Message, rec: Record, luck: Luck, ghost buffer: array?<byte>)
      requires InStep() && Standing(s, c, m, Marking) && s.handlers[c].source == rec.source
      requires luck.get.Done? && Unfinished(s.db, m.id) && rec == s.db.jobs[m.id].rec
      requires !whisper.held && |luck.tries| == cfg.maxRetries + 1 && buffer == Buffer(m.id)
      modifies store.rdb, audio, whisper, `acts, `s, buffer
      ensures InStep() && Continues(c, old(acts), acts) && !whisper.held
      ensures Acknowledged(s, c, m)
      ensures s.handlers.Keys == old(s.handlers.Keys) && s.inFlight == old(s.inFlight) && s.batch == old(s.batch)
      ensures audio.m == old(audio.m) || audio.m == old(audio.m) - {m.id}
      ensures m.id !in audio.m && buffer != null ==> AudioStore.AllZero(buffer[..])
      ensures Did(m, luck)
    {
      var clip, cause := Obtain(c, m, rec.source, luck.mark, luck.download);
      assert buffer != null && m.id !in audio.m ==> clip != null && clip.data == buffer;
      ghost var mid := acts;
      Conclude(c, m, clip, cause, LanguageFor(rec, language), luck);
      ContinuesTwice(c, old(acts), mid, acts);
    }

    // The machine's side of the deferred Drop.
    ghost method DoDrop(c: Consumer)
      requires Run(cfg, Any, origin, acts, s) && c in s.handlers && s.handlers[c].pc.Dropping?
      modifies `acts, `s
      ensures Run(cfg, Any, origin, acts, s) && Continues(c, old(acts), acts) && s == Dropped(old(s), c)
    {
      DropFacts(cfg, s, c);
      Do(c, Drop);
      ghost var mid := acts;
      if s.handlers[c].pc.Wiping? {
        WipeIs(cfg, s, c);
        Do(c, Wipe);
        ContinuesTwice(c, old(acts), mid, acts);
      }
    }

    // The machine's side of the deferred calls.
    ghost method DoLeave(c: Consumer)
      requires Run(cfg, Any, origin, acts, s) && c in s.handlers && s.handlers[c].pc.Dropping?
      modifies `acts, `s
      ensures Run(cfg, Any, origin, acts, s) && Continues(c, old(acts), acts) && s == LeaveStep(old(s), c)
    {
      DroppedFacts(cfg, s, c);
      DoDrop(c);
      ghost var mid := acts;
      LeaveIs(cfg, s, c);
      Do(c, Leave);
      ContinuesTwice(c, old(acts), mid, acts);
    }

    /** The deferred calls: drop whatever clip is left for the job, and count the handler out. */
    method Finish(c: Consumer, m: Message, ghost buffer: array?<byte>)
      requires InStep() && Acknowledged(s, c, m)
      requires if m.id in audio.m then buffer == Buffer(m.id) else buffer != null ==> AudioStore.AllZero(buffer[..])
      modifies `inFlight, `acts, `s, audio
      modifies if m.id in audio.m then audio.m[m.id] else null, if m.id in audio.m then buffer else null
      ensures InStep() && Continues(c, old(acts), acts) && inFlight == old(inFlight) - 1
      ensures s.handlers.Keys == old(s.handlers.Keys) - {c} && s.inFlight == old(s.inFlight) - 1
      ensures s.db == old(s.db) && s.now == old(s.now) && audio.m == old(audio.m) - {m.id} && Idle(s) && s.batch == old(s.batch)
      ensures buffer != null ==> AudioStore.AllZero(buffer[..])
    {
      LeaveFacts(s, c, m);
      LeaveLeaves(s, c);
      audio.Drop(m.id);
      DoLeave(c);
      inFlight := inFlight - 1;
    }

    /** Reads the job and either acknowledges at once or processes it. */
    method Serve(c: Consumer, m: Message, luck: Luck, ghost buffer: array?<byte>)
      requires InStep() && Standing(s, c, m, Getting)
      requires !whisper.held && |luck.tries| == cfg.maxRetries + 1 && buffer == Buffer(m.id)
      modifies store.rdb, audio, whisper, `acts, `s, buffer
      ensures InStep() && Continues(c, old(acts), acts) && !whisper.held
      ensures Acknowledged(s, c, m)
      ensures s.handlers.Keys == old(s.handlers.Keys) && s.inFlight == old(s.inFlight) && s.batch == old(s.batch)
      ensures audio.m == old(audio.m) || audio.m == old(audio.m) - {m.id}
      ensures m.id !in audio.m && buffer != null ==> AudioStore.AllZero(buffer[..])
      ensures !(luck.get.Done? && Unfinished(old(s.db), m.id)) ==>
                acts == old(acts) + [By(c, Get(luck.get))] + [By(c, Pipeline.Ack(luck.ack))]
      ensures Did(m, luck)
    {
      ShelfApart();
      ghost var stored := Stored(m.id);
      GetFacts(cfg, s, c, m, luck.get);
      var got := store.Get(m.id, luck.get);
      Do(c, Get(luck.get));
      assert Stored(m.id) == stored;
      ghost var mid := acts;
      if got.Error? || Ended(got.value) {
        AckFacts(s, c, m, luck.ack);
        Ack(c, m.mid, luck.ack);
      } else {
        Process(c, m, got.value, luck, buffer);
      }
      ContinuesTwice(c, old(acts), mid, acts);
    }

    // From the read of the job to the deferred calls.
    method Attend(c: Consumer, m: Message, luck: Luck, ghost buffer: array?<byte>)
      requires InStep() && Standing(s, c, m, Getting)
      requires !whisper.held && |luck.tries| == cfg.maxRetries + 1 && buffer == Buffer(m.id)
      modifies `inFlight, `acts, `s, store.rdb, audio, whisper, buffer
      modifies if m.id in audio.m then audio.m[m.id] else null
      ensures InStep() && Continues(c, old(acts), acts) && inFlight == old(inFlight) - 1 && !whisper.held
      ensures s.handlers.Keys == old(s.handlers.Keys) - {c} && s.inFlight == old(s.inFlight) - 1
      ensures Idle(s) && s.batch == old(s.batch) && audio.m == old(audio.m) - {m.id}
      ensures buffer != null ==> AudioStore.AllZero(buffer[..])
      ensures Did(m, luck)
    {
      Serve(c, m, luck, buffer);
      ghost var mid := acts;
      Removed(audio.m, old(audio.m), m.id);
      Finish(c, m, buffer);
      ContinuesTwice(c, old(acts), mid, acts);
    }

    /** Handles one message end to end: the steps of the machine's handler, in the machine's order,
        and no others. Afterwards the handler is gone and counted out, nothing of the job is left in
        the audio store and the clip it had there is cleared, whatever the outcome; and when the
        calls to Redis worked, the message is out of the stream and the record has ended. */
    method Handle(c: Consumer, m: Message, luck: Luck)
      requires InStep() && Standing(s, c, m, Getting) && s.inFlight == inFlight + 1
      requires !whisper.held && |luck.tries| == cfg.maxRetries + 1
      modifies `inFlight, `acts, `s, store.rdb, audio, whisper
      modifies if m.id in audio.m then audio.m[m.id] else null, Buffer(m.id)
      ensures InStep() && Continues(c, old(acts), acts)
      ensures s.handlers.Keys == old(s.handlers.Keys) - {c} && Idle(s) && s.batch == old(s.batch)
      ensures s.inFlight == inFlight == old(inFlight) && !whisper.held
      ensures audio.m == old(audio.m) - {m.id}
      ensures var buffer := old(Buffer(m.id)); buffer != null ==> AudioStore.AllZero(buffer[..])
      ensures Did(m, luck) && Handled(m, luck)
    {
      ghost var buffer, was, stored := Buffer(m.id), s.db, Stored(m.id);
      inFlight := inFlight + 1;
      Attend(c, m, luck, buffer);
      ServedIsHandled(was, m, stored, luck, s.now, cfg.jobTTL, language);
    }

    // One step of the machine that is not a handler's.
    ghost method Step(a: Action, t: State)
      requires Run(cfg, Any, origin, acts, s) && Next(cfg, s, a) == Some(t)
      modifies `acts, `s
      ensures Run(cfg, Any, origin, acts, s) && s == t && acts == old(acts) + [a]
    {
      Extend(cfg, Any, origin, acts, s, a, t);
      acts, s := acts + [a], t;
    }

    /** Reads at most one message for worker `w`: one exactly when the call is answered and an entry
        is ahead of the group's position, and then the oldest such entry, now pending for the worker. */
    method ReadOne(w: nat, read: Reply) returns (m: Option<Message>)
      requires InStep() && w < cfg.concurrency && Worker(w) !in s.handlers
      modifies `acts, `s, store.rdb
      ensures InStep() && old(acts) <= acts
      ensures m.Some? <==> read.Done? && exists o :: o in old(s.db.entries) && old(s.db.last) < o
      ensures m.Some? ==> old(IsNext(s.db, m.value.mid)) && m.value.id == old(s.db.entries)[m.value.mid]
      ensures s.now == old(s.now) && TookOne(old(s.db), w, read, s.now, s.db)
      ensures m.Some? ==> s.db == ReadTx(old(s.db), m.value.mid, Worker(w), s.now)
      ensures if m.Some? then Arrived(old(s), Worker(w), m.value, s)
              else s.handlers == old(s).handlers && s.inFlight == old(s).inFlight && s.gate == old(s).gate && s.waiting == old(s).waiting
    {
      var got, mid := store.Read(Worker(w), read);
      if mid.Some? {
        ReadTakes(s.db, mid.value, w, read, s.now);
        ghost var t := Reads(cfg, s, w, mid.value, read);
        Step(Read(w, mid.value, read), t);
      }
      m := if got.Value? && got.value != [] then Some(got.value[0]) else None;
    }

    /** One turn of worker `w` while the window is open: it reads the oldest message nobody has been
        given yet, if there is one and the call is answered, and handles it end to end; else it has
        done no more than read. */
    method Turn(w: nat, read: Reply, luck: Luck) returns (m: Option<Message>)
      requires InStep() && w < cfg.concurrency && Worker(w) !in s.handlers && Idle(s) && s.inFlight == inFlight
      requires !whisper.held && |luck.tries| == cfg.maxRetries + 1
      modifies `inFlight, `acts, `s, store.rdb, audio, whisper, audio.Footprint()
      ensures InStep() && old(acts) <= acts && Idle(s) && !whisper.held
      ensures s.handlers.Keys == old(s.handlers.Keys) && s.inFlight == inFlight == old(inFlight)
      ensures m.Some? <==> read.Done? && exists o :: o in old(s.db.entries) && old(s.db.last) < o
      ensures m.Some? ==> old(IsNext(s.db, m.value.mid)) && m.value.id == old(s.db.entries)[m.value.mid]
      ensures audio.m == if m.Some? then old(audio.m) - {m.value.id} else old(audio.m)
      ensures m.None? ==> TookOne(old(s.db), w, read, s.now, s.db) && whisper.sent == old(whisper.sent)
      ensures m.Some? ==> TurnDone(w, m.value, luck)
    {
      ShelfApart();
      m := ReadOne(w, read);
      if m.Some? {
        assert Stored(m.value.id) == old(Stored(m.value.id));
        Handle(Worker(w), m.value, luck);
      }
    }

    // The message has been handled as `Handle` handles it, after the read.
    twostate predicate TurnDone(w: nat, m: Message, luck: Luck)
      reads this, whisper
    {
      var was := ReadTx(old(s.db), m.mid, Worker(w), s.now);
      var stored := old(Stored(m.id));
      var sent := SentFor(was, m, stored, luck, language);
      && whisper.sent == old(whisper.sent) + sent
      && HandledBy(was, m, stored, luck, s.now, cfg.jobTTL, language, s.db, sent)
    }

    // The machine's side of a claim.
    ghost method DoClaim(ms: seq<MsgId>, reply: Reply)
      requires Run(cfg, Any, origin, acts, s) && Claimer !in s.handlers && s.batch == [] && Idle(s) && !s.stopping
      requires Applied(reply) && Claimable(s.db, ms, s.now, cfg.claimMinIdle, cfg.claimCount)
      modifies `acts, `s
      ensures Run(cfg, Any, origin, acts, s) && old(acts) <= acts
      ensures s == old(s).(db := ClaimTx(old(s).db, ms, Claimer, old(s).now), batch := s.batch)
      ensures s.batch == if reply.Done? then
                           seq(|ms|, i requires 0 <= i < |ms| && ms[i] in old(s).db.entries =>
                             Message(ms[i], old(s).db.entries[ms[i]]))
                         else []
    {
      if ms == [] {
        assert ClaimTx(s.db, ms, Claimer, s.now) == s.db;
      } else {
        var t := Claims(cfg, s, ms, reply);
        Step(Claim(ms, reply), t);
      }
    }

    // The buffer of every clip in the store.
    ghost function Buffers(): map<JobId, array?<byte>>
      reads audio, audio.m.Values
    {
      map id | id in audio.m :: audio.m[id].data
    }

    // The bytes of every clip in the store.
    ghost function Clips(): map<JobId, Bytes>
      reads audio, audio.m.Values, set c | c in audio.m.Values && c.data != null :: c.data
    {
      map id | id in audio.m :: BytesOf(audio.m[id].data)
    }

    ghost predicate Ready(ms: seq<Message>)
      reads this, store.rdb, audio, audio.m.Values, whisper
    {
      && InStep() && Claimer !in s.handlers && s.batch == ms && Idle(s) && s.inFlight == inFlight && !whisper.held
    }

    // Handling a message leaves the buffers of all other jobs where they are.
    method HandleApart(c: Consumer, m: Message, luck: Luck)
      requires InStep() && Standing(s, c, m, Getting) && s.inFlight == inFlight + 1
      requires !whisper.held && |luck.tries| == cfg.maxRetries + 1
      modifies `inFlight, `acts, `s, store.rdb, audio, whisper
      modifies if m.id in audio.m then audio.m[m.id] else null, Buffer(m.id)
      ensures InStep() && old(acts) <= acts && Idle(s) && !whisper.held
      ensures s.handlers.Keys == old(s.handlers.Keys) - {c} && s.batch == old(s.batch)
      ensures s.inFlight == inFlight == old(inFlight)
      ensures audio.m == old(audio.m) - {m.id} && Buffers() == old(Buffers()) - {m.id} && Did(m, luck)
    {
      ghost var was, buffers := audio.m, Buffers();
      assert m.id in was ==> forall o :: o in was && o != m.id ==> was[o] != was[m.id];
      Handle(c, m, luck);
      forall o | o in audio.m
        ensures o in buffers && Buffers()[o] == buffers[o]
      {
        WithoutAt(audio.m, was, m.id, o);
        var clip := was[o];
        var b := old(Buffer(m.id));
        assert m.id in was ==> clip != was[m.id];
        assert (clip as object) != this && (clip as object) != audio && (clip as object) != store.rdb && (clip as object) != whisper;
        assert (clip as object) != b;
        assert unchanged(clip);
      }
      SameBut(Buffers(), buffers, m.id);
    }

    // And their bytes as they are.
    method HandleKeeping(c: Consumer, m: Message, luck: Luck)
      requires InStep() && Standing(s, c, m, Getting) && s.inFlight == inFlight + 1
      requires !whisper.held && |luck.tries| == cfg.maxRetries + 1
      modifies `inFlight, `acts, `s, store.rdb, audio, whisper
      modifies if m.id in audio.m then audio.m[m.id] else null, Buffer(m.id)
      ensures InStep() && old(acts) <= acts && Idle(s) && !whisper.held
      ensures s.handlers.Keys == old(s.handlers.Keys) - {c} && s.batch == old(s.batch)
      ensures s.inFlight == inFlight == old(inFlight)
      ensures audio.m == old(audio.m) - {m.id} && Buffers() == old(Buffers()) - {m.id} && Did(m, luck)
      ensures Clips() == old(Clips()) - {m.id}
    {
      ghost var was, buffers, clips, gone := audio.m, Buffers(), Clips(), Buffer(m.id);
      assert forall o :: o in buffers && o != m.id && buffers[o] != null ==> buffers[o] != gone;
      assert forall o :: o in buffers ==> clips[o] == BytesOf(buffers[o]);
      HandleApart(c, m, luck);
      forall o | o in audio.m
        ensures Clips()[o] == clips[o]
      {
        WithoutAt(Buffers(), buffers, m.id, o);
        var b := buffers[o];
        var c := if m.id in was then was[m.id] else null;
        assert b != null ==> b != gone && (b as object) != c;
        assert (b as object?) != this && (b as object?) != audio && (b as object?) != store.rdb && (b as object?) != whisper;
        assert b != null ==> unchanged(b);
        assert BytesOf(b) == old(BytesOf(b)) == clips[o];
        assert audio.m[o].data == b;
      }
      SameBut(Clips(), clips, m.id);
    }

    // The machine's side of turning to the next message of the claimed batch.
    ghost method BeginNext(ms: seq<Message>)
      requires ms != [] && Ready(ms)
      modifies `acts, `s
      ensures InStep() && old(acts) <= acts && !whisper.held && s.inFlight == inFlight + 1
      ensures Standing(s, Claimer, ms[0], Getting) && s.handlers.Keys == old(s.handlers.Keys) + {Claimer} && s.batch == ms[1..]
      ensures s.db == old(s.db) && s.now == old(s.now)
    {
      var t := Begins(cfg, s);
      Step(Begin, t);
    }

    /** The next message of the claimed batch. */
    method HandleNext(ms: seq<Message>, luck: Luck)
      requires ms != [] && Ready(ms) && |luck.tries| == cfg.maxRetries + 1
      modifies `inFlight, `acts, `s, store.rdb, audio, whisper
      modifies if ms[0].id in audio.m then audio.m[ms[0].id] else null, Buffer(ms[0].id)
      ensures Ready(ms[1..]) && old(acts) <= acts
      ensures s.handlers.Keys == old(s.handlers.Keys) && inFlight == old(inFlight)
      ensures audio.m == old(audio.m) - {ms[0].id} && Buffers() == old(Buffers()) - {ms[0].id}
      ensures Clips() == old(Clips()) - {ms[0].id} && Did(ms[0], luck)
    {
      ghost var buffers, clips, stored := Buffers(), Clips(), Stored(ms[0].id);
      ShelfApart();
      BeginNext(ms);
      assert Buffers() == buffers && Clips() == clips && Stored(ms[0].id) == stored;
      ghost var mid := acts;
      HandleKeeping(Claimer, ms[0], luck);
      assert mid <= acts;
    }

    // The handlers of `ms`, one after another, have done what they do.
    twostate predicate DidAll(ms: seq<Message>, lucks: seq<Luck>)
      requires |ms| <= |lucks|
      reads this, whisper
    {
      var clips := old(Clips());
      && s.now == old(s.now) && s.db == ServedAll(old(s.db), clips, ms, lucks, s.now, cfg.jobTTL)
      && whisper.sent == old(whisper.sent) + SentForAll(old(s.db), clips, ms, lucks, s.now, cfg.jobTTL, language)
    }

    // What there is now.
    ghost function Sight(): Outset
      reads this, audio, audio.m.Values, set c | c in audio.m.Values && c.data != null :: c.data, whisper
    {
      Outset(s.db, Clips(), whisper.sent)
    }

    // After the first `i` messages of a batch.
    ghost predicate Midway(ms: seq<Message>, lucks: seq<Luck>, i: nat, o: Outset, held: map<JobId, AudioStore.Clip>,
                           buffers: map<JobId, array?<byte>>, crew: set<Consumer>, at: Time)
      requires i <= |ms| <= |lucks|
      reads this, store.rdb, audio, audio.m.Values, set c | c in audio.m.Values && c.data != null :: c.data, whisper
    {
      && Ready(ms[i..]) && s.handlers.Keys == crew && s.now == at
      && audio.m == held - Ids(ms[..i]) && Buffers() == buffers - Ids(ms[..i])
      && Stands(o, ms, lucks, i, at, cfg.jobTTL, language, Sight())
    }

    // One message of it.
    method HandleOne(ms: seq<Message>, i: nat, lucks: seq<Luck>, ghost o: Outset, ghost held: map<JobId, AudioStore.Clip>,
                     ghost buffers: map<JobId, array?<byte>>, ghost crew: set<Consumer>, ghost at: Time)
      requires i < |ms| <= |lucks| && |lucks[i].tries| == cfg.maxRetries + 1
      requires Midway(ms, lucks, i, o, held, buffers, crew, at)
      modifies `inFlight, `acts, `s, store.rdb, audio, whisper
      modifies if ms[i].id in audio.m then audio.m[ms[i].id] else null, Buffer(ms[i].id)
      ensures old(acts) <= acts && inFlight == old(inFlight)
      ensures Midway(ms, lucks, i + 1, o, held, buffers, crew, at)
    {
      StandsOn(o, ms, lucks, i, s.now, cfg.jobTTL, language, Sight());
      Removes(held, ms, i);
      Removes(buffers, ms, i);
      assert Stored(ms[i].id) == ClipAfter(Clips(), [], ms[i].id) by {
        assert ms[i].id in Clips() <==> ms[i].id in audio.m;
      }
      assert ms[i..][0] == ms[i] && ms[i..][1..] == ms[i + 1..];
      HandleNext(ms[i..], lucks[i]);
    }

    // One after another.
    method HandleEach(ms: seq<Message>, lucks: seq<Luck>, ghost o: Outset)
      requires Ready(ms) && |lucks| >= |ms| && o == Sight()
      requires forall i :: 0 <= i < |lucks| ==> |lucks[i].tries| == cfg.maxRetries + 1
      modifies `inFlight, `acts, `s, store.rdb, audio, whisper, audio.Footprint()
      ensures old(acts) <= acts && inFlight == old(inFlight)
      ensures Midway(ms, lucks, |ms|, o, old(audio.m), old(Buffers()), old(s.handlers.Keys), old(s.now))
    {
      ghost var held, buffers, crew, at := audio.m, Buffers(), s.handlers.Keys, s.now;
      StandsFirst(o, ms, lucks, s.now, cfg.jobTTL, language);
      var i := 0;
      while i < |ms|
        invariant 0 <= i <= |ms| && old(acts) <= acts && inFlight == old(inFlight)
        invariant Midway(ms, lucks, i, o, held, buffers, crew, at)
      {
        assert Buffers().Keys == audio.m.Keys;
        ghost var before := acts;
        HandleOne(ms, i, lucks, o, held, buffers, crew, at);
        assert old(acts) <= before <= acts;
        i := i + 1;
      }
    }

    /** The claimed messages, one after another. */
    method HandleBatch(ms: seq<Message>, lucks: seq<Luck>)
      requires Ready(ms) && |lucks| >= |ms|
      requires forall i :: 0 <= i < |lucks| ==> |lucks[i].tries| == cfg.maxRetries + 1
      modifies `inFlight, `acts, `s, store.rdb, audio, whisper, audio.Footprint()
      ensures Ready([]) && old(acts) <= acts
      ensures s.handlers.Keys == old(s.handlers.Keys) && inFlight == old(inFlight)
      ensures audio.m == old(audio.m) - Ids(ms)
      ensures DidAll(ms, lucks)
      ensures BatchDone(old(s.db), old(Clips()), ms, lucks, s.now, cfg.jobTTL, s.db)
    {
      ghost var o := Sight();
      HandleEach(ms, lucks, o);
      assert ms[..|ms|] == ms;
      StandsLast(o, ms, lucks, s.now, cfg.jobTTL, language, Sight());
      BatchIsDone(o.db, o.clips, ms, lucks, s.now, cfg.jobTTL);
    }

    // The claim, in step with the machine.
    method ClaimSome(reply: Reply) returns (ms: seq<Message>, ghost mids: seq<MsgId>)
      requires Ready([]) && forall m :: m in s.db.pending ==> m in s.db.entries
      modifies `acts, `s, store.rdb
      ensures Ready(ms) && old(acts) <= acts && s.handlers.Keys == old(s.handlers.Keys) && s.now == old(s.now)
      ensures if Applied(reply) then old(Claimable(s.db, mids, s.now, cfg.claimMinIdle, cfg.claimCount)) else mids == []
      ensures s.db == ClaimTx(old(s.db), mids, Claimer, s.now)
      ensures if reply.Done? then |ms| == |mids| else ms == []
      ensures Names(old(s.db), mids, ms)
    {
      var got;
      ghost var was := s.db;
      got, mids := store.Claim(Claimer, cfg.claimMinIdle, cfg.claimCount, reply);
      if Applied(reply) {
        DoClaim(mids, reply);
      }
      ms := [];
      if got.Value? {
        ms := got.value;
        NamesAre(was, mids, ms);
      }
    }

    /** One turn of the claimer while the window is open: it claims pending messages that have been
        idle long enough and handles them one after another. `mids` is what Redis claimed for it, which
        it comes to know exactly when the call is answered. */
    method ClaimTurn(reply: Reply, lucks: seq<Luck>) returns (ms: seq<Message>, ghost mids: seq<MsgId>)
      requires Ready([]) && |lucks| == cfg.claimCount && forall m :: m in s.db.pending ==> m in s.db.entries
      requires forall i :: 0 <= i < |lucks| ==> |lucks[i].tries| == cfg.maxRetries + 1
      modifies `inFlight, `acts, `s, store.rdb, audio, whisper, audio.Footprint()
      ensures Ready([]) && old(acts) <= acts
      ensures s.handlers.Keys == old(s.handlers.Keys) && inFlight == old(inFlight)
      ensures if Applied(reply) then old(Claimable(s.db, mids, s.now, cfg.claimMinIdle, cfg.claimCount)) else mids == []
      ensures if reply.Done? then |ms| == |mids| else ms == []
      ensures forall i :: 0 <= i < |ms| ==> mids[i] in old(s.db.entries) && ms[i] == Message(mids[i], old(s.db.entries)[mids[i]])
      ensures audio.m == old(audio.m) - Ids(ms)
      ensures BatchDone(ClaimTx(old(s.db), mids, Claimer, s.now), old(Clips()), ms, lucks, s.now, cfg.jobTTL, s.db)
      ensures forall i :: 0 <= i < |ms| && Applied(lucks[i].ack) ==> ms[i].mid !in s.db.entries
      ensures reply.ReplyLost? ==> Restamped(old(s.db), mids, s.now, s.db)
      ensures reply.Refused? ==> s.db == old(s.db)
    {
      ghost var clips, was := Clips(), s.db;
      ShelfApart();
      ms, mids := ClaimSome(reply);
      assert Clips() == clips;
      ClaimRestamps(was, mids, s.now);
      HandleBatch(ms, lucks);
      AckedAreGone(was.entries, ms, lucks, s.db.entries);
    }
  }
}
