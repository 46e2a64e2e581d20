/** What a handler leaves in Redis and sends to the upstream, when nobody cancels it: as a function of
    what the store and the network give it and of how its calls fare, and then field by field. */
module Handling {
  import opened Wrappers
  import opened Jobs
  import opened Redis
  import opened Pipeline
  import opened Whisper
  import opened ByteGuards

  /** How the calls of one handler fare when nobody cancels it. */
  datatype Luck = Luck(get: Reply, mark: Reply, write: Reply, ack: Reply, download: Option<Bytes>, tries: seq<Try>)

  // The audio the handler of a job gets, if it gets any.
  function AudioFor(source: Option<Source>, stored: Option<Bytes>, download: Option<Bytes>): Option<Bytes> {
    match source
    case None => None
    case Some(Upload) => stored
    case Some(Url) => download
  }

  // Why it got none.
  function CauseFor(source: Option<Source>): Cause {
    match source
    case None => UnknownSource
    case Some(Upload) => AudioGone
    case Some(Url) => DownloadFailed
  }

  function VerdictFor(source: Option<Source>, stored: Option<Bytes>, luck: Luck): Verdict {
    if AudioFor(source, stored, luck.download).Some? then Decided(Outcomes(luck.tries)) else Failure(CauseFor(source))
  }

  function PatchFor(v: Verdict, at: Time): Record {
    match v
    case Success(body) => CompletedPatch(body, at)
    case Failure(cause) => FailedPatch(cause, at)
  }

  function Written(db: Db, id: JobId, patch: Record, now: Time, ttl: int, reply: Reply): Db {
    if Applied(reply) then UpdateTx(db, id, patch, now, ttl) else db
  }

  function Acked(db: Db, mid: MsgId, reply: Reply): Db {
    if Applied(reply) then AckTx(db, mid) else db
  }

  // The write of the outcome, then the ack.
  function Persisted(db: Db, m: Message, v: Verdict, write: Reply, ack: Reply, now: Time, ttl: int): Db {
    Acked(Written(db, m.id, PatchFor(v, now), now, ttl, write), m.mid, ack)
  }

  ghost predicate Unfinished(db: Db, id: JobId) {
    id in db.jobs && !Ended(db.jobs[id].rec)
  }

  // What the handler of `m` leaves in Redis.
  ghost function Served(db: Db, m: Message, stored: Option<Bytes>, luck: Luck, now: Time, ttl: int): Db {
    if luck.get.Done? && Unfinished(db, m.id) then
      Persisted(Written(db, m.id, PROCESSING_PATCH, now, ttl, luck.mark), m,
                VerdictFor(db.jobs[m.id].rec.source, stored, luck), luck.write, luck.ack, now, ttl)
    else Acked(db, m.mid, luck.ack)
  }

  // The record's own language, or else the default.
  function LanguageFor(rec: Record, byDefault: string): string {
    if rec.language.GetOr("") == "" then byDefault else rec.language.GetOr("")
  }

  // What it sends to the upstream.
  ghost function SentFor(db: Db, m: Message, stored: Option<Bytes>, luck: Luck, byDefault: string): seq<Sending> {
    if luck.get.Done? && Unfinished(db, m.id) then
      var rec := db.jobs[m.id].rec;
      var audio := AudioFor(rec.source, stored, luck.download);
      if audio.Some? then Passed(Payload(audio.value, LanguageFor(rec, byDefault)), Used(luck.tries)) else []
    else []
  }

  ghost predicate ShowsFailure(was: Record, cause: Cause, at: Time, now: Record) {
    now == was.(status := Some(Failed), error := Some(cause), completedAt := Some(at))
  }

  ghost predicate ShowsAnswer(was: Record, t: Try, at: Time, now: Record) {
    t.Answer?
    && if t.status == 200 then now == was.(status := Some(Completed), result := Some(t.body), completedAt := Some(at))
       else ShowsFailure(was, Rejected, at, now)
  }

  // The record of a job at its end: the first answer that is not retryable, or why there is none.
  ghost predicate Shows(was: Record, stored: Option<Bytes>, luck: Luck, at: Time, now: Record) {
    match was.source
    case None => ShowsFailure(was, UnknownSource, at, now)
    case Some(Upload) => if stored.None? then ShowsFailure(was, AudioGone, at, now) else ShowsTries(was, luck.tries, at, now)
    case Some(Url) => if luck.download.None? then ShowsFailure(was, DownloadFailed, at, now) else ShowsTries(was, luck.tries, at, now)
  }

  ghost predicate ShowsTries(was: Record, tries: seq<Try>, at: Time, now: Record) {
    && (forall k: nat :: Decides(tries, k) ==> ShowsAnswer(was, tries[k], at, now))
    && (Again(tries, |tries|) ==> ShowsFailure(was, Exhausted, at, now))
  }

  // What the handler of `m` has done to the jobs.
  ghost predicate Told(was: map<JobId, Hash>, m: Message, stored: Option<Bytes>, luck: Luck, at: Time, ttl: int,
                       now: map<JobId, Hash>) {
    && (forall id :: id != m.id ==> SameAt(was, id, now))
    && ToldOf(was, m, stored, luck, at, ttl, now)
  }

  predicate SameAt(was: map<JobId, Hash>, id: JobId, now: map<JobId, Hash>) {
    (id in now <==> id in was) && (id in now ==> now[id] == was[id])
  }

  // And to its own one.
  ghost predicate ToldOf(was: map<JobId, Hash>, m: Message, stored: Option<Bytes>, luck: Luck, at: Time, ttl: int,
                         now: map<JobId, Hash>) {
    var works := luck.get.Done? && m.id in was && !Ended(was[m.id].rec);
    if !works || (!Applied(luck.mark) && !Applied(luck.write)) then SameAt(was, m.id, now)
    else if ttl <= 0 then m.id !in now
    else
      && m.id in now && now[m.id].deadline == at + ttl
      && if Applied(luck.write) then Shows(was[m.id].rec, stored, luck, at, now[m.id].rec)
         else now[m.id].rec == was[m.id].rec.(status := Some(Processing))
  }

  // What was sent to the upstream on behalf of `m`.
  ghost predicate Spoke(was: map<JobId, Hash>, m: Message, stored: Option<Bytes>, luck: Luck, byDefault: string,
                        sent: seq<Sending>) {
    if luck.get.Done? && m.id in was && !Ended(was[m.id].rec) then
      var rec := was[m.id].rec;
      var language := if rec.language.Some? && rec.language.value != "" then rec.language.value else byDefault;
      match rec.source
      case None => sent == []
      case Some(Upload) => if stored.Some? then SpokeOf(Payload(stored.value, language), luck.tries, sent) else sent == []
      case Some(Url) => if luck.download.Some? then SpokeOf(Payload(luck.download.value, language), luck.tries, sent) else sent == []
    else sent == []
  }

  ghost predicate SpokeOf(what: Payload, tries: seq<Try>, sent: seq<Sending>) {
    && (forall k: nat :: Decides(tries, k) ==> sent == Passed(what, tries[..k + 1]))
    && (Again(tries, |tries|) ==> sent == Passed(what, tries))
  }

  // What an ack does to the stream and to the group.
  ghost predicate Cleared(was: Db, mid: MsgId, ack: Reply, now: Db) {
    && now.last == was.last && now.nextId == was.nextId
    && now.entries == (if Applied(ack) then was.entries - {mid} else was.entries)
    && now.pending == (if Applied(ack) then was.pending - {mid} else was.pending)
  }

  lemma PatchedFields(was: Record, v: Verdict, at: Time)
    ensures v.Success? ==>
      Over(was, PatchFor(v, at)) == was.(status := Some(Completed), result := Some(v.body), completedAt := Some(at))
    ensures v.Failure? ==> ShowsFailure(was, v.cause, at, Over(was, PatchFor(v, at)))
  {
  }

  lemma VerdictShows(was: Record, stored: Option<Bytes>, luck: Luck, at: Time)
    ensures Shows(was, stored, luck, at, Over(was, PatchFor(VerdictFor(was.source, stored, luck), at)))
  {
    PatchedFields(was, VerdictFor(was.source, stored, luck), at);
    if Again(luck.tries, |luck.tries|) {
      DecidedByNone(luck.tries);
    }
    forall k: nat | Decides(luck.tries, k)
      ensures Decided(Outcomes(luck.tries)) == if luck.tries[k].status == 200 then Success(luck.tries[k].body) else Failure(Rejected)
    {
      DecidedBy(luck.tries, k);
    }
  }

  // Marking a record as processing first makes no difference to what the end writes.
  lemma MarkedFirst(was: Record, v: Verdict, at: Time)
    ensures Over(Over(was, PROCESSING_PATCH), PatchFor(v, at)) == Over(was, PatchFor(v, at))
  {
  }

  lemma WrittenRest(db: Db, id: JobId, patch: Record, now: Time, ttl: int, reply: Reply)
    ensures var t := Written(db, id, patch, now, ttl, reply);
            && t.(jobs := db.jobs, expired := db.expired) == db
            && (forall i :: i != id ==> SameAt(db.jobs, i, t.jobs))
            && (Applied(reply) && ttl > 0 ==> id in t.jobs && t.jobs[id] == Hash(Over(Fields(db, id), patch), now + ttl))
            && (Applied(reply) && ttl <= 0 ==> id !in t.jobs)
            && (!Applied(reply) ==> t == db)
  {
  }

  lemma ServedClears(db: Db, m: Message, stored: Option<Bytes>, luck: Luck, now: Time, ttl: int)
    ensures Cleared(db, m.mid, luck.ack, Served(db, m, stored, luck, now, ttl))
  {
    if luck.get.Done? && Unfinished(db, m.id) {
      var v := VerdictFor(db.jobs[m.id].rec.source, stored, luck);
      var marked := Written(db, m.id, PROCESSING_PATCH, now, ttl, luck.mark);
      WrittenRest(db, m.id, PROCESSING_PATCH, now, ttl, luck.mark);
      WrittenRest(marked, m.id, PatchFor(v, now), now, ttl, luck.write);
    }
  }

  // The two writes of a handler leave one record.
  lemma PersistedShows(db: Db, m: Message, v: Verdict, luck: Luck, now: Time, ttl: int)
    requires m.id in db.jobs
    ensures var t := Persisted(Written(db, m.id, PROCESSING_PATCH, now, ttl, luck.mark), m, v, luck.write, luck.ack, now, ttl);
            && (forall id :: id != m.id ==> SameAt(db.jobs, id, t.jobs))
            && if !Applied(luck.mark) && !Applied(luck.write) then t.jobs == db.jobs
               else if ttl <= 0 then m.id !in t.jobs
               else m.id in t.jobs && t.jobs[m.id] == Hash(
                      Over(db.jobs[m.id].rec, if Applied(luck.write) then PatchFor(v, now) else PROCESSING_PATCH), now + ttl)
  {
    var s1 := Written(db, m.id, PROCESSING_PATCH, now, ttl, luck.mark);
    WrittenRest(db, m.id, PROCESSING_PATCH, now, ttl, luck.mark);
    WrittenRest(s1, m.id, PatchFor(v, now), now, ttl, luck.write);
    MarkedFirst(db.jobs[m.id].rec, v, now);
  }

  /** What a handler leaves in Redis, field by field. An unfinished job whose outcome is written shows
      the first answer that is not retryable: completed with its body for a 200, failed for any other;
      or that the attempts ran out, or why there was no audio. The rest of the record is as it was, and
      so is every other job. A job that cannot be read, is missing or has ended is left alone. */
  lemma ServedTells(db: Db, m: Message, stored: Option<Bytes>, luck: Luck, now: Time, ttl: int)
    ensures Told(db.jobs, m, stored, luck, now, ttl, Served(db, m, stored, luck, now, ttl).jobs)
  {
    if luck.get.Done? && Unfinished(db, m.id) {
      var rec := db.jobs[m.id].rec;
      VerdictShows(rec, stored, luck, now);
      PersistedShows(db, m, VerdictFor(rec.source, stored, luck), luck, now, ttl);
      WrittenFields(rec, "", Cancelled, now);
    }
  }

  lemma UsedSpeaks(what: Payload, tries: seq<Try>)
    ensures SpokeOf(what, tries, Passed(what, Used(tries)))
  {
    if Again(tries, |tries|) {
      UsedAre(tries, |tries|);
    }
    forall k: nat | Decides(tries, k)
      ensures Used(tries) == tries[..k + 1]
    {
      UsedAre(tries, k);
    }
  }

  /** What a handler sends: every attempt up to the first that is not retryable, or all of them, with
      the job's own audio and language; nothing when there is no audio or nothing to do. */
  lemma SentSpeaks(db: Db, m: Message, stored: Option<Bytes>, luck: Luck, byDefault: string)
    ensures Spoke(db.jobs, m, stored, luck, byDefault, SentFor(db, m, stored, luck, byDefault))
  {
    if luck.get.Done? && Unfinished(db, m.id) {
      var rec := db.jobs[m.id].rec;
      var audio := AudioFor(rec.source, stored, luck.download);
      if audio.Some? {
        UsedSpeaks(Payload(audio.value, LanguageFor(rec, byDefault)), luck.tries);
      }
    }
  }

  // The job is told, its message cleared, and the job sent as it should be.
  ghost predicate HandledBy(was: Db, m: Message, stored: Option<Bytes>, luck: Luck, at: Time, ttl: int, byDefault: string,
                            db: Db, sent: seq<Sending>) {
    && Told(was.jobs, m, stored, luck, at, ttl, db.jobs)
    && Cleared(was, m.mid, luck.ack, db)
    && Spoke(was.jobs, m, stored, luck, byDefault, sent)
    && (luck.get.Done? && luck.write.Done? && luck.ack.Done? ==> IsOver(db, m))
  }

  lemma ServedIsHandled(db: Db, m: Message, stored: Option<Bytes>, luck: Luck, now: Time, ttl: int, byDefault: string)
    ensures HandledBy(db, m, stored, luck, now, ttl, byDefault, Served(db, m, stored, luck, now, ttl),
                      SentFor(db, m, stored, luck, byDefault))
  {
    ServedTells(db, m, stored, luck, now, ttl);
    ServedClears(db, m, stored, luck, now, ttl);
    ServedEnds(db, m, stored, luck, now, ttl);
    SentSpeaks(db, m, stored, luck, byDefault);
  }

  lemma ServedEnds(db: Db, m: Message, stored: Option<Bytes>, luck: Luck, now: Time, ttl: int)
    ensures luck.get.Done? && luck.write.Done? && luck.ack.Done? ==> IsOver(Served(db, m, stored, luck, now, ttl), m)
  {
    if luck.get.Done? && luck.write.Done? && luck.ack.Done? && Unfinished(db, m.id) {
      var v := VerdictFor(db.jobs[m.id].rec.source, stored, luck);
      PersistedShows(db, m, v, luck, now, ttl);
      PatchedFields(db.jobs[m.id].rec, v, now);
    }
  }

  // The job has left the stream, and its record, if there is one, has ended.
  ghost predicate IsOver(db: Db, m: Message) {
    m.mid !in db.entries && (m.id in db.jobs ==> Ended(db.jobs[m.id].rec))
  }

  function Ids(ms: seq<Message>): set<JobId> {
    set m | m in ms :: m.id
  }

  lemma IdsMore(ms: seq<Message>, i: nat)
    requires i < |ms|
    ensures Ids(ms[..i + 1]) == Ids(ms[..i]) + {ms[i].id}
  {
    assert ms[..i + 1] == ms[..i] + [ms[i]];
  }

  lemma Removes<V>(was: map<JobId, V>, ms: seq<Message>, i: nat)
    requires i < |ms|
    ensures (was - Ids(ms[..i])) - {ms[i].id} == was - Ids(ms[..i + 1])
  {
    IdsMore(ms, i);
  }

  // A read by worker `w`: the oldest entry past the group's position, if there is one, is now
  // pending for it, whether or not the reply came through; else nothing has changed.
  ghost predicate TookOne(was: Db, w: nat, read: Reply, at: Time, db: Db) {
    && (Applied(read) ==> forall o :: IsNext(was, o) ==> db == was.(last := o, pending := was.pending[o := Delivery(Worker(w), at)]))
    && (!Applied(read) || !Ahead(was) ==> db == was)
  }

  ghost predicate Ahead(db: Db) {
    exists o :: o in db.entries && db.last < o
  }

  lemma ReadTakes(db: Db, mid: MsgId, w: nat, read: Reply, now: Time)
    requires IsNext(db, mid) && Applied(read)
    ensures TookOne(db, w, read, now, ReadTx(db, mid, Worker(w), now)) && Ahead(db)
  {
  }

  // The claimed rows are the claimer's and their idle time restarts; nothing else has changed.
  ghost predicate Restamped(was: Db, mids: seq<MsgId>, at: Time, db: Db) {
    && db.(pending := was.pending) == was
    && (forall mid :: mid in db.pending <==> mid in was.pending)
    && (forall mid :: mid in db.pending ==> db.pending[mid] == if mid in mids then Delivery(Claimer, at) else was.pending[mid])
  }

  lemma ClaimRestamps(db: Db, mids: seq<MsgId>, now: Time)
    ensures Restamped(db, mids, now, ClaimTx(db, mids, Claimer, now))
    ensures mids == [] ==> ClaimTx(db, mids, Claimer, now) == db
  {
  }

  // What the store has for job `id` once the clips of `ms` have gone from it.
  function ClipAfter(clips: map<JobId, Bytes>, ms: seq<Message>, id: JobId): Option<Bytes> {
    if id in clips && id !in Ids(ms) then Some(clips[id]) else None
  }

  // What the handlers of `ms`, one after another, leave in Redis, and what they send.
  ghost function ServedAll(db: Db, clips: map<JobId, Bytes>, ms: seq<Message>, lucks: seq<Luck>, now: Time, ttl: int): Db
    requires |ms| <= |lucks|
  {
    if ms == [] then db
    else
      var n := |ms| - 1;
      Served(ServedAll(db, clips, ms[..n], lucks, now, ttl), ms[n], ClipAfter(clips, ms[..n], ms[n].id), lucks[n], now, ttl)
  }

  ghost function SentForAll(db: Db, clips: map<JobId, Bytes>, ms: seq<Message>, lucks: seq<Luck>, now: Time, ttl: int,
                            byDefault: string): seq<Sending>
    requires |ms| <= |lucks|
  {
    if ms == [] then []
    else
      var n := |ms| - 1;
      SentForAll(db, clips, ms[..n], lucks, now, ttl, byDefault)
      + SentFor(ServedAll(db, clips, ms[..n], lucks, now, ttl), ms[n], ClipAfter(clips, ms[..n], ms[n].id), lucks[n], byDefault)
  }

  // An ack of `mid` got through.
  ghost predicate AckedIn(mid: MsgId, ms: seq<Message>, lucks: seq<Luck>)
    requires |ms| <= |lucks|
  {
    exists i :: 0 <= i < |ms| && ms[i].mid == mid && Applied(lucks[i].ack)
  }

  // Exactly what was acknowledged is gone.
  ghost predicate ClearedAll<V>(was: map<MsgId, V>, ms: seq<Message>, lucks: seq<Luck>, now: map<MsgId, V>)
    requires |ms| <= |lucks|
  {
    && (forall mid :: mid in now <==> mid in was && !AckedIn(mid, ms, lucks))
    && (forall mid :: mid in now ==> now[mid] == was[mid])
  }

  // Message `i` is the only one of its job.
  ghost predicate Alone(ms: seq<Message>, i: nat)
    requires i < |ms|
  {
    forall j :: 0 <= j < |ms| && j != i ==> ms[j].id != ms[i].id
  }

  lemma AckedMore(mid: MsgId, ms: seq<Message>, lucks: seq<Luck>)
    requires 0 < |ms| <= |lucks|
    ensures var n := |ms| - 1;
            AckedIn(mid, ms, lucks) <==> AckedIn(mid, ms[..n], lucks) || (ms[n].mid == mid && Applied(lucks[n].ack))
  {
    var n := |ms| - 1;
    if AckedIn(mid, ms[..n], lucks) {
      var i :| 0 <= i < n && ms[..n][i].mid == mid && Applied(lucks[i].ack);
      assert ms[i].mid == mid;
    }
    if AckedIn(mid, ms, lucks) {
      var i :| 0 <= i < |ms| && ms[i].mid == mid && Applied(lucks[i].ack);
      if i < n {
        assert ms[..n][i].mid == mid;
      }
    }
  }

  lemma ClearedMore<V>(was: map<MsgId, V>, ms: seq<Message>, lucks: seq<Luck>, before: map<MsgId, V>, now: map<MsgId, V>)
    requires 0 < |ms| <= |lucks| && ClearedAll(was, ms[..|ms| - 1], lucks, before)
    requires now == if Applied(lucks[|ms| - 1].ack) then before - {ms[|ms| - 1].mid} else before
    ensures ClearedAll(was, ms, lucks, now)
  {
    forall mid
      ensures mid in now <==> mid in was && !AckedIn(mid, ms, lucks)
    {
      AckedMore(mid, ms, lucks);
    }
  }

  /** Of a batch, exactly the messages with an ack that got through leave the stream and the group. */
  lemma {:induction false} BatchClears(db: Db, clips: map<JobId, Bytes>, ms: seq<Message>, lucks: seq<Luck>, now: Time, ttl: int)
    requires |ms| <= |lucks|
    ensures var t := ServedAll(db, clips, ms, lucks, now, ttl);
            && ClearedAll(db.entries, ms, lucks, t.entries) && ClearedAll(db.pending, ms, lucks, t.pending)
            && t.last == db.last && t.nextId == db.nextId
    decreases |ms|
  {
    if ms != [] {
      var n := |ms| - 1;
      var before := ServedAll(db, clips, ms[..n], lucks, now, ttl);
      var after := ServedAll(db, clips, ms, lucks, now, ttl);
      BatchClears(db, clips, ms[..n], lucks, now, ttl);
      ServedClears(before, ms[n], ClipAfter(clips, ms[..n], ms[n].id), lucks[n], now, ttl);
      ClearedMore(db.entries, ms, lucks, before.entries, after.entries);
      ClearedMore(db.pending, ms, lucks, before.pending, after.pending);
    }
  }

  lemma SameAtTwice(was: map<JobId, Hash>, id: JobId, mid: map<JobId, Hash>, now: map<JobId, Hash>)
    requires SameAt(was, id, mid) && SameAt(mid, id, now)
    ensures SameAt(was, id, now)
  {
  }

  lemma ServedLeaves(db: Db, m: Message, stored: Option<Bytes>, luck: Luck, now: Time, ttl: int, id: JobId)
    requires id != m.id
    ensures SameAt(db.jobs, id, Served(db, m, stored, luck, now, ttl).jobs)
  {
    ServedTells(db, m, stored, luck, now, ttl);
  }

  lemma AckedAreGone<V>(was: map<MsgId, V>, ms: seq<Message>, lucks: seq<Luck>, now: map<MsgId, V>)
    requires |ms| <= |lucks| && ClearedAll(was, ms, lucks, now)
    ensures forall i :: 0 <= i < |ms| && Applied(lucks[i].ack) ==> ms[i].mid !in now
  {
  }

  lemma {:induction false} BatchLeaves(db: Db, clips: map<JobId, Bytes>, ms: seq<Message>, lucks: seq<Luck>, now: Time, ttl: int, id: JobId)
    requires |ms| <= |lucks| && forall i :: 0 <= i < |ms| ==> ms[i].id != id
    ensures SameAt(db.jobs, id, ServedAll(db, clips, ms, lucks, now, ttl).jobs)
    decreases |ms|
  {
    if ms != [] {
      var n := |ms| - 1;
      var before := ServedAll(db, clips, ms[..n], lucks, now, ttl);
      BatchLeaves(db, clips, ms[..n], lucks, now, ttl, id);
      ServedLeaves(before, ms[n], ClipAfter(clips, ms[..n], ms[n].id), lucks[n], now, ttl, id);
      SameAtTwice(db.jobs, id, before.jobs, ServedAll(db, clips, ms, lucks, now, ttl).jobs);
    }
  }

  lemma ToldFrame(was: map<JobId, Hash>, m: Message, stored: Option<Bytes>, luck: Luck, at: Time, ttl: int, now: map<JobId, Hash>,
                  was': map<JobId, Hash>, now': map<JobId, Hash>)
    requires ToldOf(was, m, stored, luck, at, ttl, now) && SameAt(was, m.id, was') && SameAt(now, m.id, now')
    ensures ToldOf(was', m, stored, luck, at, ttl, now')
  {
  }

  /** In a batch, each message that is the only one of its job comes to what it would come to alone. */
  lemma {:induction false} BatchTells(db: Db, clips: map<JobId, Bytes>, ms: seq<Message>, lucks: seq<Luck>, now: Time, ttl: int, i: nat)
    requires i < |ms| <= |lucks| && Alone(ms, i)
    ensures ToldOf(db.jobs, ms[i], ClipAfter(clips, [], ms[i].id), lucks[i], now, ttl, ServedAll(db, clips, ms, lucks, now, ttl).jobs)
    decreases |ms|
  {
    var n := |ms| - 1;
    var before := ServedAll(db, clips, ms[..n], lucks, now, ttl);
    var after := ServedAll(db, clips, ms, lucks, now, ttl);
    var stored := ClipAfter(clips, ms[..n], ms[n].id);
    ServedTells(before, ms[n], stored, lucks[n], now, ttl);
    if i == n {
      BatchLeaves(db, clips, ms[..n], lucks, now, ttl, ms[n].id);
      assert stored == ClipAfter(clips, [], ms[n].id);
      ToldFrame(before.jobs, ms[n], stored, lucks[n], now, ttl, after.jobs, db.jobs, after.jobs);
    } else {
      assert Alone(ms[..n], i);
      BatchTells(db, clips, ms[..n], lucks, now, ttl, i);
      assert SameAt(before.jobs, ms[i].id, after.jobs);
      ToldFrame(db.jobs, ms[i], ClipAfter(clips, [], ms[i].id), lucks[i], now, ttl, before.jobs, db.jobs, after.jobs);
    }
  }

  // What became of a batch: who is acknowledged is gone, and each job with one message is told.
  ghost predicate BatchDone(was: Db, clips: map<JobId, Bytes>, ms: seq<Message>, lucks: seq<Luck>, at: Time, ttl: int, db: Db)
    requires |ms| <= |lucks|
  {
    && ClearedAll(was.entries, ms, lucks, db.entries) && ClearedAll(was.pending, ms, lucks, db.pending)
    && db.last == was.last && db.nextId == was.nextId
    && (forall id :: id !in Ids(ms) ==> SameAt(was.jobs, id, db.jobs))
    && (forall i: nat :: i < |ms| && Alone(ms, i) ==>
          ToldOf(was.jobs, ms[i], ClipAfter(clips, [], ms[i].id), lucks[i], at, ttl, db.jobs))
  }

  lemma BatchIsDone(db: Db, clips: map<JobId, Bytes>, ms: seq<Message>, lucks: seq<Luck>, now: Time, ttl: int)
    requires |ms| <= |lucks|
    ensures BatchDone(db, clips, ms, lucks, now, ttl, ServedAll(db, clips, ms, lucks, now, ttl))
  {
    BatchClears(db, clips, ms, lucks, now, ttl);
    forall id | id !in Ids(ms)
      ensures SameAt(db.jobs, id, ServedAll(db, clips, ms, lucks, now, ttl).jobs)
    {
      BatchLeaves(db, clips, ms, lucks, now, ttl, id);
    }
    forall i: nat | i < |ms| && Alone(ms, i)
      ensures ToldOf(db.jobs, ms[i], ClipAfter(clips, [], ms[i].id), lucks[i], now, ttl, ServedAll(db, clips, ms, lucks, now, ttl).jobs)
    {
      BatchTells(db, clips, ms, lucks, now, ttl, i);
    }
  }

  lemma ServedMore(db: Db, clips: map<JobId, Bytes>, ms: seq<Message>, i: nat, lucks: seq<Luck>, now: Time, ttl: int, byDefault: string)
    requires i < |ms| <= |lucks|
    ensures var before := ServedAll(db, clips, ms[..i], lucks, now, ttl);
            var stored := ClipAfter(clips, ms[..i], ms[i].id);
            && ServedAll(db, clips, ms[..i + 1], lucks, now, ttl) == Served(before, ms[i], stored, lucks[i], now, ttl)
            && SentForAll(db, clips, ms[..i + 1], lucks, now, ttl, byDefault)
               == SentForAll(db, clips, ms[..i], lucks, now, ttl, byDefault) + SentFor(before, ms[i], stored, lucks[i], byDefault)
  {
    assert ms[..i + 1][..i] == ms[..i];
  }

  // What there was before a batch: in Redis, in the audio store, and sent.
  datatype Outset = Outset(db: Db, clips: map<JobId, Bytes>, sent: seq<Sending>)

  // Where a batch stands after its first `i` messages.
  ghost predicate Stands(o: Outset, ms: seq<Message>, lucks: seq<Luck>, i: nat, at: Time, ttl: int, byDefault: string, now: Outset)
    requires i <= |ms| <= |lucks|
  {
    && now.clips == o.clips - Ids(ms[..i])
    && now.db == ServedAll(o.db, o.clips, ms[..i], lucks, at, ttl)
    && now.sent == o.sent + SentForAll(o.db, o.clips, ms[..i], lucks, at, ttl, byDefault)
  }

  lemma StandsFirst(o: Outset, ms: seq<Message>, lucks: seq<Luck>, at: Time, ttl: int, byDefault: string)
    requires |ms| <= |lucks|
    ensures Stands(o, ms, lucks, 0, at, ttl, byDefault, o)
  {
    assert o.clips - Ids(ms[..0]) == o.clips;
  }

  lemma StandsOn(o: Outset, ms: seq<Message>, lucks: seq<Luck>, i: nat, at: Time, ttl: int, byDefault: string, now: Outset)
    requires i < |ms| <= |lucks| && Stands(o, ms, lucks, i, at, ttl, byDefault, now)
    ensures var stored := ClipAfter(now.clips, [], ms[i].id);
            Stands(o, ms, lucks, i + 1, at, ttl, byDefault,
                   Outset(Served(now.db, ms[i], stored, lucks[i], at, ttl), now.clips - {ms[i].id},
                          now.sent + SentFor(now.db, ms[i], stored, lucks[i], byDefault)))
  {
    ServedMore(o.db, o.clips, ms, i, lucks, at, ttl, byDefault);
    Removes(o.clips, ms, i);
    KeptClip(o.clips, ms[..i], ms[i].id);
    var sent := SentForAll(o.db, o.clips, ms[..i], lucks, at, ttl, byDefault);
    AddsUp(o.sent, sent, SentFor(now.db, ms[i], ClipAfter(now.clips, [], ms[i].id), lucks[i], byDefault));
  }

  lemma KeptClip(clips: map<JobId, Bytes>, ms: seq<Message>, id: JobId)
    ensures ClipAfter(clips - Ids(ms), [], id) == ClipAfter(clips, ms, id)
  {
  }

  lemma AddsUp<T>(a: seq<T>, b: seq<T>, c: seq<T>)
    ensures (a + b) + c == a + (b + c)
  {
  }

  lemma StandsLast(o: Outset, ms: seq<Message>, lucks: seq<Luck>, at: Time, ttl: int, byDefault: string, now: Outset)
    requires |ms| <= |lucks| && Stands(o, ms, lucks, |ms|, at, ttl, byDefault, now)
    ensures now.db == ServedAll(o.db, o.clips, ms, lucks, at, ttl)
    ensures now.sent == o.sent + SentForAll(o.db, o.clips, ms, lucks, at, ttl, byDefault)
  {
    assert ms[..|ms|] == ms;
  }
}
