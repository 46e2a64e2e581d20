/** What the store asks of Redis: one stream with one consumer group, and one expiring hash per
    job. Every function here is one Redis call, or one MULTI pipeline, taken as atomic. */
module Redis {
  import opened Wrappers
  import opened Jobs

  // Stream entry ids, compared as numbers; 0 is the group's start position.
  type MsgId = nat

  datatype Consumer = Worker(index: nat) | Claimer

  // A pending-list row: who was handed the entry last, and when.
  datatype Delivery = Delivery(owner: Consumer, at: Time)

  datatype Hash = Hash(rec: Record, deadline: Time)

  datatype Message = Message(mid: MsgId, id: JobId)

  /** `expired` remembers every key that ever ran out; Redis itself keeps no such thing. */
  datatype Db = Db(
    entries: map<MsgId, JobId>,
    nextId: MsgId,
    last: MsgId,
    pending: map<MsgId, Delivery>,
    jobs: map<JobId, Hash>,
    expired: set<JobId>)

  const EMPTY := Db(map[], 1, 0, map[], map[], {})

  function Fields(db: Db, id: JobId): Record {
    if id in db.jobs then db.jobs[id].rec else BLANK
  }

  // HSET then EXPIRE. A time to live that is not positive deletes the key at once.
  function UpdateTx(db: Db, id: JobId, patch: Record, now: Time, ttl: int): Db {
    if ttl <= 0 then
      db.(jobs := db.jobs - {id}, expired := db.expired + {id})
    else
      db.(jobs := db.jobs[id := Hash(Over(Fields(db, id), patch), now + ttl)])
  }

  // HSET, EXPIRE, XADD.
  function EnqueueTx(db: Db, id: JobId, rec: Record, now: Time, ttl: int): Db {
    UpdateTx(db, id, rec, now, ttl).(entries := db.entries[db.nextId := id], nextId := db.nextId + 1)
  }

  // XREADGROUP with ">" and COUNT 1 hands out the oldest entry past the group's position.
  ghost predicate IsNext(db: Db, mid: MsgId) {
    && mid in db.entries
    && db.last < mid
    && forall other :: other in db.entries && db.last < other ==> mid <= other
  }

  function ReadTx(db: Db, mid: MsgId, owner: Consumer, now: Time): Db {
    db.(last := mid, pending := db.pending[mid := Delivery(owner, now)])
  }

  ghost predicate Ascending(ms: seq<MsgId>) {
    forall i, j :: 0 <= i < j < |ms| ==> ms[i] < ms[j]
  }

  // The rows before row `m`.
  function Below(ms: set<MsgId>, m: MsgId): set<MsgId> {
    set o | o in ms && o < m
  }

  // A row handed out by `due` is missing from `ms` only if at least `scan` rows come before it.
  ghost predicate NoneLeftOut(pending: map<MsgId, Delivery>, ms: seq<MsgId>, due: Time, scan: int) {
    forall m :: m in pending && pending[m].at <= due && m !in ms ==> |Below(pending.Keys, m)| >= scan
  }

  // Every row handed out by `due` that comes before one in `ms` is in `ms` too.
  ghost predicate LowestFirst(pending: map<MsgId, Delivery>, ms: seq<MsgId>, due: Time) {
    forall m, x :: x in ms && m in pending && pending[m].at <= due && m < x ==> m in ms
  }

  // The walk over the pending list takes `ms`: every row handed out by `due` that it meets, until
  // it has taken `count` of them, or met ten times `count` rows.
  ghost predicate Answered(pending: map<MsgId, Delivery>, ms: seq<MsgId>, due: Time, count: nat) {
    && Ascending(ms)
    && |ms| <= count
    && (forall m :: m in ms ==> m in pending && pending[m].at <= due && |Below(pending.Keys, m)| < 10 * count)
    && LowestFirst(pending, ms, due)
    && (|ms| < count ==> NoneLeftOut(pending, ms, due, 10 * count))
  }

  // XAUTOCLAIM from the start of the pending list takes the rows idle for `minIdle`.
  ghost predicate Claimable(db: Db, ms: seq<MsgId>, now: Time, minIdle: Time, count: nat) {
    Answered(db.pending, ms, now - minIdle, count) && forall m :: m in ms ==> m in db.entries
  }

  function ClaimTx(db: Db, ms: seq<MsgId>, owner: Consumer, now: Time): Db {
    db.(pending := map m | m in db.pending :: if m in ms then Delivery(owner, now) else db.pending[m])
  }

  // XACK, XDEL.
  function AckTx(db: Db, mid: MsgId): Db {
    db.(entries := db.entries - {mid}, pending := db.pending - {mid})
  }

  // Time passes: every key whose deadline has come is gone.
  function Advance(db: Db, now: Time): Db {
    db.(jobs := map id | id in db.jobs && now < db.jobs[id].deadline :: db.jobs[id],
        expired := db.expired + set id | id in db.jobs && db.jobs[id].deadline <= now)
  }

  lemma {:induction false} Least(ms: set<MsgId>) returns (m: MsgId)
    requires ms != {}
    ensures m in ms && forall o :: o in ms ==> m <= o
    decreases ms
  {
    var first :| first in ms;
    m := first;
    if ms != {first} {
      assert ms - {first} != {};
      var least := Least(ms - {first});
      if least < first {
        m := least;
      }
      assert forall o :: o in ms ==> o == first || o in ms - {first};
    }
  }

  lemma {:induction false} SubsetSize<T>(a: set<T>, b: set<T>)
    requires a <= b
    ensures |a| <= |b|
    decreases a
  {
    if a != {} {
      var x :| x in a;
      SubsetSize(a - {x}, b - {x});
    }
  }

  // The walk over the pending list has passed `scanned` rows and has `rest` before it.
  ghost predicate Walked(pending: map<MsgId, Delivery>, ms: seq<MsgId>, rest: set<MsgId>, due: Time, scanned: nat) {
    && rest <= pending.Keys && |pending.Keys - rest| == scanned && Ascending(ms)
    && (forall m :: m in ms ==> m in pending && pending[m].at <= due && |Below(pending.Keys, m)| < scanned)
    && (forall m, r :: m in ms && r in rest ==> m < r)
    && (forall m :: m in pending && pending[m].at <= due ==> m in ms || m in rest)
    && (forall r :: r in rest ==> |Below(pending.Keys, r)| >= scanned)
  }

  lemma WalkCounts(pending: map<MsgId, Delivery>, rest: set<MsgId>, m: MsgId)
    requires rest <= pending.Keys && m in rest && forall o :: o in rest ==> m <= o
    ensures |pending.Keys - (rest - {m})| == |pending.Keys - rest| + 1
    ensures |Below(pending.Keys, m)| <= |pending.Keys - rest|
  {
    assert pending.Keys - (rest - {m}) == (pending.Keys - rest) + {m};
    SubsetSize(Below(pending.Keys, m), pending.Keys - rest);
  }

  lemma WalkOn(pending: map<MsgId, Delivery>, ms: seq<MsgId>, rest: set<MsgId>, due: Time, scanned: nat, m: MsgId)
    requires Walked(pending, ms, rest, due, scanned) && m in rest && forall o :: o in rest ==> m <= o
    ensures Walked(pending, if pending[m].at <= due then ms + [m] else ms, rest - {m}, due, scanned + 1)
  {
    Appended(ms, m);
    BelowGrows(pending.Keys, rest, m);
    WalkCounts(pending, rest, m);
  }

  lemma WalkEnds(pending: map<MsgId, Delivery>, ms: seq<MsgId>, rest: set<MsgId>, due: Time, scanned: nat, count: nat)
    requires Walked(pending, ms, rest, due, scanned) && |ms| <= count && scanned <= 10 * count
    requires rest == {} || scanned == 10 * count || |ms| == count
    ensures Answered(pending, ms, due, count)
  {
  }

  lemma BelowGrows(all: set<MsgId>, rest: set<MsgId>, m: MsgId)
    requires m in all && rest <= all
    ensures forall r :: r in rest && m < r ==> |Below(all, r)| >= |Below(all, m)| + 1
  {
    forall r | r in rest && m < r
      ensures |Below(all, r)| >= |Below(all, m)| + 1
    {
      assert m !in Below(all, m);
      SubsetSize(Below(all, m) + {m}, Below(all, r));
    }
  }

  lemma Appended(ms: seq<MsgId>, m: MsgId)
    requires Ascending(ms) && forall o :: o in ms ==> o < m
    ensures Ascending(ms + [m])
    ensures forall o :: o in ms + [m] <==> o in ms || o == m
  {
    assert forall i :: 0 <= i < |ms| ==> ms[i] in ms;
  }
}
