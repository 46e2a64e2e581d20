/** The store's methods, command by command, on a mutable Redis. Each is proved to be the atomic
    transaction the pipeline takes it for. */
module RedisStore {
  import opened Wrappers
  import opened Jobs
  import opened Redis
  import opened Pipeline
  import opened Concurrency

  datatype StoreError = QueueFull | NotFound | Unreachable

  datatype Answer<+T> = Value(value: T) | Error(error: StoreError)

  // A hash before its EXPIRE has no deadline.
  datatype Stored = Stored(rec: Record, deadline: Option<Time>)

  /** The Redis server, as far as the store uses it, with the single commands. */
  class Server {
    var now: Time
    var entries: map<MsgId, JobId>
    var nextId: MsgId
    var last: MsgId
    var pending: map<MsgId, Delivery>
    var hashes: map<JobId, Stored>
    ghost var expired: set<JobId>

    ghost predicate Settled()
      reads this
    {
      forall id :: id in hashes ==> hashes[id].deadline.Some?
    }

    ghost function View(): Db
      reads this
    {
      Db(entries, nextId, last, pending,
         map id | id in hashes :: Hash(hashes[id].rec, hashes[id].deadline.GetOr(0)), expired)
    }

    // The fields of a hash; a missing one has none.
    ghost function Held(id: JobId): Record
      reads this
    {
      if id in hashes then hashes[id].rec else Record(None, None, None, None, None, None, None, None)
    }

    constructor ()
      ensures Settled() && View() == EMPTY && now == 0
    {
      now, entries, nextId, last, pending, hashes, expired := 0, map[], 1, 0, map[], map[], {};
    }

    method HSet(id: JobId, patch: Record)
      modifies `hashes
      ensures hashes == old(hashes)[id := if id in old(hashes)
                                          then Stored(Over(old(hashes)[id].rec, patch), old(hashes)[id].deadline)
                                          else Stored(Over(BLANK, patch), None)]
    {
      if id in hashes {
        hashes := hashes[id := Stored(Over(hashes[id].rec, patch), hashes[id].deadline)];
      } else {
        hashes := hashes[id := Stored(Over(BLANK, patch), None)];
      }
    }

    method Expire(id: JobId, ttl: int)
      requires id in hashes
      modifies `hashes, `expired
      ensures hashes == if ttl <= 0 then old(hashes) - {id}
                        else old(hashes)[id := Stored(old(hashes)[id].rec, Some(now + ttl))]
      ensures expired == if ttl <= 0 then old(expired) + {id} else old(expired)
    {
      if ttl <= 0 {
        hashes := hashes - {id};
        expired := expired + {id};
      } else {
        hashes := hashes[id := Stored(hashes[id].rec, Some(now + ttl))];
      }
    }

    method XAdd(id: JobId)
      modifies `entries, `nextId
      ensures entries == old(entries)[old(nextId) := id] && nextId == old(nextId) + 1
    {
      entries := entries[nextId := id];
      nextId := nextId + 1;
    }

    method XAck(mid: MsgId)
      modifies `pending
      ensures pending == old(pending) - {mid}
    {
      pending := pending - {mid};
    }

    method XDel(mid: MsgId)
      modifies `entries
      ensures entries == old(entries) - {mid}
    {
      entries := entries - {mid};
    }

    /** XREADGROUP with ">" and COUNT 1. */
    method XReadGroup(owner: Consumer) returns (mid: Option<MsgId>)
      modifies `last, `pending
      ensures mid.None? ==> View() == old(View()) && forall m :: m in entries ==> m <= last
      ensures mid.Some? ==> old(IsNext(View(), mid.value)) && View() == ReadTx(old(View()), mid.value, owner, now)
      ensures hashes == old(hashes)
    {
      var ahead := set m | m in entries && last < m;
      if ahead == {} {
        assert forall m :: m in entries ==> m !in ahead;
        return None;
      }
      ghost var first := Least(ahead);
      assert first in ahead && forall o :: o in ahead ==> first <= o;
      var next :| next in ahead && forall o :: o in ahead ==> next <= o;
      assert forall o :: o in entries && last < o ==> o in ahead;
      last := next;
      pending := pending[next := Delivery(owner, now)];
      mid := Some(next);
    }

    /** XAUTOCLAIM from the start of the pending list. */
    method XAutoClaim(owner: Consumer, minIdle: Time, count: nat) returns (ms: seq<MsgId>)
      requires forall m :: m in pending ==> m in entries
      modifies `pending
      ensures old(Claimable(View(), ms, now, minIdle, count))
      ensures View() == ClaimTx(old(View()), ms, owner, now)
      ensures hashes == old(hashes)
    {
      ms := Walk(pending, now - minIdle, count);
      Reassign(ms, owner);
    }

    // The rows in `ms` get a new owner, and their idle time restarts.
    method Reassign(ms: seq<MsgId>, owner: Consumer)
      modifies `pending
      ensures View() == ClaimTx(old(View()), ms, owner, now)
    {
      pending := map m | m in pending :: if m in ms then Delivery(owner, now) else pending[m];
    }
  }

  /** The walk of a claim over the pending list, row by row. */
  method Walk(pending: map<MsgId, Delivery>, due: Time, count: nat) returns (ms: seq<MsgId>)
    ensures Answered(pending, ms, due, count)
  {
    ms := [];
    var rest := pending.Keys;
    var scanned := 0;
    while rest != {} && scanned < 10 * count && |ms| < count
      invariant |ms| <= count && scanned <= 10 * count && Walked(pending, ms, rest, due, scanned)
      decreases |rest|
    {
      ghost var first := Least(rest);
      assert first in rest && forall o :: o in rest ==> first <= o;
      var m :| m in rest && forall o :: o in rest ==> m <= o;
      WalkOn(pending, ms, rest, due, scanned, m);
      if pending[m].at <= due {
        ms := ms + [m];
      }
      rest := rest - {m};
      scanned := scanned + 1;
    }
    WalkEnds(pending, ms, rest, due, scanned, count);
  }

  /** A claim has one answer: Redis leaves the machine no choice of rows. */
  lemma ClaimIsDetermined(db: Db, ms: seq<MsgId>, ns: seq<MsgId>, now: Time, minIdle: Time, count: nat)
    requires Claimable(db, ms, now, minIdle, count) && Claimable(db, ns, now, minIdle, count)
    ensures forall m :: m in ms <==> m in ns
  {
    ClaimCovers(db, ms, ns, now, minIdle, count);
    ClaimCovers(db, ns, ms, now, minIdle, count);
  }

  lemma ClaimCovers(db: Db, ms: seq<MsgId>, ns: seq<MsgId>, now: Time, minIdle: Time, count: nat)
    requires Claimable(db, ms, now, minIdle, count) && Claimable(db, ns, now, minIdle, count)
    ensures forall m :: m in ms ==> m in ns
  {
    forall x | x in ms
      ensures x in ns
    {
      if x !in ns {
        assert forall y :: y in ns ==> y < x && y in ms;
        DistinctSize(ms);
        DistinctSize(ns);
        SubsetSize(Elements(ns) + {x}, Elements(ms));
      }
    }
  }

  /** The store: calls on a server over a connection. `reply` parameters say how each call fares. */
  class Store {
    const rdb: Server
    const jobTTL: int
    const queueSize: int

    constructor (rdb: Server, jobTTL: int, queueSize: int)
      ensures this.rdb == rdb && this.jobTTL == jobTTL && this.queueSize == queueSize
    {
      this.rdb, this.jobTTL, this.queueSize := rdb, jobTTL, queueSize;
    }

    // The job's hash is `rec`, with its time to live ahead of it, and no other hash has changed.
    twostate predicate Holds(id: JobId, rec: Record)
      reads rdb
    {
      jobTTL > 0 ==> rdb.hashes == old(rdb.hashes)[id := Stored(rec, Some(rdb.now + jobTTL))]
    }

    // Neither the stream nor the group has changed.
    twostate predicate StreamSame()
      reads rdb
    {
      && rdb.entries == old(rdb.entries) && rdb.nextId == old(rdb.nextId)
      && rdb.last == old(rdb.last) && rdb.pending == old(rdb.pending)
    }

    // One entry has been added, which nobody has been handed, and the job's hash written.
    twostate predicate Enqueued(id: JobId, j: Record)
      reads rdb
    {
      && rdb.entries == old(rdb.entries)[old(rdb.nextId) := id] && rdb.nextId == old(rdb.nextId) + 1
      && rdb.last == old(rdb.last) && rdb.pending == old(rdb.pending)
      && Holds(id, Over(old(rdb.Held(id)), j))
    }

    // HSET and EXPIRE, inside a transaction.
    method HashPipelined(id: JobId, patch: Record)
      requires rdb.Settled()
      modifies rdb
      ensures rdb.Settled() && rdb.now == old(rdb.now) && StreamSame() && Holds(id, Over(old(rdb.Held(id)), patch))
      ensures rdb.View() == UpdateTx(old(rdb.View()), id, patch, rdb.now, jobTTL)
    {
      rdb.HSet(id, patch);
      rdb.Expire(id, jobTTL);
    }

    // The transaction of an enqueue: HSET, EXPIRE, XADD.
    method EnqueuePipelined(id: JobId, j: Record)
      requires rdb.Settled()
      modifies rdb
      ensures rdb.Settled() && rdb.now == old(rdb.now)
      ensures rdb.View() == EnqueueTx(old(rdb.View()), id, j, rdb.now, jobTTL)
      ensures Enqueued(id, j)
    {
      HashPipelined(id, j);
      rdb.XAdd(id);
    }

    /** XLEN, then HSET, EXPIRE and XADD in one transaction. The queue is full exactly when XLEN
        answers with at least the cap, and then, or when XLEN fails, nothing is written. */
    method CreateAndEnqueue(id: JobId, j: Record, length: Reply, exec: Reply) returns (r: Answer<()>)
      requires rdb.Settled()
      modifies rdb
      ensures rdb.Settled() && rdb.now == old(rdb.now)
      ensures r == Error(QueueFull) <==> length.Done? && old(|rdb.entries|) >= queueSize
      ensures r.Value? <==> length.Done? && exec.Done? && old(|rdb.entries|) < queueSize
      ensures rdb.View() == if length.Done? && old(|rdb.entries|) < queueSize && Applied(exec)
                            then EnqueueTx(old(rdb.View()), id, j, rdb.now, jobTTL)
                            else old(rdb.View())
      ensures length.Done? && old(|rdb.entries|) < queueSize && Applied(exec) ==> Enqueued(id, j)
    {
      if !length.Done? {
        return Error(Unreachable);
      }
      if |rdb.entries| >= queueSize {
        return Error(QueueFull);
      }
      if Applied(exec) {
        EnqueuePipelined(id, j);
      }
      r := if exec.Done? then Value(()) else Error(Unreachable);
    }

    method Get(id: JobId, reply: Reply) returns (r: Answer<Record>)
      requires rdb.Settled()
      ensures r == if !reply.Done? then Error(Unreachable)
                   else if id in rdb.View().jobs then Value(Fields(rdb.View(), id))
                   else Error(NotFound)
    {
      if !reply.Done? {
        return Error(Unreachable);
      }
      if id !in rdb.hashes {
        return Error(NotFound);
      }
      r := Value(rdb.hashes[id].rec);
    }

    /** HSET and EXPIRE in one transaction; on a key that is gone this starts a new record. */
    method Update(id: JobId, patch: Record, exec: Reply) returns (r: Answer<()>)
      requires rdb.Settled()
      modifies rdb
      ensures rdb.Settled() && rdb.now == old(rdb.now)
      ensures r.Value? <==> exec.Done?
      ensures rdb.View() == if Applied(exec) then UpdateTx(old(rdb.View()), id, patch, rdb.now, jobTTL)
                            else old(rdb.View())
      ensures Applied(exec) ==> StreamSame() && Holds(id, Over(old(rdb.Held(id)), patch))
    {
      if Applied(exec) {
        HashPipelined(id, patch);
      }
      r := if exec.Done? then Value(()) else Error(Unreachable);
    }

    method SetProcessing(id: JobId, exec: Reply) returns (r: Answer<()>)
      requires rdb.Settled()
      modifies rdb
      ensures rdb.Settled() && rdb.now == old(rdb.now) && (r.Value? <==> exec.Done?)
      ensures rdb.View() == if Applied(exec) then UpdateTx(old(rdb.View()), id, PROCESSING_PATCH, rdb.now, jobTTL)
                            else old(rdb.View())
      ensures Applied(exec) ==> StreamSame() && Holds(id, old(rdb.Held(id)).(status := Some(Processing)))
    {
      WrittenFields(rdb.Held(id), "", Cancelled, 0);
      r := Update(id, PROCESSING_PATCH, exec);
    }

    method SetCompleted(id: JobId, body: string, at: Time, exec: Reply) returns (r: Answer<()>)
      requires rdb.Settled()
      modifies rdb
      ensures rdb.Settled() && rdb.now == old(rdb.now) && (r.Value? <==> exec.Done?)
      ensures rdb.View() == if Applied(exec) then UpdateTx(old(rdb.View()), id, CompletedPatch(body, at), rdb.now, jobTTL)
                            else old(rdb.View())
      ensures Applied(exec) ==>
                StreamSame() && Holds(id, old(rdb.Held(id)).(status := Some(Completed), result := Some(body), completedAt := Some(at)))
    {
      WrittenFields(rdb.Held(id), body, Cancelled, at);
      r := Update(id, CompletedPatch(body, at), exec);
    }

    method SetFailed(id: JobId, cause: Cause, at: Time, exec: Reply) returns (r: Answer<()>)
      requires rdb.Settled()
      modifies rdb
      ensures rdb.Settled() && rdb.now == old(rdb.now) && (r.Value? <==> exec.Done?)
      ensures rdb.View() == if Applied(exec) then UpdateTx(old(rdb.View()), id, FailedPatch(cause, at), rdb.now, jobTTL)
                            else old(rdb.View())
      ensures Applied(exec) ==>
                StreamSame() && Holds(id, old(rdb.Held(id)).(status := Some(Failed), error := Some(cause), completedAt := Some(at)))
    {
      WrittenFields(rdb.Held(id), "", cause, at);
      r := Update(id, FailedPatch(cause, at), exec);
    }

    /** XACK and XDEL in one transaction. */
    method Ack(mid: MsgId, exec: Reply) returns (r: Answer<()>)
      requires rdb.Settled()
      modifies rdb
      ensures rdb.Settled() && rdb.now == old(rdb.now) && (r.Value? <==> exec.Done?)
      ensures rdb.View() == if Applied(exec) then AckTx(old(rdb.View()), mid) else old(rdb.View())
      ensures Applied(exec) ==> rdb.entries == old(rdb.entries) - {mid} && rdb.pending == old(rdb.pending) - {mid}
      ensures rdb.hashes == old(rdb.hashes) && rdb.last == old(rdb.last)
    {
      if Applied(exec) {
        rdb.XAck(mid);
        rdb.XDel(mid);
      }
      r := if exec.Done? then Value(()) else Error(Unreachable);
    }

    /** One new message for the consumer, if there is any. `mid` is what Redis handed out, whether
        or not the reply came through. */
    method Read(owner: Consumer, reply: Reply) returns (r: Answer<seq<Message>>, ghost mid: Option<MsgId>)
      requires rdb.Settled()
      modifies rdb
      ensures rdb.Settled() && rdb.now == old(rdb.now)
      ensures r.Value? <==> reply.Done?
      ensures mid.None? ==> rdb.View() == old(rdb.View())
      ensures mid.None? && Applied(reply) ==> forall m :: m in rdb.entries ==> m <= rdb.last
      ensures mid.Some? ==> Applied(reply) && old(IsNext(rdb.View(), mid.value))
                            && rdb.View() == ReadTx(old(rdb.View()), mid.value, owner, rdb.now)
      ensures mid.Some? ==> rdb.last == mid.value && rdb.pending == old(rdb.pending)[mid.value := Delivery(owner, rdb.now)]
      ensures rdb.entries == old(rdb.entries) && rdb.hashes == old(rdb.hashes)
      ensures mid.Some? <==> Applied(reply) && exists m :: m in old(rdb.entries) && old(rdb.last) < m
      ensures r.Value? ==> r.value == if mid.None? then [] else [Message(mid.value, old(rdb.entries)[mid.value])]
    {
      mid := None;
      if !Applied(reply) {
        return Error(Unreachable), mid;
      }
      var got := rdb.XReadGroup(owner);
      mid := got;
      if !reply.Done? {
        return Error(Unreachable), mid;
      }
      r := Value(if got.None? then [] else [Message(got.value, rdb.entries[got.value])]);
    }

    /** Up to `count` messages idle for `minIdle`, oldest first, now the consumer's. */
    method Claim(owner: Consumer, minIdle: Time, count: nat, reply: Reply) returns (r: Answer<seq<Message>>, ghost ms: seq<MsgId>)
      requires rdb.Settled() && forall m :: m in rdb.pending ==> m in rdb.entries
      modifies rdb
      ensures rdb.Settled() && rdb.now == old(rdb.now)
      ensures r.Value? <==> reply.Done?
      ensures !Applied(reply) ==> ms == [] && rdb.View() == old(rdb.View())
      ensures Applied(reply) ==> old(Claimable(rdb.View(), ms, rdb.now, minIdle, count))
                                 && rdb.View() == ClaimTx(old(rdb.View()), ms, owner, rdb.now)
      ensures rdb.entries == old(rdb.entries) && rdb.hashes == old(rdb.hashes) && rdb.last == old(rdb.last)
      ensures Applied(reply) ==> rdb.pending.Keys == old(rdb.pending).Keys
      ensures Applied(reply) ==> forall m :: m in rdb.pending ==>
                rdb.pending[m] == if m in ms then Delivery(owner, rdb.now) else old(rdb.pending)[m]
      ensures r.Value? ==> |r.value| == |ms| && forall i :: 0 <= i < |ms| ==> r.value[i] == Message(ms[i], rdb.entries[ms[i]])
    {
      ms := [];
      if !Applied(reply) {
        return Error(Unreachable), [];
      }
      var claimed := rdb.XAutoClaim(owner, minIdle, count);
      ms := claimed;
      if !reply.Done? {
        return Error(Unreachable), ms;
      }
      var out: seq<Message> := [];
      var i := 0;
      while i < |claimed|
        invariant 0 <= i <= |claimed| && |out| == i
        invariant forall k :: 0 <= k < i ==> claimed[k] in rdb.entries && out[k] == Message(claimed[k], rdb.entries[claimed[k]])
      {
        assert claimed[i] in claimed;
        out := out + [Message(claimed[i], rdb.entries[claimed[i]])];
        i := i + 1;
      }
      r := Value(out);
    }
  }

  /** What a worker stores as the result of a job is what a reader of the job gets. */
  method ResultIsReadBack(store: Store, id: JobId, body: string, at: Time) returns (r: Answer<Record>)
    requires store.rdb.Settled() && store.jobTTL > 0
    modifies store.rdb
    ensures r.Value? && r.value.status == Some(Completed) && r.value.result == Some(body) && r.value.completedAt == Some(at)
  {
    var _ := store.SetCompleted(id, body, at, Done);
    r := store.Get(id, Done);
  }

  /** And so is the reason of a failure. */
  method FailureIsReadBack(store: Store, id: JobId, cause: Cause, at: Time) returns (r: Answer<Record>)
    requires store.rdb.Settled() && store.jobTTL > 0
    modifies store.rdb
    ensures r.Value? && r.value.status == Some(Failed) && r.value.error == Some(cause) && r.value.completedAt == Some(at)
  {
    var _ := store.SetFailed(id, cause, at, Done);
    r := store.Get(id, Done);
  }
}
