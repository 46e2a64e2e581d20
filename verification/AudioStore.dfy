/** The in-process audio store on the heap: clips with mutable buffers, handed over by reference. */
module AudioStore {
  import opened Wrappers
  import opened Jobs
  import opened ByteGuards

  class Clip {
    var filename: string
    var data: array?<byte>

    constructor (filename: string, data: array<byte>)
      ensures this.filename == filename && this.data == data
    {
      this.filename, this.data := filename, data;
    }
  }

  predicate AllZero(s: seq<byte>) {
    forall i :: 0 <= i < |s| ==> s[i] == 0
  }

  /** Clears the buffer in place and lets go of it. */
  method Zero(clip: Clip?)
    modifies clip, if clip == null then null else clip.data
    ensures clip != null ==> clip.data == null && clip.filename == old(clip.filename)
    ensures clip != null && old(clip.data) != null ==> AllZero(old(clip.data)[..])
  {
    if clip == null {
      return;
    }
    if clip.data != null {
      var buffer := clip.data;
      var i := 0;
      while i < buffer.Length
        invariant 0 <= i <= buffer.Length && clip.data == buffer
        invariant forall k :: 0 <= k < i ==> buffer[k] == 0
        invariant clip.filename == old(clip.filename)
      {
        buffer[i] := 0;
        i := i + 1;
      }
    }
    clip.data := null;
  }

  class Store {
    var m: map<JobId, Clip>

    // Different jobs have different clips, and different clips different buffers.
    ghost predicate Valid()
      reads this, m.Values
    {
      forall i, j :: i in m && j in m && i != j ==>
        m[i] != m[j] && (m[i].data == null || m[i].data != m[j].data)
    }

    // The clips in the store and their buffers.
    ghost function Footprint(): (fp: set<object>)
      reads this, m.Values
    {
      m.Values + set c | c in m.Values && c.data != null :: c.data
    }

    // What each job has in the store.
    ghost function Contents(): map<JobId, (string, Option<seq<byte>>)>
      reads this, m.Values, set c | c in m.Values && c.data != null :: c.data
    {
      map id | id in m :: (m[id].filename, if m[id].data == null then None else Some(m[id].data[..]))
    }

    constructor ()
      ensures m == map[] && Valid()
    {
      m := map[];
    }

    /** Stores the clip under the job, replacing what was there; no buffer is touched. */
    method Put(id: JobId, clip: Clip)
      requires Valid() && clip !in m.Values && (clip.data != null ==> clip.data !in Footprint())
      modifies this
      ensures Valid() && m == old(m)[id := clip]
      ensures forall i :: i in m && i != id ==> i in old(m) && Contents()[i] == old(Contents())[i]
    {
      m := m[id := clip];
    }

    /** Removes the clip and hands it over. The caller gets the very object that was put, with its
        buffer untouched, and nothing left in the store shares it. */
    method Take(id: JobId) returns (clip: Clip?, ok: bool)
      requires Valid()
      modifies this
      ensures Valid() && m == old(m) - {id}
      ensures ok <==> id in old(m)
      ensures ok ==> clip == old(m)[id] && clip !in m.Values && (clip.data != null ==> clip.data !in Footprint())
      ensures !ok ==> clip == null
    {
      ok := id in m;
      clip := if ok then m[id] else null;
      m := m - {id};
    }

    /** Removes the clip and zeroes its buffer. Only a clip that is still in the store under this
        job is touched, so a buffer somebody has taken keeps its bytes. */
    method Drop(id: JobId)
      requires Valid()
      modifies this, if id in m then m[id] else null, if id in m then m[id].data else null
      ensures Valid() && m == old(m) - {id}
      ensures id in old(m) ==> old(m)[id].data == null
      ensures id in old(m) && old(m[id].data) != null ==> AllZero(old(m[id].data)[..])
      ensures forall i :: i in m ==> Contents()[i] == old(Contents())[i]
    {
      var clip: Clip? := if id in m then m[id] else null;
      m := m - {id};
      if clip != null {
        Zero(clip);
      }
    }

    method Len() returns (n: nat)
      ensures n == |m|
    {
      n := |m|;
    }
  }

  /** The second handler of a job whose clip has been taken: it misses the clip, and its Drop
      leaves every buffer in the store and out of it alone. */
  method SecondHandler(store: Store, id: JobId) returns (found: bool)
    requires store.Valid() && id !in store.m
    modifies store
    ensures store.Valid() && store.m == old(store.m) && !found
  {
    var clip;
    clip, found := store.Take(id);
    assert store.m == old(store.m);
    store.Drop(id);
  }

  /** Two handlers of the same job, in the order that could hurt: the first takes the clip, the
      second misses it and drops the job; the first still reads the uploaded bytes, and clears
      them itself. */
  method DuplicateHandlers(store: Store, id: JobId) returns (heard: seq<byte>)
    requires store.Valid() && id in store.m && store.m[id].data != null
    modifies store, store.m[id], store.m[id].data
    ensures heard == old(store.m[id].data[..])
    ensures store.Valid() && store.m == old(store.m) - {id}
    ensures AllZero(old(store.m[id].data)[..])
  {
    var clip, found := store.Take(id);
    var foundAgain := SecondHandler(store, id);
    heard := clip.data[..];
    Zero(clip);
  }
}
