/** The HTTP side as the program writes it: what `handleUpload` and `handleURL` do once the body is
    in hand, on the mutable store and audio store, proved to be a run of the step machine. */
module Front {
  import opened Wrappers
  import opened Jobs
  import opened Redis
  import opened Pipeline
  import opened Runs
  import RedisStore
  import AudioStore

  // Apart from the request of `id`, the two states agree on what the HTTP side looks at.
  ghost predicate SameElse(s: State, t: State) {
    t.now == s.now && t.past.accepted == s.past.accepted && t.handlers == s.handlers
  }

  lemma UploadStarts(cfg: Config, s: State, id: JobId, k: ClipId, language: string) returns (t: State)
    requires id !in s.past.ids && k !in s.past.clips
    ensures Next(cfg, s, Http(id, StartUpload(k, language))) == Some(t) && SameElse(s, t)
    ensures t.db == s.db && t.audio == s.audio
    ensures id in t.requests && t.requests[id] == Request(Upload, "", language, Stashing, Some(k))
  {
    t := Next(cfg, s, Http(id, StartUpload(k, language))).value;
  }

  lemma UrlStarts(cfg: Config, s: State, id: JobId, url: string, language: string) returns (t: State)
    requires id !in s.past.ids
    ensures Next(cfg, s, Http(id, StartUrl(url, language))) == Some(t) && SameElse(s, t)
    ensures t.db == s.db && t.audio == s.audio
    ensures id in t.requests && t.requests[id] == Request(Url, url, language, Checking, None)
  {
    t := Next(cfg, s, Http(id, StartUrl(url, language))).value;
  }

  lemma Stashes(cfg: Config, s: State, id: JobId) returns (t: State)
    requires id in s.requests && s.requests[id].phase.Stashing? && s.requests[id].held.Some?
    ensures Next(cfg, s, Http(id, Stash)) == Some(t) && SameElse(s, t)
    ensures t.db == s.db && t.audio.Keys == s.audio.Keys + {id}
    ensures id in t.requests && t.requests[id] == s.requests[id].(phase := Checking, held := None)
  {
    t := Next(cfg, s, Http(id, Stash)).value;
  }

  // What the two steps of an enqueue come to.
  ghost predicate Enqueued(cfg: Config, s: State, id: JobId, length: Reply, exec: Reply, t: State)
    requires id in s.requests
  {
    var r := s.requests[id];
    var passes := length.Done? && |s.db.entries| < cfg.queueSize;
    && t.now == s.now && t.audio == s.audio && t.handlers == s.handlers
    && t.db == (if passes && Applied(exec)
                then EnqueueTx(s.db, id, QueuedRecord(r.source, r.url, r.language, s.now), s.now, cfg.jobTTL)
                else s.db)
    && if passes && exec.Done? then id !in t.requests && (r.source.Upload? ==> id in t.past.accepted)
       else if r.source.Upload? then id in t.requests && t.requests[id] == r.(phase := RollingBack)
       else id !in t.requests
  }

  lemma Passes(cfg: Config, s: State, id: JobId) returns (t: State)
    requires id in s.requests && s.requests[id].phase.Checking? && |s.db.entries| < cfg.queueSize
    ensures Next(cfg, s, Http(id, CheckLen(Done))) == Some(t) && SameElse(s, t)
    ensures t.db == s.db && t.audio == s.audio && id in t.requests && t.requests[id] == s.requests[id].(phase := Adding)
  {
    t := Next(cfg, s, Http(id, CheckLen(Done))).value;
  }

  lemma Refuses(cfg: Config, s: State, id: JobId, length: Reply) returns (t: State)
    requires id in s.requests && s.requests[id].phase.Checking?
    requires !(length.Done? && |s.db.entries| < cfg.queueSize)
    ensures Next(cfg, s, Http(id, CheckLen(length))) == Some(t) && Enqueued(cfg, s, id, length, Refused, t)
  {
    t := Next(cfg, s, Http(id, CheckLen(length))).value;
  }

  lemma Adds(cfg: Config, s: State, id: JobId, exec: Reply) returns (t: State)
    requires id in s.requests && s.requests[id].phase.Adding? && |s.db.entries| < cfg.queueSize
    ensures Next(cfg, s, Http(id, Enqueue(exec))) == Some(t) && Enqueued(cfg, s, id, Done, exec, t)
  {
    t := Next(cfg, s, Http(id, Enqueue(exec))).value;
  }

  lemma RollsBack(cfg: Config, s: State, id: JobId) returns (t: State)
    requires id in s.requests && s.requests[id].phase.RollingBack?
    ensures Next(cfg, s, Http(id, RollBack)) == Some(t) && SameElse(s, t)
    ensures t.db == s.db && t.audio.Keys == s.audio.Keys - {id}
    ensures id in t.requests && t.requests[id].phase.Erasing?
  {
    t := Next(cfg, s, Http(id, RollBack)).value;
  }

  lemma Erases(cfg: Config, s: State, id: JobId) returns (t: State)
    requires id in s.requests && s.requests[id].phase.Erasing?
    ensures Next(cfg, s, Http(id, Erase)) == Some(t) && SameElse(s, t)
    ensures t.db == s.db && t.audio == s.audio && id !in t.requests
  {
    t := Next(cfg, s, Http(id, Erase)).value;
  }

  // The request has become a job: one entry more, and a record that says what was asked for.
  ghost predicate Asked(was: Db, db: Db, id: JobId, source: Source, url: string, language: string, now: Time, ttl: int) {
    && db.entries == was.entries[was.nextId := id] && db.nextId == was.nextId + 1
    && db.last == was.last && db.pending == was.pending
    && (ttl > 0 ==>
          && id in db.jobs && db.jobs[id].deadline == now + ttl
          && db.jobs[id].rec.status == Some(Queued) && db.jobs[id].rec.createdAt == Some(now)
          && db.jobs[id].rec.source == Some(source) && db.jobs[id].rec.url == Some(url)
          && db.jobs[id].rec.language == Some(language))
  }

  lemma EnqueueAsks(db: Db, id: JobId, source: Source, url: string, language: string, now: Time, ttl: int)
    ensures Asked(db, EnqueueTx(db, id, QueuedRecord(source, url, language, now), now, ttl), id, source, url, language, now, ttl)
  {
    QueuedFields(Fields(db, id), source, url, language, now);
  }

  lemma Replaced<K, V>(m: map<K, V>, k: K, v: V)
    ensures m[k := v] - {k} == m - {k}
  {
  }

  class Front {
    const cfg: Config
    const store: RedisStore.Store
    const audio: AudioStore.Store
    // The step machine run alongside: where it started, what it did, where it is.
    ghost var origin: State
    ghost var acts: seq<Action>
    ghost var s: State

    constructor (cfg: Config, store: RedisStore.Store, audio: AudioStore.Store, ghost s: State)
      ensures this.cfg == cfg && this.store == store && this.audio == audio
      ensures origin == s && acts == [] && this.s == s
    {
      this.cfg, this.store, this.audio := cfg, store, audio;
      this.origin, this.acts, this.s := s, [], s;
    }

    ghost predicate InStep()
      reads this, store.rdb, audio, audio.m.Values
    {
      && Run(cfg, Any, origin, acts, s)
      && store.rdb.Settled() && store.rdb.now == s.now
      && store.jobTTL == cfg.jobTTL && store.queueSize == cfg.queueSize
      && s.db == store.rdb.View()
      && audio.Valid() && s.audio.Keys == audio.m.Keys
    }

    // One more step of the request of job `id`.
    ghost method Do(id: JobId, a: Serve, t: State)
      requires Run(cfg, Any, origin, acts, s) && Next(cfg, s, Http(id, a)) == Some(t)
      modifies `acts, `s
      ensures Run(cfg, Any, origin, acts, s) && s == t && acts == old(acts) + [Http(id, a)]
    {
      Extend(cfg, Any, origin, acts, s, Http(id, a), t);
      acts, s := acts + [Http(id, a)], t;
    }

    // The machine's side of an enqueue: the length check, then the transaction if it passes.
    ghost method DoEnqueue(id: JobId, length: Reply, exec: Reply)
      requires Run(cfg, Any, origin, acts, s) && id in s.requests && s.requests[id].phase.Checking?
      modifies `acts, `s
      ensures Run(cfg, Any, origin, acts, s) && Enqueued(cfg, old(s), id, length, exec, s)
      ensures acts == old(acts) + [Http(id, CheckLen(length))]
                      + (if length.Done? && |old(s).db.entries| < cfg.queueSize then [Http(id, Serve.Enqueue(exec))] else [])
    {
      if length.Done? && |s.db.entries| < cfg.queueSize {
        var t := Passes(cfg, s, id);
        Do(id, CheckLen(length), t);
        var u := Adds(cfg, s, id, exec);
        Do(id, Serve.Enqueue(exec), u);
      } else {
        var t := Refuses(cfg, s, id, length);
        Do(id, CheckLen(length), t);
      }
    }

    /** The upload in hand becomes a job: its clip is in the audio store before the message is in
        the queue, and it stays there, untouched, exactly when the enqueue reports no error; otherwise
        it is taken back out and its buffer is cleared. Nothing else in the audio store changes. */
    method HandleUpload(id: JobId, clip: AudioStore.Clip, ghost k: ClipId, language: string, length: Reply, exec: Reply)
      returns (accepted: bool)
      requires InStep() && id !in s.past.ids && k !in s.past.clips
      requires clip !in audio.m.Values && (clip.data != null ==> clip.data !in audio.Footprint())
      modifies store.rdb, audio, clip, clip.data, `acts, `s
      ensures InStep() && id !in s.requests
      ensures accepted <==> length.Done? && exec.Done? && old(|s.db.entries|) < cfg.queueSize
      ensures s.db == if length.Done? && Applied(exec) && old(|s.db.entries|) < cfg.queueSize
                      then EnqueueTx(old(s.db), id, QueuedRecord(Upload, "", language, s.now), s.now, cfg.jobTTL)
                      else old(s.db)
      ensures length.Done? && Applied(exec) && old(|s.db.entries|) < cfg.queueSize ==>
                Asked(old(s.db), s.db, id, Upload, "", language, s.now, cfg.jobTTL)
      ensures audio.m == if accepted then old(audio.m)[id := clip] else old(audio.m) - {id}
      ensures old(acts) + [Http(id, StartUpload(k, language))] + [Http(id, Stash)] <= acts
      ensures accepted ==> id in s.past.accepted && clip.data == old(clip.data)
      ensures accepted && clip.data != null ==> clip.data[..] == old(clip.data[..])
      ensures !accepted ==> clip.data == null && (old(clip.data) != null ==> AudioStore.AllZero(old(clip.data)[..]))
    {
      ghost var was := audio.m;
      Stow(id, clip, k, language);
      ghost var stowed := acts;
      accepted := Queue(id, Upload, "", language, length, exec);
      assert stowed <= acts;
      if !accepted {
        Replaced(was, id, clip);
        Discard(id);
      }
    }

    /** Stores the clip under the new job. */
    method Stow(id: JobId, clip: AudioStore.Clip, ghost k: ClipId, language: string)
      requires InStep() && id !in s.past.ids && k !in s.past.clips
      requires clip !in audio.m.Values && (clip.data != null ==> clip.data !in audio.Footprint())
      modifies audio, `acts, `s
      ensures InStep() && audio.m == old(audio.m)[id := clip] && s.db == old(s.db) && s.now == old(s.now)
      ensures acts == old(acts) + [Http(id, StartUpload(k, language))] + [Http(id, Stash)]
      ensures id in s.requests && s.requests[id] == Request(Upload, "", language, Checking, None)
    {
      ghost var t := UploadStarts(cfg, s, id, k, language);
      Do(id, StartUpload(k, language), t);
      audio.Put(id, clip);
      t := Stashes(cfg, s, id);
      Do(id, Stash, t);
    }

    /** Creates the record and enqueues the job. */
    method Queue(id: JobId, source: Source, url: string, language: string, length: Reply, exec: Reply) returns (ok: bool)
      requires InStep() && id in s.requests && s.requests[id] == Request(source, url, language, Checking, None)
      modifies store.rdb, `acts, `s
      ensures InStep() && Enqueued(cfg, old(s), id, length, exec, s)
      ensures old(acts) <= acts && s.now == old(s.now)
      ensures length.Done? && Applied(exec) && old(|s.db.entries|) < cfg.queueSize ==>
                Asked(old(s.db), s.db, id, source, url, language, s.now, cfg.jobTTL)
      ensures ok <==> length.Done? && exec.Done? && old(|s.db.entries|) < cfg.queueSize
    {
      var answer := store.CreateAndEnqueue(id, QueuedRecord(source, url, language, store.rdb.now), length, exec);
      EnqueueAsks(s.db, id, source, url, language, s.now, cfg.jobTTL);
      DoEnqueue(id, length, exec);
      ok := answer.Value?;
    }

    /** Takes the stored clip back out and clears it. */
    method Discard(id: JobId)
      requires InStep() && id in s.requests && s.requests[id].phase.RollingBack?
      modifies audio, `acts, `s
      modifies if id in audio.m then audio.m[id] else null, if id in audio.m then audio.m[id].data else null
      ensures InStep() && s.db == old(s.db) && s.now == old(s.now) && id !in s.requests && audio.m == old(audio.m) - {id}
      ensures old(acts) <= acts
      ensures id in old(audio.m) ==> old(audio.m)[id].data == null
      ensures id in old(audio.m) && old(audio.m[id].data) != null ==> AudioStore.AllZero(old(audio.m[id].data)[..])
    {
      audio.Drop(id);
      ghost var t := RollsBack(cfg, s, id);
      Do(id, RollBack, t);
      t := Erases(cfg, s, id);
      Do(id, Erase, t);
    }

    /** A URL job: the record and the message, and nothing else to undo when that fails. */
    method HandleURL(id: JobId, url: string, language: string, length: Reply, exec: Reply) returns (accepted: bool)
      requires InStep() && id !in s.past.ids
      modifies store.rdb, `acts, `s
      ensures InStep() && id !in s.requests
      ensures accepted <==> length.Done? && exec.Done? && old(|s.db.entries|) < cfg.queueSize
      ensures s.db == if length.Done? && Applied(exec) && old(|s.db.entries|) < cfg.queueSize
                      then EnqueueTx(old(s.db), id, QueuedRecord(Url, url, language, s.now), s.now, cfg.jobTTL)
                      else old(s.db)
      ensures length.Done? && Applied(exec) && old(|s.db.entries|) < cfg.queueSize ==>
                Asked(old(s.db), s.db, id, Url, url, language, s.now, cfg.jobTTL)
    {
      ghost var t := UrlStarts(cfg, s, id, url, language);
      Do(id, StartUrl(url, language), t);
      accepted := Queue(id, Url, url, language, length, exec);
    }
  }
}
