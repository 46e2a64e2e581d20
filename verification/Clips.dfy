/** Who owns the uploaded audio: every clip has one owner at a time from upload to release. */
module Clips {
  import opened Wrappers
  import opened Jobs
  import opened Redis
  import opened Pipeline
  import opened Runs
  import opened Accounting
  import opened Concurrency
  import opened Loss

  datatype Owner = InStore(id: JobId) | WithRequest(id: JobId) | WithHandler(c: Consumer)

  function Slot(s: State, o: Owner): Option<ClipId> {
    match o
    case InStore(id) => if id in s.audio then Some(s.audio[id]) else None
    case WithRequest(id) => if id in s.requests then s.requests[id].held else None
    case WithHandler(c) => if c in s.handlers then s.handlers[c].held else None
  }

  predicate Alive(past: History, k: ClipId) {
    k in past.clips && k !in past.zeroed && k !in past.lost
  }

  // Every clip not yet released has exactly one owner, and a released one has none.
  ghost predicate Owned(s: State) {
    && (forall o, p :: Slot(s, o).Some? && Slot(s, o) == Slot(s, p) ==> o == p)
    && (forall o :: Slot(s, o).Some? ==> Alive(s.past, Slot(s, o).value))
    && (forall k: ClipId :: Alive(s.past, k) ==> exists o :: Slot(s, o) == Some(k))
  }

  predicate Sending(pc: Pc) {
    pc.Waiting? || pc.Calling? || pc.Backoff? || pc.Zeroing?
  }

  predicate HoldOk(h: Handler) {
    && (h.held.Some? ==> Sending(h.pc) || h.pc.Wiping?)
    && (h.source == Some(Upload) && Sending(h.pc) ==> h.held.Some?)
  }

  predicate RequestOk(r: Request) {
    && (r.held.Some? ==> r.phase.Stashing? || r.phase.Erasing?)
    && (r.phase.Stashing? ==> r.held.Some? && r.source.Upload?)
  }

  // A clip is in the hands of a handler only from Take to zeroing, and of a request only around Put.
  ghost predicate HoldsOk(s: State) {
    && (forall c :: c in s.handlers ==> HoldOk(s.handlers[c]))
    && (forall id :: id in s.requests ==> RequestOk(s.requests[id]))
  }

  ghost predicate Same(s: State, t: State) {
    && (forall o :: Slot(t, o) == Slot(s, o))
    && t.past.clips == s.past.clips && t.past.zeroed == s.past.zeroed && t.past.lost == s.past.lost
  }

  ghost predicate Moved(s: State, t: State, from: Owner, to: Owner) {
    && Slot(s, from).Some? && Slot(s, to).None? && from != to
    && Slot(t, from).None? && Slot(t, to) == Slot(s, from)
    && (forall o :: o != from && o != to ==> Slot(t, o) == Slot(s, o))
    && t.past.clips == s.past.clips && t.past.zeroed == s.past.zeroed && t.past.lost == s.past.lost
  }

  ghost predicate Freed(s: State, t: State, from: Owner) {
    && Slot(s, from).Some? && Slot(t, from).None?
    && (forall o :: o != from ==> Slot(t, o) == Slot(s, o))
    && t.past.clips == s.past.clips && t.past.zeroed == s.past.zeroed + {Slot(s, from).value} && t.past.lost == s.past.lost
  }

  ghost predicate Born(s: State, t: State, at: Owner) {
    && Slot(s, at).None? && Slot(t, at).Some? && Slot(t, at).value !in s.past.clips
    && (forall o :: o != at ==> Slot(t, o) == Slot(s, o))
    && t.past.clips == s.past.clips + {Slot(t, at).value} && t.past.zeroed == s.past.zeroed && t.past.lost == s.past.lost
  }

  ghost predicate AllLost(s: State, t: State) {
    && (forall o :: Slot(t, o).None?)
    && t.past.clips == s.past.clips && t.past.zeroed == s.past.zeroed && t.past.lost == s.past.clips - s.past.zeroed
  }

  // Only clips that were uploaded can have been released.
  ghost predicate LostOk(past: History) {
    past.zeroed <= past.clips && past.lost <= past.clips
  }

  lemma SameKeeps(s: State, t: State)
    requires Owned(s) && LostOk(s.past) && Same(s, t)
    ensures Owned(t) && LostOk(t.past)
  {
    forall k: ClipId | Alive(t.past, k)
      ensures exists o :: Slot(t, o) == Some(k)
    {
      var o :| Slot(s, o) == Some(k);
      assert Slot(t, o) == Some(k);
    }
  }

  lemma MovedKeeps(s: State, t: State, from: Owner, to: Owner)
    requires Owned(s) && LostOk(s.past) && Moved(s, t, from, to)
    ensures Owned(t) && LostOk(t.past)
  {
    forall k: ClipId | Alive(t.past, k)
      ensures exists o :: Slot(t, o) == Some(k)
    {
      var o :| Slot(s, o) == Some(k);
      assert Slot(t, if o == from then to else o) == Some(k);
    }
  }

  lemma FreedKeeps(s: State, t: State, from: Owner)
    requires Owned(s) && LostOk(s.past) && Freed(s, t, from)
    ensures Owned(t) && LostOk(t.past)
  {
    assert Alive(s.past, Slot(s, from).value);
    forall k: ClipId | Alive(t.past, k)
      ensures exists o :: Slot(t, o) == Some(k)
    {
      var o :| Slot(s, o) == Some(k);
      assert Slot(t, o) == Some(k);
    }
  }

  lemma BornKeeps(s: State, t: State, at: Owner)
    requires Owned(s) && LostOk(s.past) && Born(s, t, at)
    ensures Owned(t) && LostOk(t.past)
  {
    forall k: ClipId | Alive(t.past, k)
      ensures exists o :: Slot(t, o) == Some(k)
    {
      if Some(k) == Slot(t, at) {
      } else {
        var o :| Slot(s, o) == Some(k);
        assert Slot(t, o) == Some(k);
      }
    }
  }

  predicate Asks(h: Handler, w: Work) {
    w.Drop? || (w.Fetch? && h.source == Some(Upload))
  }

  predicate Clears(w: Work) {
    w.ZeroData? || w.Wipe?
  }

  // What a handler holds after a step.
  lemma HeldAfter(cfg: Config, s: State, h: Handler, w: Work)
    requires Fits(h.pc, w) && !w.Leave?
    ensures After(cfg, s, h, w).held ==
      if Clears(w) then None else if Asks(h, w) && h.id in s.audio then Some(s.audio[h.id]) else h.held
  {
  }

  lemma StoreTake(s: State, c: Consumer)
    requires c in s.handlers
    ensures TakeStep(s, c).audio == s.audio - {s.handlers[c].id}
    ensures TakeStep(s, c).past == s.past.(touched := s.past.touched + {s.handlers[c].id})
  {
  }

  lemma StoreFetch(s: State, c: Consumer, downloaded: bool)
    requires c in s.handlers
    ensures var t := FetchStep(s, c, downloaded);
            var ids := if s.handlers[c].source == Some(Upload) then {s.handlers[c].id} else {};
            t.audio == s.audio - ids && t.past == s.past.(touched := s.past.touched + ids)
  {
    StoreTake(s, c);
  }

  lemma StoreDrop(s: State, c: Consumer)
    requires c in s.handlers
    ensures DropStep(s, c).audio == s.audio - {s.handlers[c].id}
    ensures DropStep(s, c).past == s.past.(touched := s.past.touched + {s.handlers[c].id})
  {
  }

  lemma StoreElsewhere(cfg: Config, s: State, c: Consumer, w: Work, t: State)
    requires c in s.handlers && WorkStep(cfg, s, c, w) == Some(t) && !w.Fetch? && !w.Drop? && !Clears(w)
    ensures t.audio == s.audio && t.past == s.past
  {
  }

  // Only Take and Drop touch the store, each under the job of the handler.
  lemma WorkStore(cfg: Config, s: State, c: Consumer, w: Work, t: State)
    requires c in s.handlers && WorkStep(cfg, s, c, w) == Some(t)
    ensures t.audio == if Asks(s.handlers[c], w) then s.audio - {s.handlers[c].id} else s.audio
    ensures t.past.touched == if Asks(s.handlers[c], w) then s.past.touched + {s.handlers[c].id} else s.past.touched
    ensures t.past.zeroed == if Clears(w) && s.handlers[c].held.Some? then s.past.zeroed + {s.handlers[c].held.value} else s.past.zeroed
  {
    match w
    case Fetch(downloaded) => StoreFetch(s, c, downloaded);
    case Drop => StoreDrop(s, c);
    case ZeroData =>
    case Wipe =>
    case _ => StoreElsewhere(cfg, s, c, w, t);
  }

  lemma StoreMoves(s: State, c: Consumer, t: State)
    requires c in s.handlers && OnlyHandler(s, c, t) && s.handlers[c].id in s.audio && s.handlers[c].held.None?
    requires t.audio == s.audio - {s.handlers[c].id} && t.past.zeroed == s.past.zeroed
    requires c in t.handlers && t.handlers[c].held == Some(s.audio[s.handlers[c].id])
    ensures Moved(s, t, InStore(s.handlers[c].id), WithHandler(c))
  {
  }

  lemma HandlerFrees(s: State, c: Consumer, t: State)
    requires c in s.handlers && OnlyHandler(s, c, t) && s.handlers[c].held.Some? && t.audio == s.audio
    requires t.past.zeroed == s.past.zeroed + {s.handlers[c].held.value}
    requires c in t.handlers && t.handlers[c].held.None?
    ensures Freed(s, t, WithHandler(c))
  {
  }

  lemma NothingMoves(s: State, c: Consumer, t: State)
    requires c in s.handlers && OnlyHandler(s, c, t) && t.audio == s.audio && t.past.zeroed == s.past.zeroed
    requires (if c in t.handlers then t.handlers[c].held else None) == s.handlers[c].held
    ensures Same(s, t)
  {
  }

  // What a step of a handler does to the ownership of clips.
  lemma WorkMoves(cfg: Config, s: State, c: Consumer, w: Work, t: State)
    requires c in s.handlers && WorkStep(cfg, s, c, w) == Some(t) && HoldsOk(s)
    ensures Same(s, t) || Moved(s, t, InStore(s.handlers[c].id), WithHandler(c)) || Freed(s, t, WithHandler(c))
  {
    var h := s.handlers[c];
    assert HoldOk(h);
    WorkFrame(cfg, s, c, w, t);
    WorkStore(cfg, s, c, w, t);
    HandlerMoves(cfg, s, c, w, t);
    if !w.Leave? {
      HeldAfter(cfg, s, h, w);
    }
    if Asks(h, w) && h.id in s.audio {
      StoreMoves(s, c, t);
    } else if Clears(w) && h.held.Some? {
      HandlerFrees(s, c, t);
    } else {
      assert t.audio == s.audio;
      NothingMoves(s, c, t);
    }
  }

  lemma HoldsAfter(cfg: Config, s: State, h: Handler, w: Work)
    requires Fits(h.pc, w) && !w.Leave? && HoldOk(h)
    ensures HoldOk(After(cfg, s, h, w))
  {
  }

  lemma HoldsWork(cfg: Config, s: State, c: Consumer, w: Work, t: State)
    requires c in s.handlers && WorkStep(cfg, s, c, w) == Some(t) && HoldsOk(s)
    ensures HoldsOk(t)
  {
    WorkFrame(cfg, s, c, w, t);
    HandlerMoves(cfg, s, c, w, t);
    if !w.Leave? {
      HoldsAfter(cfg, s, s.handlers[c], w);
    }
  }

  // What a step of a request does to the ownership of clips.
  lemma HttpMoves(cfg: Config, s: State, id: JobId, a: Serve, t: State)
    requires HttpStep(cfg, s, id, a) == Some(t) && HoldsOk(s) && RequestsOk(s.requests, s.past)
    requires id in s.requests && s.requests[id].phase.Stashing? ==> id !in s.audio
    ensures || Same(s, t)
            || Born(s, t, WithRequest(id))
            || Moved(s, t, WithRequest(id), InStore(id))
            || Moved(s, t, InStore(id), WithRequest(id))
            || Freed(s, t, WithRequest(id))
  {
    HttpOthers(cfg, s, id, a, t);
    HttpAside(cfg, s, id, a, t);
    match a
    case StartUpload(clip, language) => StartMoves(s, id, clip, language, cfg, t);
    case StartUrl(_, _) => assert Same(s, t);
    case Stash => StashMoves(cfg, s, id, t);
    case CheckLen(_) => assert Same(s, t);
    case Enqueue(reply) => EnqueueMoves(cfg, s, id, reply);
    case RollBack => RollBackMoves(cfg, s, id, t);
    case Erase => EraseMoves(cfg, s, id, t);
  }

  lemma HoldsHttp(cfg: Config, s: State, id: JobId, a: Serve, t: State)
    requires HttpStep(cfg, s, id, a) == Some(t) && HoldsOk(s)
    ensures HoldsOk(t)
  {
    HttpOthers(cfg, s, id, a, t);
    HttpAside(cfg, s, id, a, t);
    if a.Enqueue? {
      EnqueueMoves(cfg, s, id, a.reply);
    } else {
      HoldsRequest(cfg, s, id, a, t);
    }
  }

  lemma HoldsRequest(cfg: Config, s: State, id: JobId, a: Serve, t: State)
    requires HttpStep(cfg, s, id, a) == Some(t) && !a.Enqueue?
    requires id in s.requests ==> RequestOk(s.requests[id])
    ensures id in t.requests ==> RequestOk(t.requests[id])
  {
  }

  lemma StashMoves(cfg: Config, s: State, id: JobId, t: State)
    requires HttpStep(cfg, s, id, Stash) == Some(t) && id !in s.audio
    ensures Moved(s, t, WithRequest(id), InStore(id))
  {
  }

  lemma HttpOthers(cfg: Config, s: State, id: JobId, a: Serve, t: State)
    requires HttpStep(cfg, s, id, a) == Some(t)
    ensures forall i :: i != id ==> (i in t.requests <==> i in s.requests)
    ensures forall i :: i != id && i in t.requests ==> t.requests[i] == s.requests[i]
    ensures forall i :: i != id ==> (i in t.audio <==> i in s.audio)
    ensures forall i :: i != id && i in t.audio ==> t.audio[i] == s.audio[i]
  {
    if a.Enqueue? {
      EnqueueOthers(cfg, s, id, a.reply);
    }
  }

  lemma EnqueueOthers(cfg: Config, s: State, id: JobId, reply: Reply)
    requires id in s.requests && s.requests[id].phase.Adding?
    ensures var t := EnqueueStep(cfg, s, id, reply);
            t.requests - {id} == s.requests - {id} && t.audio == s.audio
  {
    EnqueueLeaves(cfg, s, id, reply);
  }

  lemma StartMoves(s: State, id: JobId, clip: ClipId, language: string, cfg: Config, t: State)
    requires HttpStep(cfg, s, id, StartUpload(clip, language)) == Some(t) && RequestsOk(s.requests, s.past)
    ensures Born(s, t, WithRequest(id))
  {
  }

  lemma EnqueueMoves(cfg: Config, s: State, id: JobId, reply: Reply)
    requires id in s.requests && s.requests[id].phase.Adding? && HoldsOk(s)
    ensures var t := EnqueueStep(cfg, s, id, reply); Same(s, t) && HoldsOk(t)
  {
    EnqueueLeaves(cfg, s, id, reply);
    var t := EnqueueStep(cfg, s, id, reply);
    assert t.audio == s.audio && t.handlers == s.handlers;
    assert RequestOk(s.requests[id]);
  }

  lemma RollBackMoves(cfg: Config, s: State, id: JobId, t: State)
    requires HttpStep(cfg, s, id, RollBack) == Some(t) && HoldsOk(s)
    ensures Same(s, t) || Moved(s, t, InStore(id), WithRequest(id))
  {
    assert RequestOk(s.requests[id]);
  }

  lemma EraseMoves(cfg: Config, s: State, id: JobId, t: State)
    requires HttpStep(cfg, s, id, Erase) == Some(t)
    ensures Same(s, t) || Freed(s, t, WithRequest(id))
  {
  }

  // An upload between Put and the end of its enqueue or rollback.
  predicate Stored(r: Request) {
    r.source.Upload? && (r.phase.Checking? || r.phase.Adding? || r.phase.RollingBack?)
  }

  // A handler of the job that has not done its Drop yet.
  ghost predicate Attended(s: State, id: JobId, c: Consumer) {
    c in s.handlers && s.handlers[c].id == id && !s.handlers[c].pc.Wiping? && !s.handlers[c].pc.Leaving?
  }

  // Somebody is still going to take or drop the clip stored under `id`.
  ghost predicate Homed(s: State, id: JobId) {
    || (id in s.requests && Stored(s.requests[id]))
    || (id in s.past.sent && s.past.sent[id] in s.db.entries)
    || (exists c :: Attended(s, id, c))
  }

  ghost predicate NoLeak(s: State) {
    forall id :: id in s.audio ==> Homed(s, id) && (id in s.requests ==> Stored(s.requests[id]))
  }

  // A handler reaches the end of its life only through Drop.
  lemma EndsByDrop(cfg: Config, s: State, h: Handler, w: Work)
    requires Fits(h.pc, w) && !w.Drop? && !h.pc.Wiping? && !h.pc.Leaving?
    ensures !w.Leave? && !After(cfg, s, h, w).pc.Wiping? && !After(cfg, s, h, w).pc.Leaving?
  {
  }

  lemma NoLeakWork(cfg: Config, s: State, c: Consumer, w: Work, t: State)
    requires Sound(cfg, s) && NoLeak(s) && c in s.handlers && WorkStep(cfg, s, c, w) == Some(t)
    ensures NoLeak(t)
  {
    WorkFrame(cfg, s, c, w, t);
    WorkStore(cfg, s, c, w, t);
    forall id | id in t.audio
      ensures Homed(t, id)
    {
      assert id in s.audio && Homed(s, id);
      if w.Drop? {
        HomedByDrop(s, c, t, id);
      } else {
        HomedByWork(cfg, s, c, w, t, id);
      }
    }
  }

  lemma HomedByDrop(s: State, c: Consumer, t: State, id: JobId)
    requires c in s.handlers && t == DropStep(s, c) && OnlyHandler(s, c, t)
    requires Homed(s, id) && id != s.handlers[c].id && s.handlers[c].pc.Dropping?
    ensures Homed(t, id)
  {
    assert t.db == s.db;
    if d :| Attended(s, id, d) {
      assert Attended(t, id, d);
    }
  }

  lemma AttendedByWork(cfg: Config, s: State, c: Consumer, w: Work, t: State, id: JobId, d: Consumer)
    requires c in s.handlers && WorkStep(cfg, s, c, w) == Some(t) && OnlyHandler(s, c, t) && !w.Drop?
    requires Attended(s, id, d)
    ensures Attended(t, id, d)
  {
    if d == c {
      HandlerMoves(cfg, s, c, w, t);
      EndsByDrop(cfg, s, s.handlers[c], w);
    }
  }

  lemma HomedByWork(cfg: Config, s: State, c: Consumer, w: Work, t: State, id: JobId)
    requires Sound(cfg, s) && c in s.handlers && WorkStep(cfg, s, c, w) == Some(t) && OnlyHandler(s, c, t) && !w.Drop?
    requires Homed(s, id)
    ensures Homed(t, id)
  {
    if d :| Attended(s, id, d) {
      AttendedByWork(cfg, s, c, w, t, id, d);
    } else if id in s.past.sent && s.past.sent[id] in s.db.entries && s.past.sent[id] !in t.db.entries {
      AckedIsAttended(cfg, s, c, w, t, id);
    }
  }

  // An acknowledged entry is still in the hands of the handler that acknowledged it.
  lemma AckedIsAttended(cfg: Config, s: State, c: Consumer, w: Work, t: State, id: JobId)
    requires Sound(cfg, s) && c in s.handlers && WorkStep(cfg, s, c, w) == Some(t)
    requires id in s.past.sent && s.past.sent[id] in s.db.entries && s.past.sent[id] !in t.db.entries
    ensures Attended(s, id, c)
  {
    WorkRemoves(cfg, s, c, w, t, s.past.sent[id]);
    HandlerMoves(cfg, s, c, w, t);
    assert Carried(s.db, s.past, s.handlers[c].mid, s.handlers[c].id);
  }

  lemma HomedKnown(cfg: Config, s: State, id: JobId)
    requires Sound(cfg, s) && Homed(s, id)
    ensures id in s.past.ids
  {
    if c :| Attended(s, id, c) {
      assert Carried(s.db, s.past, s.handlers[c].mid, s.handlers[c].id);
    }
  }

  lemma NoLeakHttp(cfg: Config, s: State, id: JobId, a: Serve, t: State)
    requires Sound(cfg, s) && NoLeak(s) && HoldsOk(s) && HttpStep(cfg, s, id, a) == Some(t)
    ensures NoLeak(t)
  {
    HttpOthers(cfg, s, id, a, t);
    HttpAside(cfg, s, id, a, t);
    forall i | i in t.audio
      ensures Homed(t, i) && (i in t.requests ==> Stored(t.requests[i]))
    {
      if i in s.audio {
        HomedKnown(cfg, s, i);
      }
      if i == id {
        HttpHome(cfg, s, id, a, t);
      } else {
        HomedAside(cfg, s, id, a, t, i);
      }
    }
  }

  lemma HomedAside(cfg: Config, s: State, id: JobId, a: Serve, t: State, i: JobId)
    requires HttpStep(cfg, s, id, a) == Some(t) && i != id && Homed(s, i)
    ensures Homed(t, i)
  {
    if c :| Attended(s, i, c) {
      HttpAside(cfg, s, id, a, t);
      assert Attended(t, i, c);
    } else if i in s.past.sent && s.past.sent[i] in s.db.entries {
      HttpKeepsEntries(cfg, s, id, a, t);
      Sends(cfg, s, id, a, t);
    } else {
      HttpOthers(cfg, s, id, a, t);
    }
  }

  // A request lets go of its stored clip only once its entry is in the stream.
  lemma HttpHome(cfg: Config, s: State, id: JobId, a: Serve, t: State)
    requires HttpStep(cfg, s, id, a) == Some(t) && id in t.audio && HoldsOk(s)
    requires id in s.audio && id in s.requests ==> Stored(s.requests[id])
    requires id in s.audio ==> id in s.past.ids
    requires id in s.requests ==> RequestOk(s.requests[id])
    ensures Homed(t, id) && (id in t.requests ==> Stored(t.requests[id]))
  {
    if a.Enqueue? {
      EnqueueHome(cfg, s, id, a.reply);
    }
  }

  lemma EnqueueHome(cfg: Config, s: State, id: JobId, reply: Reply)
    requires id in s.requests && s.requests[id].phase.Adding? && Stored(s.requests[id])
    ensures var t := EnqueueStep(cfg, s, id, reply);
            Homed(t, id) && (id in t.requests ==> Stored(t.requests[id]))
  {
    EnqueueLeaves(cfg, s, id, reply);
    EnqueueSends(cfg, s, id, reply);
    if reply.Done? {
      assert EnqueueStep(cfg, s, id, reply).past.sent[id] in EnqueueStep(cfg, s, id, reply).db.entries;
    }
  }

  predicate Entering(r: Request) {
    r.source.Upload? && (r.phase.Checking? || r.phase.Adding?)
  }

  // Where an accepted upload still is, and which jobs a handler has already asked the store for.
  ghost predicate FirstOk(s: State) {
    && (forall id :: id in s.past.accepted ==>
          id in s.past.sent && id !in s.requests && (id in s.past.touched || id in s.audio))
    && (forall id :: id in s.past.touched ==> id in s.past.sent && s.past.sent[id] <= s.db.last)
    && (forall id :: id in s.requests && Entering(s.requests[id]) ==> id in s.audio)
  }

  // A handler asks only for the clip of its own job, whose message has been handed out.
  lemma FirstAfter(s: State, c: Consumer, t: State)
    requires FirstOk(s) && c in s.handlers && OnlyHandler(s, c, t)
    requires Carried(s.db, s.past, s.handlers[c].mid, s.handlers[c].id)
    requires (t.audio == s.audio && t.past.touched == s.past.touched)
             || (t.audio == s.audio - {s.handlers[c].id} && t.past.touched == s.past.touched + {s.handlers[c].id})
    requires forall id :: id in s.requests && Entering(s.requests[id]) ==> id != s.handlers[c].id
    ensures FirstOk(t)
  {
  }

  lemma FirstWork(cfg: Config, s: State, c: Consumer, w: Work, t: State)
    requires Sound(cfg, s) && FirstOk(s) && c in s.handlers && WorkStep(cfg, s, c, w) == Some(t)
    ensures FirstOk(t)
  {
    WorkFrame(cfg, s, c, w, t);
    WorkStore(cfg, s, c, w, t);
    assert Carried(s.db, s.past, s.handlers[c].mid, s.handlers[c].id);
    FirstAfter(s, c, t);
  }

  lemma HttpPast(cfg: Config, s: State, id: JobId, a: Serve, t: State)
    requires HttpStep(cfg, s, id, a) == Some(t) && !a.Enqueue?
    ensures t.past.touched == s.past.touched && t.past.accepted == s.past.accepted
  {
  }

  lemma EnqueuePast(cfg: Config, s: State, id: JobId, reply: Reply)
    requires id in s.requests && s.requests[id].phase.Adding?
    ensures var t := EnqueueStep(cfg, s, id, reply);
            && t.past.touched == s.past.touched && t.db.last == s.db.last && t.audio == s.audio
            && (t.past.sent == s.past.sent || t.past.sent == s.past.sent[id := s.db.nextId])
            && (t.past.accepted == s.past.accepted
                || (t.past.accepted == s.past.accepted + {id} && s.requests[id].source.Upload?
                    && id in t.past.sent && t.requests == s.requests - {id}))
  {
  }

  lemma FirstEnqueue(cfg: Config, s: State, id: JobId, reply: Reply)
    requires Sound(cfg, s) && FirstOk(s) && id in s.requests && s.requests[id].phase.Adding?
    ensures FirstOk(EnqueueStep(cfg, s, id, reply))
  {
    EnqueuePast(cfg, s, id, reply);
    EnqueueLeaves(cfg, s, id, reply);
    var t := EnqueueStep(cfg, s, id, reply);
    assert id !in s.past.sent && id !in s.past.accepted;
    forall i | i in t.past.accepted
      ensures i in t.past.sent && i !in t.requests && (i in t.past.touched || i in t.audio)
    {
      if i == id {
        assert Entering(s.requests[id]);
      }
    }
  }

  lemma FirstHttp(cfg: Config, s: State, id: JobId, a: Serve, t: State)
    requires Sound(cfg, s) && FirstOk(s) && HttpStep(cfg, s, id, a) == Some(t)
    ensures FirstOk(t)
  {
    NotYetAccepted(cfg, s, id, a, t);
    if a.Enqueue? {
      FirstEnqueue(cfg, s, id, a.reply);
    } else {
      HttpOthers(cfg, s, id, a, t);
      HttpQuiet(cfg, s, id, a, t);
      HttpPast(cfg, s, id, a, t);
      EnteringSelf(cfg, s, id, a, t);
    }
  }

  // A request is only ever made for a job that has not been accepted.
  lemma NotYetAccepted(cfg: Config, s: State, id: JobId, a: Serve, t: State)
    requires Sound(cfg, s) && FirstOk(s) && HttpStep(cfg, s, id, a) == Some(t)
    ensures id !in s.past.accepted
  {
  }

  lemma EnteringSelf(cfg: Config, s: State, id: JobId, a: Serve, t: State)
    requires HttpStep(cfg, s, id, a) == Some(t)
    requires id in s.requests && Entering(s.requests[id]) ==> id in s.audio
    ensures id in t.requests && Entering(t.requests[id]) ==> id in t.audio
  {
  }

  ghost predicate ClipsOk(cfg: Config, s: State) {
    Sound(cfg, s) && Owned(s) && LostOk(s.past) && HoldsOk(s) && NoLeak(s) && FirstOk(s)
  }

  lemma ClipsWork(cfg: Config, s: State, c: Consumer, w: Work, t: State)
    requires ClipsOk(cfg, s) && c in s.handlers && WorkStep(cfg, s, c, w) == Some(t)
    ensures Owned(t) && LostOk(t.past) && HoldsOk(t) && NoLeak(t) && FirstOk(t)
  {
    WorkMoves(cfg, s, c, w, t);
    HoldsWork(cfg, s, c, w, t);
    NoLeakWork(cfg, s, c, w, t);
    FirstWork(cfg, s, c, w, t);
    if Same(s, t) {
      SameKeeps(s, t);
    } else if Freed(s, t, WithHandler(c)) {
      FreedKeeps(s, t, WithHandler(c));
    } else {
      MovedKeeps(s, t, InStore(s.handlers[c].id), WithHandler(c));
    }
  }

  lemma ClipsHttp(cfg: Config, s: State, id: JobId, a: Serve, t: State)
    requires ClipsOk(cfg, s) && HttpStep(cfg, s, id, a) == Some(t)
    ensures Owned(t) && LostOk(t.past) && HoldsOk(t) && NoLeak(t) && FirstOk(t)
  {
    HttpMoves(cfg, s, id, a, t);
    HoldsHttp(cfg, s, id, a, t);
    NoLeakHttp(cfg, s, id, a, t);
    FirstHttp(cfg, s, id, a, t);
    if Same(s, t) {
      SameKeeps(s, t);
    } else if Freed(s, t, WithRequest(id)) {
      FreedKeeps(s, t, WithRequest(id));
    } else if Born(s, t, WithRequest(id)) {
      BornKeeps(s, t, WithRequest(id));
    } else if Moved(s, t, WithRequest(id), InStore(id)) {
      MovedKeeps(s, t, WithRequest(id), InStore(id));
    } else {
      MovedKeeps(s, t, InStore(id), WithRequest(id));
    }
  }

  lemma HomedStays(s: State, t: State, id: JobId)
    requires Homed(s, id) && t.requests == s.requests && t.past.sent == s.past.sent && t.db.entries == s.db.entries
    requires forall c :: c in s.handlers ==> c in t.handlers && t.handlers[c] == s.handlers[c]
    ensures Homed(t, id)
  {
    if c :| Attended(s, id, c) {
      assert Attended(t, id, c);
    }
  }

  lemma QuietSlots(s: State, t: State)
    requires forall c :: c in s.handlers ==> c in t.handlers && t.handlers[c] == s.handlers[c]
    requires forall c :: c in t.handlers && c !in s.handlers ==> t.handlers[c].pc.Getting? && t.handlers[c].held.None?
    requires t.audio == s.audio && t.requests == s.requests
    requires t.past.(handed := s.past.handed) == s.past
    ensures Same(s, t) && (HoldsOk(s) ==> HoldsOk(t))
  {
  }

  // Deliveries and the passing of time leave every clip where it is.
  lemma ClipsElsewhere(cfg: Config, s: State, a: Action, t: State)
    requires ClipsOk(cfg, s) && Next(cfg, s, a) == Some(t)
    requires a.Tick? || a.Stop? || a.Read? || a.Claim? || a.Begin?
    ensures Owned(t) && LostOk(t.past) && HoldsOk(t) && NoLeak(t) && FirstOk(t)
  {
    HandlersStay(cfg, s, a, t);
    QuietSlots(s, t);
    SameKeeps(s, t);
    forall id | id in t.audio
      ensures Homed(t, id)
    {
      HomedStays(s, t, id);
    }
  }

  lemma ReadStays(cfg: Config, s: State, w: nat, mid: MsgId, reply: Reply, t: State)
    requires ReadStep(cfg, s, w, mid, reply) == Some(t)
    ensures t.audio == s.audio && t.requests == s.requests && s.db.last <= t.db.last
    ensures t.past.(handed := s.past.handed) == s.past
  {
  }

  lemma HandlersStay(cfg: Config, s: State, a: Action, t: State)
    requires Next(cfg, s, a) == Some(t)
    requires a.Tick? || a.Stop? || a.Read? || a.Claim? || a.Begin?
    ensures forall c :: c in s.handlers ==> c in t.handlers && t.handlers[c] == s.handlers[c]
    ensures forall c :: c in t.handlers && c !in s.handlers ==> t.handlers[c].pc.Getting? && t.handlers[c].held.None?
    ensures t.audio == s.audio && t.requests == s.requests && t.db.entries == s.db.entries && s.db.last <= t.db.last
    ensures t.past.(handed := s.past.handed) == s.past
  {
    match a
    case Read(w, mid, reply) =>
      ReadFrame(cfg, s, w, mid, reply, t);
      ReadStays(cfg, s, w, mid, reply, t);
    case _ =>
  }

  lemma ClipsStep(cfg: Config, s: State, a: Action, t: State)
    requires ClipsOk(cfg, s) && Next(cfg, s, a) == Some(t)
    ensures ClipsOk(cfg, t)
  {
    SoundStep(cfg, s, a, t);
    match a
    case By(c, w) => ClipsWork(cfg, s, c, w, t);
    case Http(id, serve) => ClipsHttp(cfg, s, id, serve, t);
    case Crash => assert AllLost(s, t);
    case _ => ClipsElsewhere(cfg, s, a, t);
  }

  lemma {:induction false} ClipsRun(cfg: Config, p: Policy, s: State, acts: seq<Action>, t: State)
    requires ClipsOk(cfg, s) && Run(cfg, p, s, acts, t)
    ensures ClipsOk(cfg, t)
    decreases |acts|
  {
    if acts != [] {
      var n := Next(cfg, s, acts[0]).value;
      ClipsStep(cfg, s, acts[0], n);
      ClipsRun(cfg, p, n, acts[1..], t);
    }
  }

  lemma SendingHolds(cfg: Config, s: State)
    requires Owned(s) && HoldsOk(s)
    ensures forall c :: c in s.handlers && s.handlers[c].pc.Calling? && s.handlers[c].source == Some(Upload) ==>
              s.handlers[c].held.Some? && s.handlers[c].held.value !in s.past.zeroed
  {
    forall c | c in s.handlers && s.handlers[c].pc.Calling? && s.handlers[c].source == Some(Upload)
      ensures s.handlers[c].held.Some? && s.handlers[c].held.value !in s.past.zeroed
    {
      assert HoldOk(s.handlers[c]);
      assert Slot(s, WithHandler(c)).Some?;
    }
  }

  /** In every interleaving, including a worker and the claimer on the same job and a rollback
      racing a worker: a clip not yet zeroed (or lost with the process) is in the store under one
      job, or with one request, or with one handler; a zeroed one is nowhere; and an upload being
      sent to Whisper is held by its handler and has not been zeroed by anybody. */
  lemma ClipsHaveOneOwner(cfg: Config, acts: seq<Action>, s: State)
    requires Run(cfg, Any, START, acts, s)
    ensures forall k: ClipId :: Alive(s.past, k) ==> exists o :: Slot(s, o) == Some(k)
    ensures forall o, p :: Slot(s, o).Some? && Slot(s, o) == Slot(s, p) ==> o == p
    ensures forall o :: Slot(s, o).Some? ==> Slot(s, o).value !in s.past.zeroed
    ensures forall c :: c in s.handlers && s.handlers[c].pc.Calling? && s.handlers[c].source == Some(Upload) ==>
              s.handlers[c].held.Some? && s.handlers[c].held.value !in s.past.zeroed
  {
    ClipsRun(cfg, Any, START, acts, s);
    SendingHolds(cfg, s);
  }

  function StoredRequests(s: State): set<JobId> {
    set id | id in s.requests && Stored(s.requests[id])
  }

  function EntryJobs(s: State): set<JobId> {
    set m | m in s.db.entries :: s.db.entries[m]
  }

  function HandlerJobs(s: State): set<JobId> {
    set c | c in s.handlers :: s.handlers[c].id
  }

  lemma {:induction false} ImageSize<A, B>(m: map<A, B>, image: set<B>)
    requires image == set a | a in m :: m[a]
    ensures |image| <= |m|
    decreases |m|
  {
    if m.Keys != {} {
      var a :| a in m;
      var rest := m - {a};
      var less := set x | x in rest :: rest[x];
      ImageSize(rest, less);
      assert m.Keys == rest.Keys + {a};
      assert image == less + {m[a]};
    } else {
      assert image == {};
    }
  }

  lemma HomeIsKnown(cfg: Config, s: State, id: JobId)
    requires Sound(cfg, s) && Homed(s, id)
    ensures id in EntryJobs(s) || id in StoredRequests(s) || id in HandlerJobs(s)
  {
    if c :| Attended(s, id, c) {
      assert id in HandlerJobs(s);
    } else if id in s.past.sent && s.past.sent[id] in s.db.entries {
      var m := s.past.sent[id];
      assert s.past.sent[s.db.entries[m]] == m;
      assert s.db.entries[m] == id;
    }
  }

  /** No clip leaks: each one in the store belongs to an upload between Put and the end of its
      enqueue or rollback, to a stream entry, or to a live handler. So the store is never larger
      than these together, and it is empty when there are none. */
  lemma NoClipLeaks(cfg: Config, acts: seq<Action>, s: State)
    requires Run(cfg, Any, START, acts, s)
    ensures forall id :: id in s.audio ==> id in EntryJobs(s) || id in StoredRequests(s) || id in HandlerJobs(s)
    ensures |s.audio| <= |s.db.entries| + |StoredRequests(s)| + |s.handlers|
    ensures s.db.entries == map[] && s.requests == map[] && s.handlers == map[] ==> s.audio == map[]
  {
    ClipsRun(cfg, Any, START, acts, s);
    forall id | id in s.audio
      ensures id in EntryJobs(s) || id in StoredRequests(s) || id in HandlerJobs(s)
    {
      HomeIsKnown(cfg, s, id);
    }
    StoreSize(s);
  }

  lemma StoreSize(s: State)
    requires forall id :: id in s.audio ==> id in EntryJobs(s) || id in StoredRequests(s) || id in HandlerJobs(s)
    ensures |s.audio| <= |s.db.entries| + |StoredRequests(s)| + |s.handlers|
  {
    var all := EntryJobs(s) + StoredRequests(s) + HandlerJobs(s);
    SubsetSize(s.audio.Keys, all);
    ImageSize(s.db.entries, EntryJobs(s));
    JobsOf(s);
  }

  lemma JobsOf(s: State)
    ensures |HandlerJobs(s)| <= |s.handlers|
  {
    var ids := map c | c in s.handlers :: s.handlers[c].id;
    assert ids.Keys == s.handlers.Keys;
    ImageSize(ids, HandlerJobs(s));
  }

  /** An accepted upload has its clip in the store as long as its message is queued, and after that
      until the first handler has asked for it; so whichever handler asks first gets the clip. */
  lemma AudioReadyOnFirstUse(cfg: Config, acts: seq<Action>, s: State, id: JobId)
    requires Run(cfg, Any, START, acts, s) && id in s.past.accepted
    ensures id in s.past.sent
    ensures s.db.last < s.past.sent[id] ==> id !in s.past.touched
    ensures id !in s.past.touched ==> id in s.audio
    ensures forall c :: c in s.handlers && s.handlers[c].id == id && s.handlers[c].pc.Fetching?
              && s.handlers[c].source == Some(Upload) && id !in s.past.touched
              ==> FetchStep(s, c, false).handlers[c].held == Some(s.audio[id])
  {
    ClipsRun(cfg, Any, START, acts, s);
  }

  // Step `a` is a Take that hands clip `k` to a handler.
  predicate TakesClip(s: State, a: Action, k: ClipId) {
    && a.By? && a.work.Fetch? && a.who in s.handlers
    && s.handlers[a.who].pc.Fetching? && s.handlers[a.who].source == Some(Upload)
    && s.handlers[a.who].id in s.audio && s.audio[s.handlers[a.who].id] == k
  }

  ghost function TakesOf(cfg: Config, s: State, acts: seq<Action>, k: ClipId): nat
    decreases |acts|
  {
    if acts == [] || Next(cfg, s, acts[0]).None? then 0
    else (if TakesClip(s, acts[0], k) then 1 else 0) + TakesOf(cfg, Next(cfg, s, acts[0]).value, acts[1..], k)
  }

  // The clip has left the store, or was never going to enter it.
  ghost predicate OutOfStore(s: State, k: ClipId) {
    && k in s.past.clips
    && (forall id :: id in s.audio ==> s.audio[id] != k)
    && (forall id :: id in s.requests && s.requests[id].phase.Stashing? ==> s.requests[id].held != Some(k))
  }

  lemma OutStays(cfg: Config, s: State, a: Action, t: State, k: ClipId)
    requires OutOfStore(s, k) && Next(cfg, s, a) == Some(t)
    ensures OutOfStore(t, k)
  {
    match a
    case By(c, w) =>
      WorkFrame(cfg, s, c, w, t);
      WorkStore(cfg, s, c, w, t);
    case Http(id, serve) => OutHttp(cfg, s, id, serve, t, k);
    case Crash =>
    case _ => HandlersStay(cfg, s, a, t);
  }

  lemma OutHttp(cfg: Config, s: State, id: JobId, a: Serve, t: State, k: ClipId)
    requires OutOfStore(s, k) && HttpStep(cfg, s, id, a) == Some(t)
    ensures OutOfStore(t, k)
  {
    HttpOthers(cfg, s, id, a, t);
    ClipsStay(cfg, s, id, a, t);
    OutSelf(cfg, s, id, a, t, k);
  }

  lemma ClipsStay(cfg: Config, s: State, id: JobId, a: Serve, t: State)
    requires HttpStep(cfg, s, id, a) == Some(t)
    ensures s.past.clips <= t.past.clips
  {
  }

  lemma OutSelf(cfg: Config, s: State, id: JobId, a: Serve, t: State, k: ClipId)
    requires HttpStep(cfg, s, id, a) == Some(t) && k in s.past.clips
    requires id in s.audio ==> s.audio[id] != k
    requires id in s.requests && s.requests[id].phase.Stashing? ==> s.requests[id].held != Some(k)
    ensures id in t.audio ==> t.audio[id] != k
    ensures id in t.requests && t.requests[id].phase.Stashing? ==> t.requests[id].held != Some(k)
  {
    if a.Enqueue? {
      EnqueueLeaves(cfg, s, id, a.reply);
      EnqueuePast(cfg, s, id, a.reply);
    }
  }

  lemma {:induction false} NoTakesOutside(cfg: Config, s: State, acts: seq<Action>, k: ClipId)
    requires OutOfStore(s, k)
    ensures TakesOf(cfg, s, acts, k) == 0
    decreases |acts|
  {
    if acts != [] && Next(cfg, s, acts[0]).Some? {
      var n := Next(cfg, s, acts[0]).value;
      OutStays(cfg, s, acts[0], n, k);
      NoTakesOutside(cfg, n, acts[1..], k);
    }
  }

  lemma TakePutsOut(cfg: Config, s: State, a: Action, t: State, k: ClipId)
    requires ClipsOk(cfg, s) && TakesClip(s, a, k) && Next(cfg, s, a) == Some(t)
    ensures OutOfStore(t, k)
  {
    var c, id := a.who, s.handlers[a.who].id;
    WorkFrame(cfg, s, c, a.work, t);
    WorkStore(cfg, s, c, a.work, t);
    assert Slot(s, InStore(id)) == Some(k);
    forall i | i in t.audio
      ensures t.audio[i] != k
    {
      assert Slot(s, InStore(i)) == Some(s.audio[i]);
    }
    forall i | i in t.requests && t.requests[i].phase.Stashing?
      ensures t.requests[i].held != Some(k)
    {
      assert Slot(s, WithRequest(i)) == s.requests[i].held;
    }
  }

  /** Over a whole run at most one Take ever succeeds for a clip. */
  lemma {:induction false} TakenAtMostOnce(cfg: Config, s: State, acts: seq<Action>, k: ClipId)
    requires ClipsOk(cfg, s)
    ensures TakesOf(cfg, s, acts, k) <= 1
    decreases |acts|
  {
    if acts != [] && Next(cfg, s, acts[0]).Some? {
      var n := Next(cfg, s, acts[0]).value;
      if TakesClip(s, acts[0], k) {
        TakePutsOut(cfg, s, acts[0], n, k);
        NoTakesOutside(cfg, n, acts[1..], k);
      } else {
        ClipsStep(cfg, s, acts[0], n);
        TakenAtMostOnce(cfg, n, acts[1..], k);
      }
    }
  }
}
