/** Cached witnesses under concurrent Process calls, periodic flushes and the flush at Close:
    each map operation, lock operation and step under the lock is one atomic step. */
module FlushRace {

  type Thread = nat
  type Id = nat      // the identity of a cached witness object

  datatype Holder = Free | By(t: Thread)

  /** A cached witness object: its mutex, the flushed flag, and how often it was uploaded, and
      refused by a plugin. */
  datatype Object = Object(observed: int, lock: Holder, flushed: bool, uploads: nat, refused: nat)

  /** What a thread does after queueUpload: a Process call returns, a flush deletes the key and
      walks on. */
  datatype Caller = ByProcess | ByFlush(key: string, cutoff: int)

  datatype Pc =
    | Done
    | LoadAndDelete(key: string, observed: int)
    | Insert(key: string, observed: int)
    | Walk(cutoff: int)                 // flushPairCache is between two entries
    | Lock(id: Id, caller: Caller)
    | Check(id: Id, caller: Caller)     // queueUpload reads the flushed flag
    | Send(id: Id, caller: Caller)      // queueUpload runs the plugins and adds the report
    | Mark(id: Id, caller: Caller)      // queueUpload's deferred write of the flag
    | Delete(id: Id, caller: Caller)    // only a flush deletes the key
    | Unlock(id: Id, caller: Caller)

  datatype System = System(cache: map<string, Id>, objects: map<Id, Object>, threads: map<Thread, Pc>)

  /** What the scheduler and the environment choose in one step. */
  datatype Choice = Choice(key: string, newId: Id, accepted: bool)

  function Goto(s: System, t: Thread, pc: Pc): System { s.(threads := s.threads[t := pc]) }

  function Put(s: System, id: Id, o: Object): System { s.(objects := s.objects[id := o]) }

  function IdsOf(pc: Pc): set<Id> {
    if pc.Lock? || pc.Check? || pc.Send? || pc.Mark? || pc.Delete? || pc.Unlock? then {pc.id} else {}
  }

  ghost predicate Closed(s: System) {
    && (forall k :: k in s.cache ==> s.cache[k] in s.objects)
    && (forall t :: t in s.threads ==> IdsOf(s.threads[t]) <= s.objects.Keys)
  }

  /** Whether thread `t` can take its next step: a taken mutex blocks, an object is new. */
  ghost predicate Enabled(s: System, t: Thread, c: Choice)
    requires Closed(s)
  {
    && t in s.threads
    && match s.threads[t]
       case Insert(_, _) => c.newId !in s.objects
       case Lock(id, _) => s.objects[id].lock.Free?
       case _ => true
  }

  function Step(s: System, t: Thread, c: Choice): System
    requires t in s.threads && IdsOf(s.threads[t]) <= s.objects.Keys
    requires forall k :: k in s.cache ==> s.cache[k] in s.objects
  {
    match s.threads[t]
    case Done => s
    case LoadAndDelete(key, observed) =>
      if key in s.cache then Goto(s.(cache := s.cache - {key}), t, Lock(s.cache[key], ByProcess))
      else Goto(s, t, Insert(key, observed))
    case Insert(key, observed) =>
      Goto(Put(s, c.newId, Object(observed, Free, false, 0, 0)).(cache := s.cache[key := c.newId]), t, Done)
    case Walk(cutoff) =>
      if c.key in s.cache then
        if s.objects[s.cache[c.key]].observed < cutoff then Goto(s, t, Lock(s.cache[c.key], ByFlush(c.key, cutoff)))
        else s
      else Goto(s, t, Done)
    case Lock(id, caller) => Goto(Put(s, id, s.objects[id].(lock := By(t))), t, Check(id, caller))
    case Check(id, caller) => Goto(s, t, if s.objects[id].flushed then Delete(id, caller) else Send(id, caller))
    case Send(id, caller) =>
      var o := s.objects[id];
      Goto(Put(s, id, if c.accepted then o.(uploads := o.uploads + 1) else o.(refused := o.refused + 1)), t, Mark(id, caller))
    case Mark(id, caller) => Goto(Put(s, id, s.objects[id].(flushed := true)), t, Delete(id, caller))
    case Delete(id, caller) =>
      Goto(if caller.ByFlush? then s.(cache := s.cache - {caller.key}) else s, t, Unlock(id, caller))
    case Unlock(id, caller) =>
      Goto(Put(s, id, s.objects[id].(lock := Free)), t, if caller.ByFlush? then Walk(caller.cutoff) else Done)
  }

  /** A call of Process or flushPairCache begins. */
  ghost predicate Begins(s: System, s': System, t: Thread) {
    && t !in s.threads
    && ( || (exists key, observed :: s' == Goto(s, t, LoadAndDelete(key, observed)))
         || (exists cutoff :: s' == Goto(s, t, Walk(cutoff))))
  }

  ghost predicate Next(s: System, s': System) {
    && Closed(s)
    && ( || (exists t :: Begins(s, s', t))
         || (exists t, c :: Enabled(s, t, c) && s' == Step(s, t, c)))
  }

  ghost predicate Behavior(b: seq<System>) {
    && b != [] && b[0] == System(map[], map[], map[])
    && (forall i :: 0 < i < |b| ==> Next(b[i - 1], b[i]))
  }

  /** An object is uploaded or refused at most once, exactly once when its flag is set, and not
      at all before unless the thread that holds its mutex is about to set it. */
  ghost predicate ObjectInv(o: Object) {
    && o.uploads + o.refused <= 1
    && (o.flushed ==> o.uploads + o.refused == 1)
    && (o.lock.Free? ==> o.flushed || o.uploads + o.refused == 0)
  }

  ghost predicate PcInv(s: System, t: Thread, pc: Pc)
    requires IdsOf(pc) <= s.objects.Keys
  {
    (pc.Check? || pc.Send? || pc.Mark? || pc.Delete? || pc.Unlock? ==>
      var o := s.objects[pc.id];
      && o.lock == By(t)
      && (pc.Check? ==> o.flushed || o.uploads + o.refused == 0)
      && (pc.Send? ==> !o.flushed && o.uploads + o.refused == 0)
      && (pc.Mark? ==> o.uploads + o.refused == 1)
      && (pc.Delete? || pc.Unlock? ==> o.flushed))
  }

  ghost predicate Inv(s: System) {
    && Closed(s)
    && (forall id :: id in s.objects ==> ObjectInv(s.objects[id]))
    && (forall t :: t in s.threads ==> PcInv(s, t, s.threads[t]))
  }

  /** A thread goes on without touching any object. */
  lemma GotoInv(s: System, cache: map<string, Id>, t: Thread, pc: Pc)
    requires Inv(s) && cache.Values <= s.objects.Keys && IdsOf(pc) <= s.objects.Keys && PcInv(s, t, pc)
    ensures Inv(Goto(s.(cache := cache), t, pc))
  {
    var s' := Goto(s.(cache := cache), t, pc);
    forall k | k in cache ensures cache[k] in s.objects {
      assert cache[k] in cache.Values;
    }
    forall u | u in s'.threads ensures PcInv(s', u, s'.threads[u]) {
      if u != t { assert PcInv(s, u, s.threads[u]); }
    }
  }

  lemma InsertInv(s: System, t: Thread, c: Choice)
    requires Inv(s) && Enabled(s, t, c) && s.threads[t].Insert?
    ensures Inv(Step(s, t, c))
  {
    var s' := Step(s, t, c);
    forall u | u in s'.threads ensures IdsOf(s'.threads[u]) <= s'.objects.Keys && PcInv(s', u, s'.threads[u]) {
      if u != t { assert PcInv(s, u, s.threads[u]); }
    }
  }

  /** A step that writes an object: only the holder of its mutex, or the one who takes it. */
  lemma WriteInv(s: System, t: Thread, c: Choice)
    requires Inv(s) && Enabled(s, t, c)
    requires s.threads[t].Lock? || s.threads[t].Send? || s.threads[t].Mark? || s.threads[t].Unlock?
    ensures Inv(Step(s, t, c))
  {
    var s' := Step(s, t, c);
    assert PcInv(s, t, s.threads[t]);
    assert ObjectInv(s.objects[s.threads[t].id]);
    forall u | u in s'.threads ensures PcInv(s', u, s'.threads[u]) {
      if u != t { assert PcInv(s, u, s.threads[u]); }
    }
  }

  lemma StepInv(s: System, t: Thread, c: Choice)
    requires Inv(s) && Enabled(s, t, c)
    ensures Inv(Step(s, t, c))
  {
    var pc, s' := s.threads[t], Step(s, t, c);
    assert PcInv(s, t, pc);
    if pc.Insert? {
      InsertInv(s, t, c);
    } else if pc.Lock? || pc.Send? || pc.Mark? || pc.Unlock? {
      WriteInv(s, t, c);
    } else {
      GotoInv(s, s'.cache, t, s'.threads[t]);
    }
  }

  lemma BeginInv(s: System, s': System, t: Thread)
    requires Inv(s) && Begins(s, s', t)
    ensures Inv(s')
  {
    GotoInv(s, s.cache, t, s'.threads[t]);
    assert s' == Goto(s.(cache := s.cache), t, s'.threads[t]);
  }

  lemma {:induction false} BehaviorInv(b: seq<System>, i: nat)
    requires Behavior(b) && i < |b|
    ensures Inv(b[i])
  {
    if i > 0 {
      BehaviorInv(b, i - 1);
      var s, s' := b[i - 1], b[i];
      assert Next(s, s');
      if t :| Begins(s, s', t) {
        BeginInv(s, s', t);
      } else {
        var t, c :| Enabled(s, t, c) && s' == Step(s, t, c);
        StepInv(s, t, c);
      }
    }
  }

  /** A thread that has been through queueUpload for a witness leaves it uploaded or refused, by
      this thread or an earlier one. */
  lemma DoneOnceQueued(b: seq<System>, i: nat, t: Thread)
    requires Behavior(b) && i < |b| && t in b[i].threads && (b[i].threads[t].Delete? || b[i].threads[t].Unlock?)
    ensures IdsOf(b[i].threads[t]) <= b[i].objects.Keys
    ensures var o := b[i].objects[b[i].threads[t].id];
            o.flushed && o.uploads + o.refused == 1
  {
    BehaviorInv(b, i);
    assert PcInv(b[i], t, b[i].threads[t]);
    assert ObjectInv(b[i].objects[b[i].threads[t].id]);
  }

  /** No cached witness is uploaded twice, and two threads are never inside queueUpload for the
      same witness. */
  lemma UploadedAtMostOnce(b: seq<System>, i: nat, id: Id, t: Thread, u: Thread)
    requires Behavior(b) && i < |b| && id in b[i].objects
    ensures b[i].objects[id].uploads <= 1
    ensures t in b[i].threads && u in b[i].threads && t != u &&
            (b[i].threads[t].Check? || b[i].threads[t].Send? || b[i].threads[t].Mark?) &&
            (b[i].threads[u].Check? || b[i].threads[u].Send? || b[i].threads[u].Mark?) ==>
              b[i].threads[t].id != b[i].threads[u].id
  {
    BehaviorInv(b, i);
    var s := b[i];
    assert ObjectInv(s.objects[id]);
    if t in s.threads && u in s.threads {
      assert PcInv(s, t, s.threads[t]) && PcInv(s, u, s.threads[u]);
    }
  }
}
