// The same requests as threads: look-up, creation and record under a lock per (organization, key), with the lock objects
// counted, shared and thrown away. Any number of threads, interleaved step by step.
module IdempotencyLocks {
  import opened Options
  import opened Idempotency

  type Tid = nat
  type EntryId = nat

  // One [lock, holders and waiters] list object.
  datatype Entry = Entry(holder: Option<Tid>, count: int)

  datatype Pc =
    | Start | SetDefault | Bump | Leave1         // first guard section
    | WaitLock | Looking | Creating | Saving(id: Id) | Unlock
    | WaitGuard2 | Drop | Erase | Leave2         // second guard section
    | Finished

  datatype Thread = Thread(req: Request, pc: Pc, entry: EntryId, outcome: Option<Outcome>)

  datatype Sys = Sys(guard: Option<Tid>, dict: map<string, EntryId>, heap: seq<Entry>, threads: map<Tid, Thread>, desk: Desk)

  datatype Step =
    | Arrive(req: Request)
    | Move(id: Id, good: bool)      // the thread's next step; `id` and `good` settle what a create or a save does
    | Vanish(id: Id)

  predicate Guarded(pc: Pc) { pc.SetDefault? || pc.Bump? || pc.Leave1? || pc.Drop? || pc.Erase? || pc.Leave2? }

  predicate InBody(pc: Pc) { pc.Looking? || pc.Creating? || pc.Saving? || pc.Unlock? }

  // Between the increment and the decrement.
  predicate Counted(pc: Pc) { pc.Leave1? || pc.WaitLock? || InBody(pc) || pc.WaitGuard2? || pc.Drop? }

  // Refers to a lock object that is, or is about to stop being, in the dictionary.
  predicate Attached(pc: Pc) { Counted(pc) || pc.Bump? || pc.Erase? }

  function Name(th: Thread): string { LockName(th.req) }

  predicate FreshId(s: Sys, id: Id) {
    id !in s.desk.made && id !in s.desk.strays && forall k :: k in s.desk.table ==> s.desk.table[k].id != id
  }

  predicate Enabled(s: Sys, t: Tid, step: Step) {
    match step
    case Arrive(req) => t !in s.threads && GoodKey(req.key)
    case Vanish(_) => true
    case Move(id, good) =>
      && t in s.threads && s.threads[t].pc != Finished
      && (s.threads[t].pc.Start? || s.threads[t].pc.WaitGuard2? ==> s.guard.None?)
      && (Attached(s.threads[t].pc) ==> s.threads[t].entry < |s.heap|)
      && (s.threads[t].pc.Erase? ==> Name(s.threads[t]) in s.dict)
      && (s.threads[t].pc.WaitLock? ==> s.heap[s.threads[t].entry].holder.None?)
      && (s.threads[t].pc.Creating? ==> FreshId(s, id))
  }

  function Put(s: Sys, t: Tid, th: Thread): Sys { s.(threads := s.threads[t := th]) }

  function Go(s: Sys, t: Tid, pc: Pc): Sys
    requires t in s.threads
  {
    Put(s, t, s.threads[t].(pc := pc))
  }

  function Do(s: Sys, t: Tid, step: Step): Sys
    requires Enabled(s, t, step)
  {
    match step
    case Arrive(req) => Put(s, t, Thread(req, Start, 0, None))
    case Vanish(id) => s.(desk := s.desk.(gone := s.desk.gone + {id}))
    case Move(id, good) =>
      var th := s.threads[t];
      match th.pc
      case Start => Go(s, t, SetDefault).(guard := Some(t))
      case SetDefault =>
        if Name(th) in s.dict then Put(s, t, th.(pc := Bump, entry := s.dict[Name(th)]))
        else Put(s, t, th.(pc := Bump, entry := |s.heap|))
               .(dict := s.dict[Name(th) := |s.heap|], heap := s.heap + [Entry(None, 0)])
      case Bump => Go(s, t, Leave1).(heap := s.heap[th.entry := s.heap[th.entry].(count := s.heap[th.entry].count + 1)])
      case Leave1 => Go(s, t, WaitLock).(guard := None)
      case WaitLock => Go(s, t, Looking).(heap := s.heap[th.entry := s.heap[th.entry].(holder := Some(t))])
      case Looking =>
        var found := Look(s.desk, th.req);
        if found.Some? then Put(s, t, th.(pc := Unlock, outcome := found)) else Go(s, t, Creating)
      case Creating =>
        if good then Go(s, t, Saving(id)).(desk := Make(s.desk, th.req, id))
        else Put(s, t, th.(pc := Unlock, outcome := Some(Failed)))
      case Saving(made) =>
        Put(s, t, th.(pc := Unlock, outcome := Some(if good then Created(made) else Unrecorded(made))))
          .(desk := Save(s.desk, th.req, made, good))
      case Unlock => Go(s, t, WaitGuard2).(heap := s.heap[th.entry := s.heap[th.entry].(holder := None)])
      case WaitGuard2 => Go(s, t, Drop).(guard := Some(t))
      case Drop => Go(s, t, Erase).(heap := s.heap[th.entry := s.heap[th.entry].(count := s.heap[th.entry].count - 1)])
      case Erase =>
        if s.heap[th.entry].count == 0 then Go(s, t, Leave2).(dict := s.dict - {Name(th)}) else Go(s, t, Leave2)
      case Leave2 => Go(s, t, Finished).(guard := None)
      case Finished => s
  }

  // A server that has just started: no threads or locks, and whatever rows earlier runs left behind.
  predicate Initial(s: Sys) {
    s.guard == None && s.dict == map[] && s.heap == [] && s.threads == map[]
    && s.desk.made == map[] && s.desk.strays == {}
  }

  // ------------------------------------------------------------------ lock safety

  function CountedOn(threads: map<Tid, Thread>, e: EntryId): set<Tid> {
    set t | t in threads && Counted(threads[t].pc) && threads[t].entry == e
  }

  ghost predicate ThreadOk(s: Sys, t: Tid) {
    t in s.threads ==>
      var th := s.threads[t];
      && (Guarded(th.pc) <==> s.guard == Some(t))
      && GoodKey(th.req.key)
      && (Attached(th.pc) ==> Name(th) in s.dict && s.dict[Name(th)] == th.entry && th.entry < |s.heap|)
      && (Attached(th.pc) ==> (InBody(th.pc) <==> s.heap[th.entry].holder == Some(t)))
  }

  // The count of an entry in the dictionary is the number of threads between the two guard sections, and it is zero
  // only inside one of them.
  ghost predicate EntryOk(s: Sys, name: string) {
    name in s.dict ==>
      var e := s.dict[name];
      && e < |s.heap|
      && s.heap[e].count == |CountedOn(s.threads, e)|
      && (s.heap[e].holder.Some? ==> s.heap[e].holder.value in CountedOn(s.threads, e)
                                     && InBody(s.threads[s.heap[e].holder.value].pc))
      && (CountedOn(s.threads, e) == {} ==>
            s.guard.Some? && s.guard.value in s.threads && s.threads[s.guard.value].entry == e
            && (s.threads[s.guard.value].pc.Bump? || s.threads[s.guard.value].pc.Erase?))
  }

  ghost predicate LockInv(s: Sys) {
    && (s.guard.Some? ==> s.guard.value in s.threads)
    && (forall t :: ThreadOk(s, t))
    && (forall name :: EntryOk(s, name))
    && (forall a, b :: a in s.dict && b in s.dict && s.dict[a] == s.dict[b] ==> a == b)
  }

  lemma CountedAfter(threads: map<Tid, Thread>, t: Tid, th: Thread, e: EntryId)
    ensures var was, now := CountedOn(threads, e), CountedOn(threads[t := th], e);
      && now == (if Counted(th.pc) && th.entry == e then was + {t} else was - {t})
      && |now| == |was| + (if t in now then 1 else 0) - (if t in was then 1 else 0)
  {
    var was, now := CountedOn(threads, e), CountedOn(threads[t := th], e);
    assert now == if Counted(th.pc) && th.entry == e then was + {t} else was - {t};
  }

  lemma SelfStaysOk(s: Sys, t: Tid, step: Step)
    requires LockInv(s) && Enabled(s, t, step) && step.Move?
    ensures ThreadOk(Do(s, t, step), t)
  {
    hide CountedOn, Look, Save, Make;
    assert ThreadOk(s, t) && EntryOk(s, Name(s.threads[t]));
  }

  // Nobody else refers to an entry that is being erased.
  lemma ErasedAlone(s: Sys, t: Tid, u: Tid)
    requires LockInv(s) && t in s.threads && s.threads[t].pc.Erase? && u in s.threads && u != t
    requires s.threads[t].entry < |s.heap| && s.heap[s.threads[t].entry].count == 0
    ensures Attached(s.threads[u].pc) ==> Name(s.threads[u]) != Name(s.threads[t])
  {
    assert ThreadOk(s, t) && ThreadOk(s, u) && EntryOk(s, Name(s.threads[t]));
    CountedMembers(s.threads, s.threads[t].entry);
  }

  lemma OtherStaysOk(s: Sys, t: Tid, step: Step, u: Tid)
    requires LockInv(s) && Enabled(s, t, step) && step.Move? && u != t
    ensures ThreadOk(Do(s, t, step), u)
  {
    hide CountedOn, Look, Save, Make, EntryOk, LockName;
    assert ThreadOk(s, t) && ThreadOk(s, u);
    if u in s.threads {
      var th := s.threads[t];
      if th.pc.Erase? && s.heap[th.entry].count == 0 { ErasedAlone(s, t, u); }
    }
  }

  lemma NobodyOnFresh(s: Sys)
    requires LockInv(s)
    ensures CountedOn(s.threads, |s.heap|) == {}
  {
    forall u | u in s.threads && Counted(s.threads[u].pc) ensures s.threads[u].entry < |s.heap| {
      assert ThreadOk(s, u);
    }
  }

  // What a move does to the locks, away from the moving thread's own name ...
  lemma MoveElsewhere(s: Sys, t: Tid, step: Step, name: string)
    requires Enabled(s, t, step) && step.Move? && name in s.dict && Name(s.threads[t]) != name
    ensures var s' := Do(s, t, step);
      && s'.threads.Keys == s.threads.Keys && s'.threads == s.threads[t := s'.threads[t]]
      && name in s'.dict && s'.dict[name] == s.dict[name] && |s.heap| <= |s'.heap|
      && (forall e :: 0 <= e < |s.heap| && (Attached(s.threads[t].pc) ==> e != s.threads[t].entry) ==>
            s'.heap[e] == s.heap[e])
      && (Attached(s'.threads[t].pc) ==>
            || (Attached(s.threads[t].pc) && s'.threads[t].entry == s.threads[t].entry)
            || (Name(s.threads[t]) in s.dict && s'.threads[t].entry == s.dict[Name(s.threads[t])])
            || s'.threads[t].entry == |s.heap|)
      && (s'.guard != s.guard ==> s.guard.None? || Guarded(s.threads[t].pc))
  {
    hide Look, Save, Make, LockName;
  }

  // ... and at it.
  lemma MoveHere(s: Sys, t: Tid, step: Step)
    requires Enabled(s, t, step) && step.Move?
    ensures var s' := Do(s, t, step); var th, th' := s.threads[t], s'.threads[t]; var name := Name(th);
      && s'.threads == s.threads[t := th'] && Name(th') == name
      && (Attached(th.pc) && Attached(th'.pc) ==>
            && th'.entry == th.entry && |s'.heap| == |s.heap|
            && s'.heap[th.entry].count == s.heap[th.entry].count
                 + (if Counted(th'.pc) then 1 else 0) - (if Counted(th.pc) then 1 else 0)
            && s'.heap[th.entry].holder in {s.heap[th.entry].holder, Some(t), None}
            && (s'.guard == s.guard || Counted(th'.pc)) && !th'.pc.Bump?
            && s'.dict == s.dict)
      && (!Attached(th.pc) && !Attached(th'.pc) ==>
            s'.dict == s.dict && s'.heap == s.heap && (s'.guard == s.guard || s.guard.None? || Guarded(th.pc)))
      && (!Attached(th.pc) && Attached(th'.pc) ==>
            && th.pc.SetDefault? && th'.pc.Bump? && s'.guard == s.guard
            && (if name in s.dict then s'.dict == s.dict && s'.heap == s.heap && th'.entry == s.dict[name]
                else th'.entry == |s.heap| && s'.dict == s.dict[name := |s.heap|] && s'.heap == s.heap + [Entry(None, 0)]))
      && (Attached(th.pc) && !Attached(th'.pc) ==>
            && th.pc.Erase? && s'.heap == s.heap && s'.guard == s.guard
            && (if s.heap[th.entry].count == 0 then name !in s'.dict else s'.dict == s.dict))
  {
    hide Look, Save, Make, LockName;
  }

  // An entry the moving thread does not refer to.
  lemma OtherEntryStaysOk(s: Sys, t: Tid, step: Step, name: string)
    requires LockInv(s) && Enabled(s, t, step) && step.Move? && name in s.dict && Name(s.threads[t]) != name
    ensures EntryOk(Do(s, t, step), name)
  {
    hide CountedOn, Do, LockName, Enabled;
    MoveElsewhere(s, t, step, name);
    var s' := Do(s, t, step);
    var th, e := s.threads[t], s.dict[name];
    assert ThreadOk(s, t) && EntryOk(s, name);
    assert Name(th) in s.dict ==> s.dict[Name(th)] != e;
    CountedAfter(s.threads, t, s'.threads[t], e);
    CountedMembers(s.threads, e);
    assert CountedOn(s'.threads, e) == CountedOn(s.threads, e);
    if CountedOn(s.threads, e) == {} {
      assert ThreadOk(s, s.guard.value);
    }
  }

  lemma OwnEntryStaying(s: Sys, t: Tid, step: Step)
    requires LockInv(s) && Enabled(s, t, step) && step.Move?
    requires Attached(s.threads[t].pc) && Attached(Do(s, t, step).threads[t].pc)
    ensures EntryOk(Do(s, t, step), Name(s.threads[t]))
  {
    var s' := Do(s, t, step);
    var th, th', e := s.threads[t], s'.threads[t], s.threads[t].entry;
    assert ThreadOk(s, t) && EntryOk(s, Name(th));
    hide CountedOn, Do, LockName, Enabled, LockInv;
    SelfStaysOk(s, t, step);
    MoveHere(s, t, step);
    CountedAfter(s.threads, t, th', e);
    CountedMembers(s.threads, e);
    CountedMembers(s'.threads, e);
  }

  lemma OwnEntryJoining(s: Sys, t: Tid, step: Step)
    requires LockInv(s) && Enabled(s, t, step) && step.Move?
    requires !Attached(s.threads[t].pc) && Attached(Do(s, t, step).threads[t].pc)
    ensures EntryOk(Do(s, t, step), Name(s.threads[t]))
  {
    var s' := Do(s, t, step);
    var th, th', name := s.threads[t], s'.threads[t], Name(s.threads[t]);
    assert ThreadOk(s, t) && EntryOk(s, name);
    hide CountedOn, Do, LockName, Enabled, LockInv;
    MoveHere(s, t, step);
    var e := s'.dict[name];
    CountedAfter(s.threads, t, th', e);
    CountedMembers(s.threads, e);
    if name !in s.dict { NobodyOnFresh(s); }
  }

  lemma OwnEntryLeaving(s: Sys, t: Tid, step: Step)
    requires LockInv(s) && Enabled(s, t, step) && step.Move?
    requires Attached(s.threads[t].pc) && !Attached(Do(s, t, step).threads[t].pc)
    ensures EntryOk(Do(s, t, step), Name(s.threads[t]))
  {
    var s' := Do(s, t, step);
    var th, th', name := s.threads[t], s'.threads[t], Name(s.threads[t]);
    assert ThreadOk(s, t) && EntryOk(s, name);
    hide CountedOn, Do, LockName, Enabled, LockInv;
    MoveHere(s, t, step);
    CountedAfter(s.threads, t, th', th.entry);
    CountedMembers(s.threads, th.entry);
  }

  lemma OwnEntryOutside(s: Sys, t: Tid, step: Step)
    requires LockInv(s) && Enabled(s, t, step) && step.Move?
    requires !Attached(s.threads[t].pc) && !Attached(Do(s, t, step).threads[t].pc)
    ensures EntryOk(Do(s, t, step), Name(s.threads[t]))
  {
    var s' := Do(s, t, step);
    var th, th', name := s.threads[t], s'.threads[t], Name(s.threads[t]);
    assert ThreadOk(s, t) && EntryOk(s, name);
    hide CountedOn, Do, LockName, Enabled, LockInv;
    MoveHere(s, t, step);
    if name in s.dict {
      CountedAfter(s.threads, t, th', s.dict[name]);
      CountedMembers(s.threads, s.dict[name]);
    }
  }

  lemma OwnEntryStaysOk(s: Sys, t: Tid, step: Step)
    requires LockInv(s) && Enabled(s, t, step) && step.Move?
    ensures EntryOk(Do(s, t, step), Name(s.threads[t]))
  {
    hide EntryOk, LockInv, Attached;
    if Attached(s.threads[t].pc) {
      if Attached(Do(s, t, step).threads[t].pc) { OwnEntryStaying(s, t, step); } else { OwnEntryLeaving(s, t, step); }
    } else {
      if Attached(Do(s, t, step).threads[t].pc) { OwnEntryJoining(s, t, step); } else { OwnEntryOutside(s, t, step); }
    }
  }

  lemma NoEntry(s: Sys, t: Tid, step: Step, name: string)
    requires Enabled(s, t, step) && step.Move? && name !in s.dict && name != Name(s.threads[t])
    ensures EntryOk(Do(s, t, step), name)
  {
  }

  lemma EntryStaysOk(s: Sys, t: Tid, step: Step, name: string)
    requires LockInv(s) && Enabled(s, t, step) && step.Move?
    ensures EntryOk(Do(s, t, step), name)
  {
    hide CountedOn, Look, Save, Make, LockName, EntryOk, ThreadOk;
    if name == Name(s.threads[t]) {
      OwnEntryStaysOk(s, t, step);
    } else if name in s.dict {
      OtherEntryStaysOk(s, t, step, name);
    } else {
      NoEntry(s, t, step, name);
    }
  }

  lemma CountedMembers(threads: map<Tid, Thread>, e: EntryId)
    ensures forall t :: t in CountedOn(threads, e) <==>
      t in threads && Counted(threads[t].pc) && threads[t].entry == e
  {
  }

  lemma MoveLockInv(s: Sys, t: Tid, step: Step)
    requires LockInv(s) && Enabled(s, t, step) && step.Move?
    ensures LockInv(Do(s, t, step))
  {
    hide CountedOn, ThreadOk, Look, Save, Make, LockName;
    var s' := Do(s, t, step);
    forall u ensures ThreadOk(s', u) {
      if u == t { SelfStaysOk(s, t, step); } else { OtherStaysOk(s, t, step, u); }
    }
    forall name ensures EntryOk(s', name) { EntryStaysOk(s, t, step, name); }
    forall a | a in s.dict ensures s.dict[a] < |s.heap| { assert EntryOk(s, a); }
  }

  lemma ArriveLockInv(s: Sys, t: Tid, step: Step)
    requires LockInv(s) && Enabled(s, t, step) && step.Arrive?
    ensures LockInv(Do(s, t, step))
  {
    var s' := Do(s, t, step);
    forall u ensures ThreadOk(s', u) { hide LockName; assert ThreadOk(s, u) && ThreadOk(s, t); }
    forall name ensures EntryOk(s', name) {
      assert EntryOk(s, name);
      if name in s.dict {
        CountedAfter(s.threads, t, s'.threads[t], s.dict[name]);
        hide CountedOn, LockName, ThreadOk;
        CountedMembers(s.threads, s.dict[name]);
      }
    }
    hide CountedOn, LockName, ThreadOk, EntryOk;
  }

  lemma VanishLockInv(s: Sys, t: Tid, step: Step)
    requires LockInv(s) && Enabled(s, t, step) && step.Vanish?
    ensures LockInv(Do(s, t, step))
  {
    hide CountedOn, LockName;
    forall u ensures ThreadOk(Do(s, t, step), u) { assert ThreadOk(s, u); }
    forall name ensures EntryOk(Do(s, t, step), name) { assert EntryOk(s, name); }
  }

  lemma StepLockInv(s: Sys, t: Tid, step: Step)
    requires LockInv(s) && Enabled(s, t, step)
    ensures LockInv(Do(s, t, step))
  {
    hide LockInv, Do, Enabled;
    match step {
      case Arrive(_) => ArriveLockInv(s, t, step);
      case Move(_, _) => MoveLockInv(s, t, step);
      case Vanish(_) => VanishLockInv(s, t, step);
    }
  }

  // ------------------------------------------------------------------ what the locks give

  // All bodies of one name exclude one another.
  lemma OneInBody(s: Sys, t: Tid, u: Tid)
    requires LockInv(s) && t in s.threads && u in s.threads && InBody(s.threads[t].pc) && InBody(s.threads[u].pc)
    requires Name(s.threads[t]) == Name(s.threads[u])
    ensures t == u
  {
    assert ThreadOk(s, t) && ThreadOk(s, u);
  }

  ghost function Between(s: Sys, name: string): set<Tid> {
    set t | t in s.threads && Counted(s.threads[t].pc) && Name(s.threads[t]) == name
  }

  // Whenever the guard is free: a name is in the dictionary exactly while threads with that name are between their two
  // guard sections; the count is their number; they all refer to that one entry; different names have different
  // entries; and only a thread among them holds its lock.
  lemma LocksAreExact(s: Sys, name: string)
    requires LockInv(s) && s.guard.None?
    ensures name in s.dict <==> Between(s, name) != {}
    ensures name in s.dict ==>
      && s.dict[name] < |s.heap|
      && s.heap[s.dict[name]].count == |Between(s, name)|
      && (forall t :: t in Between(s, name) ==> s.threads[t].entry == s.dict[name])
      && (s.heap[s.dict[name]].holder.Some? ==> s.heap[s.dict[name]].holder.value in Between(s, name))
    ensures forall other :: name in s.dict && other in s.dict && other != name ==> s.dict[other] != s.dict[name]
  {
    forall t | t in s.threads && Counted(s.threads[t].pc)
      ensures Name(s.threads[t]) in s.dict && s.dict[Name(s.threads[t])] == s.threads[t].entry
    {
      assert ThreadOk(s, t);
    }
    if name in s.dict {
      assert EntryOk(s, name);
      assert Between(s, name) == CountedOn(s.threads, s.dict[name]);
    }
  }

  // Nothing is left behind once every thread is through.
  lemma NothingLeftBehind(s: Sys)
    requires LockInv(s) && forall t :: t in s.threads ==> s.threads[t].pc.Finished?
    ensures s.dict == map[] && s.guard.None?
  {
    assert s.guard.Some? ==> ThreadOk(s, s.guard.value);
    forall name ensures name !in s.dict { LocksAreExact(s, name); }
  }

  // No deadlock: while a thread is unfinished, some thread can take its next step.
  lemma SomeoneCanMove(s: Sys, t: Tid, id: Id) returns (u: Tid)
    requires LockInv(s) && t in s.threads && !s.threads[t].pc.Finished? && FreshId(s, id)
    ensures Enabled(s, u, Move(id, true)) && u in s.threads && !s.threads[u].pc.Finished?
  {
    u := t;
    if s.guard.Some? {
      u := s.guard.value;
    } else if s.threads[t].pc.WaitLock? {
      assert ThreadOk(s, t) && EntryOk(s, Name(s.threads[t]));
      var e := s.heap[s.threads[t].entry];
      if e.holder.Some? { u := e.holder.value; }
    }
    assert ThreadOk(s, u);
  }
}
