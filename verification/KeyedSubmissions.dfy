// The keyed submission path as the code runs it when its lock is free: the dictionary of counted locks, the look-up, the
// creation and the record, in that order. Its effect is one served request; IdempotencyRuns shows the same of overlapping
// ones.
module KeyedSubmissions {
  import opened Options
  import opened Idempotency

  class LockEntry {
    var held: bool
    var count: int

    constructor ()
      ensures !held && count == 0
    {
      held, count := false, 0;
    }
  }

  class SubmissionDesk {
    var locks: map<string, LockEntry>
    var desk: Desk

    // Every entry in use is waited for or held by somebody.
    ghost predicate Valid()
      reads this, locks.Values
    {
      forall name :: name in locks ==> locks[name].count > 0
    }

    constructor (desk: Desk)
      ensures Valid() && locks == map[] && this.desk == desk
    {
      this.locks, this.desk := map[], desk;
    }

    method Enter(name: string) returns (entry: LockEntry)
      requires Valid()
      modifies this`locks, locks.Values
      ensures locks == old(locks)[name := entry]
      ensures name in old(locks) ==> entry == old(locks)[name] && entry.count == old(locks[name].count) + 1
                                     && entry.held == old(locks[name].held)
      ensures name !in old(locks) ==> fresh(entry) && entry.count == 1 && !entry.held
      ensures forall other :: other in old(locks) && old(locks)[other] != entry ==>
        old(locks)[other].count == old(locks[other].count) && old(locks)[other].held == old(locks[other].held)
    {
      if name in locks {
        entry := locks[name];
      } else {
        entry := new LockEntry();
        locks := locks[name := entry];
      }
      entry.count := entry.count + 1;
    }

    method Leave(name: string, entry: LockEntry)
      requires name in locks && locks[name] == entry && entry.count > 0
      modifies this`locks, entry`count
      ensures entry.count == old(entry.count) - 1
      ensures locks == if entry.count == 0 then old(locks) - {name} else old(locks)
    {
      entry.count := entry.count - 1;
      if entry.count == 0 {
        locks := locks - {name};
      }
    }

    // What is done under the lock. `id`: the id minted if one is needed; `accepted`: whether the submission succeeds;
    // `written`: whether its row could be recorded.
    method LookUpOrCreate(r: Request, id: Id, accepted: bool, written: bool) returns (outcome: Outcome)
      modifies this`desk
      ensures (desk, outcome) == Handle(old(desk), r, id, accepted, written)
    {
      var found := Look(desk, r);
      if found.Some? {
        return found.value;
      }
      if !accepted {
        return Failed;
      }
      desk := Make(desk, r, id);
      desk := Save(desk, r, id, written);
      return if written then Created(id) else Unrecorded(id);
    }

    method Submit(r: Request, id: Id, accepted: bool, written: bool) returns (outcome: Outcome)
      requires Valid() && (LockName(r) in locks ==> !locks[LockName(r)].held)
      modifies this, locks.Values
      ensures Valid() && locks == old(locks)
      ensures forall name :: name in locks ==>
        locks[name].count == old(locks[name].count) && locks[name].held == old(locks[name].held)
      ensures (desk, outcome) == Handle(old(desk), r, id, accepted, written)
    {
      var name := LockName(r);
      hide LockName, Handle;
      var entry := Enter(name);
      entry.held := true;
      outcome := LookUpOrCreate(r, id, accepted, written);
      entry.held := false;
      Leave(name, entry);
      assert old(locks)[name := entry] - {name} == old(locks) - {name};
    }
  }
}
