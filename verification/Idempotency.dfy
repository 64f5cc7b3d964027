// Submissions with an Idempotency-Key, one whole request at a time: look up the key, create, record the key.
module Idempotency {
  import opened Options

  datatype Kind = JobSubmission | WorkflowSubmission

  // `mark` is the fingerprint of what the request asks for.
  datatype Request = Request(kind: Kind, org: Option<string>, key: string, mark: string)

  // A row of the job table or of the workflow table; no organization is stored as "".
  datatype Slot = Slot(kind: Kind, org: string, key: string)

  type Id = nat

  // Rows written by earlier versions have no fingerprint.
  datatype Record = Record(id: Id, mark: Option<string>)

  function OrgText(org: Option<string>): string { if org.Some? then org.value else "" }

  function SlotOf(r: Request): Slot { Slot(r.kind, OrgText(r.org), r.key) }

  function LockKey(r: Request): string {
    if r.kind == WorkflowSubmission then "workflow:" + r.key else r.key
  }

  function LockName(r: Request): string { OrgText(r.org) + "\0" + LockKey(r) }

  // What the key check accepts.
  predicate GoodKey(key: string) { 0 < |key| <= 255 && '\0' !in key }

  lemma {:induction false} SplitAtLastNul(a: string, x: string, b: string, y: string)
    requires '\0' !in x && '\0' !in y && a + "\0" + x == b + "\0" + y
    ensures a == b && x == y
    decreases |x|
  {
    var s, t := a + "\0" + x, b + "\0" + y;
    assert s[|s| - 1] == if x == "" then '\0' else x[|x| - 1];
    assert t[|t| - 1] == if y == "" then '\0' else y[|y| - 1];
    assert (x != "" ==> x[|x| - 1] in x) && (y != "" ==> y[|y| - 1] in y);
    if x != "" && y != "" {
      assert s[..|s| - 1] == a + "\0" + x[..|x| - 1] && t[..|t| - 1] == b + "\0" + y[..|y| - 1];
      SplitAtLastNul(a, x[..|x| - 1], b, y[..|y| - 1]);
    } else {
      assert a == s[..|s| - 1] && b == t[..|t| - 1];
    }
  }

  // Two requests wait for one another exactly when they have the same organization and the same lock key; in
  // particular whenever they concern the same row.
  lemma LockNameSeparates(r: Request, q: Request)
    requires GoodKey(r.key) && GoodKey(q.key)
    ensures LockName(r) == LockName(q) <==> OrgText(r.org) == OrgText(q.org) && LockKey(r) == LockKey(q)
    ensures SlotOf(r) == SlotOf(q) ==> LockName(r) == LockName(q)
  {
    if LockName(r) == LockName(q) {
      assert '\0' !in LockKey(r) && '\0' !in LockKey(q);
      SplitAtLastNul(OrgText(r.org), LockKey(r), OrgText(q.org), LockKey(q));
    }
  }

  // table: the durable rows; made: every job or workflow created here, with the row it was created for; strays:
  // those whose row could not be written; gone: workflows the engine no longer knows.
  datatype Desk = Desk(table: map<Slot, Record>, made: map<Id, Slot>, strays: set<Id>, gone: set<Id>)

  datatype Outcome = Created(id: Id) | Replayed(id: Id) | Mismatch | Failed | Unrecorded(id: Id)

  // What the look-up under the lock decides: Some outcome, or None to create.
  function Look(d: Desk, r: Request): Option<Outcome> {
    var slot := SlotOf(r);
    if slot !in d.table then None
    else
      var record := d.table[slot];
      if record.mark.Some? && record.mark.value != "" && record.mark.value != r.mark then Some(Mismatch)
      else if r.kind == WorkflowSubmission && record.id in d.gone then None
      else Some(Replayed(record.id))
  }

  function Make(d: Desk, r: Request, id: Id): Desk { d.(made := d.made[id := SlotOf(r)]) }

  // Recording inserts the row; when there is one already the insert fails and the old row stays.
  function Save(d: Desk, r: Request, id: Id, written: bool): Desk {
    if !written then d.(strays := d.strays + {id})
    else if SlotOf(r) in d.table then d
    else d.(table := d.table[SlotOf(r) := Record(id, Some(r.mark))])
  }

  // A whole keyed request: `id` is the id minted for it, `accepted` whether the submission succeeded, `written`
  // whether the row could be recorded.
  function Handle(d: Desk, r: Request, id: Id, accepted: bool, written: bool): (Desk, Outcome) {
    var found := Look(d, r);
    if found.Some? then (d, found.value)
    else if !accepted then (d, Failed)
    else (Save(Make(d, r, id), r, id, written), if written then Created(id) else Unrecorded(id))
  }

  // ------------------------------------------------------------------ one request after another

  // A keyed request by some thread, or the loss of a workflow.
  datatype Call = Call(caller: nat, req: Request, id: Id, accepted: bool, written: bool) | Lost(id: Id)

  function Answer(d: Desk, c: Call): Outcome
    requires c.Call?
  {
    Handle(d, c.req, c.id, c.accepted, c.written).1
  }

  function Serve(d: Desk, c: Call): Desk {
    match c
    case Call(_, req, id, accepted, written) => Handle(d, req, id, accepted, written).0
    case Lost(id) => d.(gone := d.gone + {id})
  }

  function Replay(d: Desk, calls: seq<Call>): Desk {
    if calls == [] then d else Serve(Replay(d, calls[..|calls| - 1]), calls[|calls| - 1])
  }

  function AnswerTo(d: Desk, calls: seq<Call>, i: nat): Outcome
    requires i < |calls| && calls[i].Call?
  {
    Answer(Replay(d, calls[..i]), calls[i])
  }

  // The key has a row, and (for a workflow) what the row names still exists.
  predicate Settled(d: Desk, slot: Slot) {
    slot in d.table && (slot.kind == WorkflowSubmission ==> d.table[slot].id !in d.gone)
  }

  predicate SameMark(record: Record, mark: string) {
    record.mark.Some? && record.mark.value != "" ==> record.mark.value == mark
  }

  lemma {:induction false} ReplayInTwo(d: Desk, first: seq<Call>, more: seq<Call>)
    ensures Replay(d, first + more) == Replay(Replay(d, first), more)
    decreases |more|
  {
    if more == [] {
      assert first + more == first;
    } else {
      assert (first + more)[..|first + more| - 1] == first + more[..|more| - 1];
      ReplayInTwo(d, first, more[..|more| - 1]);
    }
  }

  // Rows are written once, and workflows stay lost.
  lemma {:induction false} RowsStay(d: Desk, calls: seq<Call>)
    ensures forall slot :: slot in d.table ==>
      slot in Replay(d, calls).table && Replay(d, calls).table[slot] == d.table[slot]
    ensures d.gone <= Replay(d, calls).gone
  {
    if calls != [] { RowsStay(d, calls[..|calls| - 1]); }
  }

  // Once a key has its row, and as long as what it names is not lost, every request with the key gets the recorded id
  // when it asks for the same thing, a mismatch when it does not, and creates nothing.
  lemma SettledKey(d: Desk, calls: seq<Call>, slot: Slot, i: nat)
    requires Settled(Replay(d, calls), slot) && slot in d.table
    requires i < |calls| && calls[i].Call? && SlotOf(calls[i].req) == slot
    ensures AnswerTo(d, calls, i) == if SameMark(d.table[slot], calls[i].req.mark) then Replayed(d.table[slot].id) else Mismatch
    ensures Replay(d, calls[..i + 1]) == Replay(d, calls[..i])
  {
    RowsStay(d, calls[..i]);
    assert calls == calls[..i] + calls[i..];
    ReplayInTwo(d, calls[..i], calls[i..]);
    RowsStay(Replay(d, calls[..i]), calls[i..]);
    assert calls[..i + 1][..i] == calls[..i];
  }

  // When one call creates under a key and the row still names something at the end, every other call with the key is
  // answered from that row if it comes later, and created nothing that was recorded if it came earlier.
  lemma OneCreator(d: Desk, calls: seq<Call>, a: nat, b: nat)
    requires a < |calls| && b < |calls| && a != b && calls[a].Call? && calls[b].Call?
    requires SlotOf(calls[b].req) == SlotOf(calls[a].req) && Settled(Replay(d, calls), SlotOf(calls[a].req))
    requires AnswerTo(d, calls, a).Created?
    ensures b < a ==> AnswerTo(d, calls, b).Failed? || AnswerTo(d, calls, b).Unrecorded?
    ensures a < b ==>
      (AnswerTo(d, calls, b) ==
       if SameMark(Record(calls[a].id, Some(calls[a].req.mark)), calls[b].req.mark) then Replayed(calls[a].id) else Mismatch)
    ensures AnswerTo(d, calls, a).id == calls[a].id
    ensures Replay(d, calls).table[SlotOf(calls[a].req)] == Record(calls[a].id, Some(calls[a].req.mark))
  {
    var slot := SlotOf(calls[a].req);
    RowWritten(d, calls, a);
    if b < a {
      if AnswerTo(d, calls, b).Created? { RowWritten(d, calls, b); }
      if slot in Replay(d, calls[..b + 1]).table { SettledAfter(d, calls, slot, b + 1, a); }
      assert calls[..b + 1][..b] == calls[..b];
    } else {
      SettledAfter(d, calls, slot, a + 1, b);
    }
  }

  // A creation writes the row, which is there for good.
  lemma RowWritten(d: Desk, calls: seq<Call>, a: nat)
    requires a < |calls| && calls[a].Call? && AnswerTo(d, calls, a).Created?
    requires Settled(Replay(d, calls), SlotOf(calls[a].req))
    ensures SlotOf(calls[a].req) in Replay(d, calls[..a + 1]).table
    ensures Replay(d, calls[..a + 1]).table[SlotOf(calls[a].req)] == Record(calls[a].id, Some(calls[a].req.mark))
    ensures Replay(d, calls).table[SlotOf(calls[a].req)] == Record(calls[a].id, Some(calls[a].req.mark))
  {
    var now := Replay(d, calls[..a + 1]);
    assert calls == calls[..a + 1] + calls[a + 1..] && calls[..a + 1][..a] == calls[..a];
    ReplayInTwo(d, calls[..a + 1], calls[a + 1..]);
    RowsStay(now, calls[a + 1..]);
    RowsStay(Replay(d, calls[..a]), [calls[a]]);
    ReplayInTwo(d, calls[..a], [calls[a]]);
    assert calls[..a] + [calls[a]] == calls[..a + 1];
  }

  lemma SettledAfter(d: Desk, calls: seq<Call>, slot: Slot, n: nat, i: nat)
    requires n <= i < |calls| && calls[i].Call? && SlotOf(calls[i].req) == slot
    requires slot in Replay(d, calls[..n]).table && Settled(Replay(d, calls), slot)
    ensures var record := Replay(d, calls[..n]).table[slot];
      AnswerTo(d, calls, i) == if SameMark(record, calls[i].req.mark) then Replayed(record.id) else Mismatch
  {
    assert calls == calls[..n] + calls[n..] && calls[..i] == calls[..n] + calls[n..][..i - n];
    ReplayInTwo(d, calls[..n], calls[n..]);
    ReplayInTwo(d, calls[..n], calls[n..][..i - n]);
    SettledKey(Replay(d, calls[..n]), calls[n..], slot, i - n);
  }

  // Everything created is recorded under its key, except for what could not be recorded and what was created because
  // the recorded workflow was lost.
  predicate Accounted(d: Desk) {
    forall id :: id in d.made && id !in d.strays ==>
      var slot := d.made[id];
      slot in d.table && (d.table[slot].id == id || (slot.kind == WorkflowSubmission && d.table[slot].id in d.gone))
  }

  predicate FreshCalls(d: Desk, calls: seq<Call>) {
    forall i :: 0 <= i < |calls| && calls[i].Call? && calls[i].accepted ==> calls[i].id !in Replay(d, calls[..i]).made
  }

  lemma {:induction false} AllAccounted(d: Desk, calls: seq<Call>)
    requires Accounted(d) && FreshCalls(d, calls)
    ensures Accounted(Replay(d, calls))
  {
    if calls != [] {
      var front := calls[..|calls| - 1];
      assert forall i :: 0 <= i < |front| ==> front[..i] == calls[..i];
      AllAccounted(d, front);
    }
  }

  function Creations(d: Desk, calls: seq<Call>, slot: Slot): nat {
    if calls == [] then 0
    else
      var front, c := calls[..|calls| - 1], calls[|calls| - 1];
      Creations(d, front, slot)
        + if c.Call? && SlotOf(c.req) == slot && Answer(Replay(d, front), c).Created? then 1 else 0
  }

  // At most one creation is ever recorded for a key, whatever the order of the requests, unless the workflow its row
  // names is lost; none when the key had its row from the start.
  lemma {:induction false} CreatedAtMostOnce(d: Desk, calls: seq<Call>, slot: Slot)
    requires slot in Replay(d, calls).table ==> Settled(Replay(d, calls), slot)
    ensures Creations(d, calls, slot) + (if slot in d.table then 1 else 0) == if slot in Replay(d, calls).table then 1 else 0
  {
    if calls != [] {
      var front, c := calls[..|calls| - 1], calls[|calls| - 1];
      assert calls == front + [c];
      RowsStay(Replay(d, front), [c]);
      ReplayInTwo(d, front, [c]);
      CreatedAtMostOnce(d, front, slot);
    }
  }

  function Again(r: Request, n: nat): seq<Call> {
    if n == 0 then [] else Again(r, n - 1) + [Call(n, r, n, true, true)]
  }

  lemma OneMoreCall(d: Desk, calls: seq<Call>, c: Call, slot: Slot)
    ensures Replay(d, calls + [c]) == Serve(Replay(d, calls), c)
    ensures Creations(d, calls + [c], slot) == Creations(d, calls, slot)
              + if c.Call? && SlotOf(c.req) == slot && Answer(Replay(d, calls), c).Created? then 1 else 0
  {
    assert (calls + [c])[..|calls + [c]| - 1] == calls;
  }

  // A lost workflow is never replaced in its row: every accepted retry creates one more.
  lemma {:induction false} LostKeyKeepsCreating(d: Desk, r: Request, n: nat)
    requires r.kind == WorkflowSubmission && SlotOf(r) in d.table && SameMark(d.table[SlotOf(r)], r.mark)
    requires d.table[SlotOf(r)].id in d.gone
    ensures Creations(d, Again(r, n), SlotOf(r)) == n
    ensures Replay(d, Again(r, n)).table == d.table && Replay(d, Again(r, n)).gone == d.gone
  {
    if n > 0 {
      LostKeyKeepsCreating(d, r, n - 1);
      OneMoreCall(d, Again(r, n - 1), Call(n, r, n, true, true), SlotOf(r));
      hide Creations, Replay;
    }
  }

  // So a key that has its row is safe to retry exactly when what the row names is not lost.
  lemma RetryIsSafeIff(d: Desk, r: Request)
    requires SlotOf(r) in d.table && SameMark(d.table[SlotOf(r)], r.mark)
    ensures Settled(d, SlotOf(r)) <==>
      forall n: nat :: Creations(d, Again(r, n), SlotOf(r)) == 0
  {
    if Settled(d, SlotOf(r)) {
      forall n: nat ensures Creations(d, Again(r, n), SlotOf(r)) == 0 { RetriesCreateNothing(d, r, n); }
    } else {
      LostKeyKeepsCreating(d, r, 1);
    }
  }

  lemma {:induction false} RetriesCreateNothing(d: Desk, r: Request, n: nat)
    requires Settled(d, SlotOf(r))
    ensures Creations(d, Again(r, n), SlotOf(r)) == 0 && Replay(d, Again(r, n)) == d
  {
    if n > 0 {
      RetriesCreateNothing(d, r, n - 1);
      OneMoreCall(d, Again(r, n - 1), Call(n, r, n, true, true), SlotOf(r));
      hide Creations, Replay;
    }
  }
}
