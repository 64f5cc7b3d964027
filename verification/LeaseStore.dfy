// The two durable tables behind hosted-worker leases: leases (rows are never deleted) and fleet nodes.
module LeaseStore {
  import opened Options
  import opened Registry

  // A lease id is the row's position; a clean-up ref is a lease id, a fresh staff ref, or anything else at all.
  datatype Ref = LeaseRef(lease: nat) | CleanRef(serial: nat) | OtherRef(text: string)

  datatype Lease = Lease(
    node: NodeId, org: OrgId, state: LeaseState, requestedBy: Option<string>, lastActivity: Instant,
    endReason: Option<string>, endedBy: Option<string>, result: Option<string>)

  // `since` and `ref` describe a clean-up asked for and not yet answered.
  datatype FleetRow = FleetRow(held: Option<string>, since: Option<Instant>, ref: Option<Ref>)

  ghost predicate OpenOn(leases: seq<Lease>, i: int, n: NodeId) {
    0 <= i < |leases| && leases[i].node == n && leases[i].state != Ended
  }

  ghost predicate NoneOpen(leases: seq<Lease>, n: NodeId) {
    forall i :: !OpenOn(leases, i, n)
  }

  // What the partial unique index guarantees.
  ghost predicate OneOpen(leases: seq<Lease>) {
    forall i, j, n :: OpenOn(leases, i, n) && OpenOn(leases, j, n) ==> i == j
  }

  function OpenLease(leases: seq<Lease>, n: NodeId): (r: Option<nat>)
    ensures r.Some? ==> OpenOn(leases, r.value, n)
    ensures r.None? ==> NoneOpen(leases, n)
  {
    if leases == [] then None
    else
      var last := |leases| - 1;
      if leases[last].node == n && leases[last].state != Ended then Some(last)
      else
        var r := OpenLease(leases[..last], n);
        assert forall i :: OpenOn(leases, i, n) ==> i < last && OpenOn(leases[..last], i, n);
        r
  }

  function Lookup(leases: seq<Lease>, n: NodeId): LeaseView {
    var open := OpenLease(leases, n);
    if open.Some? then Some((leases[open.value].org, leases[open.value].state)) else None
  }

  lemma LookupIs(leases: seq<Lease>, n: NodeId, i: int)
    requires OneOpen(leases) && OpenOn(leases, i, n)
    ensures OpenLease(leases, n) == Some(i) && Lookup(leases, n) == Some((leases[i].org, leases[i].state))
  {
  }

  function CountOpen(leases: seq<Lease>, org: OrgId): nat {
    if leases == [] then 0
    else
      var last := leases[|leases| - 1];
      CountOpen(leases[..|leases| - 1], org) + if last.org == org && last.state != Ended then 1 else 0
  }

  function NewLease(n: NodeId, org: OrgId, who: Option<string>, at: Instant): Lease {
    Lease(n, org, Active, who, at, None, None, None)
  }

  function NewLeases(nodes: seq<NodeId>, org: OrgId, who: Option<string>, at: Instant): (rows: seq<Lease>)
    ensures |rows| == |nodes|
    ensures forall i :: 0 <= i < |nodes| ==> rows[i] == NewLease(nodes[i], org, who, at)
  {
    seq(|nodes|, i requires 0 <= i < |nodes| => NewLease(nodes[i], org, who, at))
  }

  // All rows or none: a worker that already has an open lease, or appears twice, refuses the whole batch.
  ghost predicate Insertable(leases: seq<Lease>, nodes: seq<NodeId>) {
    Distinct(nodes) && forall n :: n in nodes ==> NoneOpen(leases, n)
  }

  // The row after each conditional UPDATE; unchanged when its WHERE clause does not match.
  function EndRow(row: Lease, result: string, reason: Option<string>, who: Option<string>): Lease {
    if row.state == Ended then row
    else row.(state := Ended, result := Some(result),
              endReason := if row.endReason.Some? then row.endReason else reason,
              endedBy := if row.endedBy.Some? then row.endedBy else who)
  }

  function MarkedEnding(leases: seq<Lease>, id: nat, reason: string, who: string): seq<Lease> {
    if id < |leases| && leases[id].state == Active
    then leases[id := leases[id].(state := Ending, endReason := Some(reason), endedBy := Some(who))]
    else leases
  }

  function MarkedSanitizing(leases: seq<Lease>, id: nat): seq<Lease> {
    if id < |leases| && leases[id].state == Ending then leases[id := leases[id].(state := Sanitizing)] else leases
  }

  function MarkedEnded(leases: seq<Lease>, id: nat, result: string, reason: Option<string>, who: Option<string>)
    : seq<Lease>
  {
    if id < |leases| then leases[id := EndRow(leases[id], result, reason, who)] else leases
  }

  function Touched(leases: seq<Lease>, id: nat, at: Instant): seq<Lease> {
    if id < |leases| then leases[id := leases[id].(lastActivity := at)] else leases
  }

  // ------------------------------------------------------------------ what a change to one row leaves alone

  // Later states of one row: same worker and customer, and the state only moves forward.
  function Rank(s: LeaseState): nat {
    match s case Active => 0 case Ending => 1 case Sanitizing => 2 case Ended => 3
  }

  ghost predicate Advances(row: Lease, row': Lease) {
    row'.node == row.node && row'.org == row.org && Rank(row.state) <= Rank(row'.state)
  }

  // Rows are appended or advanced, never removed.
  ghost predicate Grows(leases: seq<Lease>, leases': seq<Lease>) {
    |leases| <= |leases'| && forall i :: 0 <= i < |leases| ==> Advances(leases[i], leases'[i])
  }

  lemma OneOpenAfterUpdate(leases: seq<Lease>, id: nat, row: Lease)
    requires OneOpen(leases) && id < |leases| && Advances(leases[id], row)
    ensures OneOpen(leases[id := row])
    ensures forall i, n :: OpenOn(leases[id := row], i, n) ==> OpenOn(leases, i, n)
  {
    var leases' := leases[id := row];
    forall i, n | OpenOn(leases', i, n) ensures OpenOn(leases, i, n) {}
  }

  lemma OneOpenAfterInsert(leases: seq<Lease>, nodes: seq<NodeId>, org: OrgId, who: Option<string>, at: Instant)
    requires OneOpen(leases) && Insertable(leases, nodes)
    ensures OneOpen(leases + NewLeases(nodes, org, who, at))
  {
    var leases' := leases + NewLeases(nodes, org, who, at);
    forall i, j, n | OpenOn(leases', i, n) && OpenOn(leases', j, n) ensures i == j {
      if i < |leases| { assert OpenOn(leases, i, n); } else { assert nodes[i - |leases|] == n && n in nodes; }
      if j < |leases| { assert OpenOn(leases, j, n); } else { assert nodes[j - |leases|] == n && n in nodes; }
      assert n in nodes ==> NoneOpen(leases, n);
    }
  }

  lemma {:induction false} CountOpenAfterInsert(leases: seq<Lease>, nodes: seq<NodeId>, org: OrgId, who: Option<string>,
                                                at: Instant, other: OrgId)
    ensures CountOpen(leases + NewLeases(nodes, org, who, at), other)
         == CountOpen(leases, other) + if other == org then |nodes| else 0
  {
    var rows := NewLeases(nodes, org, who, at);
    if nodes == [] {
      assert leases + rows == leases;
    } else {
      var k := |nodes| - 1;
      CountOpenAfterInsert(leases, nodes[..k], org, who, at, other);
      assert (leases + rows)[..|leases + rows| - 1] == leases + NewLeases(nodes[..k], org, who, at);
    }
  }

  lemma {:induction false} CountOpenAfterUpdate(leases: seq<Lease>, id: nat, row: Lease, org: OrgId)
    requires id < |leases| && Advances(leases[id], row)
    ensures CountOpen(leases[id := row], org) <= CountOpen(leases, org)
    decreases |leases|
  {
    var last := |leases| - 1;
    if id == last {
      assert leases[id := row][..last] == leases[..last];
    } else {
      assert leases[id := row][..last] == leases[..last][id := row];
      CountOpenAfterUpdate(leases[..last], id, row, org);
    }
  }

  // Nothing about n's open lease has changed.
  ghost predicate SameRows(leases: seq<Lease>, leases': seq<Lease>, n: NodeId) {
    && |leases| <= |leases'|
    && (forall i :: OpenOn(leases', i, n) <==> OpenOn(leases, i, n))
    && (forall i :: OpenOn(leases, i, n) ==> leases'[i].org == leases[i].org && leases'[i].state == leases[i].state)
  }

  lemma RowChanged(leases: seq<Lease>, leases': seq<Lease>, id: nat)
    requires OneOpen(leases) && id < |leases| == |leases'| && leases' == leases[id := leases'[id]]
    requires Advances(leases[id], leases'[id]) && leases[id].state != Ended
    ensures OneOpen(leases')
    ensures forall n :: n != leases[id].node ==> SameRows(leases, leases', n)
    ensures leases'[id].state != Ended ==> OpenOn(leases', id, leases[id].node)
    ensures leases'[id].state != Ended ==> forall i :: OpenOn(leases', i, leases[id].node) <==> i == id
    ensures leases'[id].state == Ended ==> NoneOpen(leases', leases[id].node)
  {
    OneOpenAfterUpdate(leases, id, leases'[id]);
    var m := leases[id].node;
    assert OpenOn(leases, id, m);
    forall i | OpenOn(leases', i, m) ensures i == id { assert OpenOn(leases, i, m); }
  }

  // ------------------------------------------------------------------ the repositories

  class WorkerLeaseRepository {
    var rows: seq<Lease>

    ghost predicate Valid() reads this { OneOpen(rows) }

    constructor ()
      ensures Valid() && rows == []
    {
      rows := [];
    }

    // One transaction: rows are inserted one by one under the unique index, and a violation rolls all of them back.
    method CreateMany(nodes: seq<NodeId>, org: OrgId, who: Option<string>, at: Instant)
      returns (created: Option<seq<nat>>)
      requires Valid()
      modifies this
      ensures Valid()
      ensures created.Some? <==> old(Insertable(rows, nodes))
      ensures created.Some? ==>
        && rows == old(rows) + NewLeases(nodes, org, who, at)
        && |created.value| == |nodes|
        && forall i :: 0 <= i < |nodes| ==> created.value[i] == |old(rows)| + i
      ensures created.None? ==> rows == old(rows)
    {
      var draft := rows;
      var ids := [];
      var k := 0;
      while k < |nodes|
        invariant 0 <= k <= |nodes|
        invariant Insertable(rows, nodes[..k])
        invariant draft == rows + NewLeases(nodes[..k], org, who, at)
        invariant |ids| == k && forall i :: 0 <= i < k ==> ids[i] == |rows| + i
      {
        ghost var batch := NewLeases(nodes[..k], org, who, at);
        var taken := OpenLease(draft, nodes[k]);
        if taken.Some? {
          assert nodes[k] in nodes;
          if taken.value < |rows| {
            assert OpenOn(rows, taken.value, nodes[k]) && !NoneOpen(rows, nodes[k]);
          } else {
            assert nodes[taken.value - |rows|] == nodes[k] && !Distinct(nodes);
          }
          return None;
        }
        forall i ensures !OpenOn(rows, i, nodes[k]) { assert !OpenOn(draft, i, nodes[k]); }
        forall i | 0 <= i < k ensures nodes[i] != nodes[k] { assert !OpenOn(draft, |rows| + i, nodes[k]); }
        ids := ids + [|draft|];
        draft := draft + [NewLease(nodes[k], org, who, at)];
        assert nodes[..k + 1] == nodes[..k] + [nodes[k]];
        k := k + 1;
      }
      assert nodes[..k] == nodes;
      OneOpenAfterInsert(rows, nodes, org, who, at);
      rows := draft;
      created := Some(ids);
    }

    method Touch(id: nat, at: Instant)
      requires Valid()
      modifies this
      ensures Valid() && rows == Touched(old(rows), id, at)
    {
      if id < |rows| {
        OneOpenAfterUpdate(rows, id, rows[id].(lastActivity := at));
        rows := rows[id := rows[id].(lastActivity := at)];
      }
    }

    method MarkEnding(id: nat, reason: string, who: string) returns (done: bool)
      requires Valid()
      modifies this
      ensures Valid() && rows == MarkedEnding(old(rows), id, reason, who)
      ensures done <==> id < |old(rows)| && old(rows)[id].state == Active
    {
      done := id < |rows| && rows[id].state == Active;
      if done {
        var row := rows[id].(state := Ending, endReason := Some(reason), endedBy := Some(who));
        OneOpenAfterUpdate(rows, id, row);
        rows := rows[id := row];
      }
    }

    method MarkSanitizing(id: nat) returns (done: bool)
      requires Valid()
      modifies this
      ensures Valid() && rows == MarkedSanitizing(old(rows), id)
      ensures done <==> id < |old(rows)| && old(rows)[id].state == Ending
    {
      done := id < |rows| && rows[id].state == Ending;
      if done {
        OneOpenAfterUpdate(rows, id, rows[id].(state := Sanitizing));
        rows := rows[id := rows[id].(state := Sanitizing)];
      }
    }

    method MarkEnded(id: nat, result: string, reason: Option<string>, who: Option<string>)
      requires Valid()
      modifies this
      ensures Valid() && rows == MarkedEnded(old(rows), id, result, reason, who)
    {
      if id < |rows| {
        OneOpenAfterUpdate(rows, id, EndRow(rows[id], result, reason, who));
        rows := rows[id := EndRow(rows[id], result, reason, who)];
      }
    }
  }

  function WithRow(fleet: map<NodeId, FleetRow>, n: NodeId, row: FleetRow): map<NodeId, FleetRow> {
    if n in fleet then fleet[n := row] else fleet
  }

  function Held(fleet: map<NodeId, FleetRow>, n: NodeId, why: string): map<NodeId, FleetRow> {
    WithRow(fleet, n, FleetRow(Some(why), None, None))
  }

  function HoldReleased(fleet: map<NodeId, FleetRow>, n: NodeId): map<NodeId, FleetRow> {
    WithRow(fleet, n, FleetRow(None, None, None))
  }

  // Asking for a clean-up overwrites an earlier ref and keeps the hold; clearing drops the ref and keeps the hold.
  function Asked(fleet: map<NodeId, FleetRow>, n: NodeId, ref: Ref, at: Instant): map<NodeId, FleetRow> {
    if n in fleet then fleet[n := fleet[n].(since := Some(at), ref := Some(ref))] else fleet
  }

  function Cleared(fleet: map<NodeId, FleetRow>, n: NodeId): map<NodeId, FleetRow> {
    if n in fleet then fleet[n := fleet[n].(since := None, ref := None)] else fleet
  }

  class FleetNodeRepository {
    var rows: map<NodeId, FleetRow>
    // The hosted workers, each once.
    var listed: seq<NodeId>
    // Staff refs handed out so far, so that each new one is fresh.
    var serial: nat

    ghost predicate Valid() reads this { Distinct(listed) && forall n :: n in listed <==> n in rows }

    constructor ()
      ensures Valid() && rows == map[] && serial == 0
    {
      rows, listed, serial := map[], [], 0;
    }

    // Enrolling again keeps the existing record, hold included.
    method Enrol(n: NodeId)
      requires Valid()
      modifies this`rows, this`listed
      ensures Valid()
      ensures rows == if n in old(rows) then old(rows) else old(rows)[n := FleetRow(None, None, None)]
    {
      if n !in rows {
        rows := rows[n := FleetRow(None, None, None)];
        listed := listed + [n];
      }
    }

    method Hold(n: NodeId, why: string)
      requires Valid()
      modifies this`rows
      ensures Valid() && rows == Held(old(rows), n, why)
    {
      if n in rows {
        rows := rows[n := FleetRow(Some(why), None, None)];
      }
    }

    method ReleaseHold(n: NodeId)
      requires Valid()
      modifies this`rows
      ensures Valid() && rows == HoldReleased(old(rows), n)
    {
      if n in rows {
        rows := rows[n := FleetRow(None, None, None)];
      }
    }

    method BeginSanitize(n: NodeId, ref: Ref, at: Instant)
      requires Valid()
      modifies this`rows
      ensures Valid() && rows == Asked(old(rows), n, ref, at)
    {
      if n in rows {
        rows := rows[n := rows[n].(since := Some(at), ref := Some(ref))];
      }
    }

    method ClearSanitize(n: NodeId)
      requires Valid()
      modifies this`rows
      ensures Valid() && rows == Cleared(old(rows), n)
    {
      if n in rows {
        rows := rows[n := rows[n].(since := None, ref := None)];
      }
    }

    method NewCleanRef() returns (ref: Ref)
      requires Valid()
      modifies this`serial
      ensures Valid() && ref == CleanRef(old(serial)) && serial == old(serial) + 1
    {
      ref := CleanRef(serial);
      serial := serial + 1;
    }
  }
}
