// What the leasing protocol promises. In every run of the machine in LeaseProtocol, restarts anywhere: jobs only for the
// lease holder, a cache that agrees with the tables, the cap, and leases that only move forward. In every run whose
// restarts miss the gap: clean between customers.
module LeaseSafety {
  import opened Options
  import opened Registry
  import opened LeaseStore
  import opened LeaseWrites
  import opened LeaseProtocol
  import opened LeaseTenancy
  import opened LeaseCleaning

  // ------------------------------------------------------------------ the promises, in terms of the history alone

  ghost predicate OpensAt(hist: seq<Event>, i: int, n: NodeId) {
    0 <= i < |hist| && hist[i].Opened? && hist[i].node == n
  }

  // After position i: told to stop; then asked to clean itself; then answered that very request "clean".
  ghost predicate StopAfter(hist: seq<Event>, n: NodeId, i: int, p: int) {
    0 <= p < |hist| && i < p && hist[p] == Stopped(n)
  }

  ghost predicate AskAfter(hist: seq<Event>, n: NodeId, p: int, q: int, ref: Ref) {
    0 <= q < |hist| && p < q && hist[q] == Issued(n, ref)
  }

  ghost predicate AnswerAfter(hist: seq<Event>, n: NodeId, q: int, r: int, ref: Ref) {
    0 <= r < |hist| && q < r && hist[r] == Answered(n, ref)
  }

  ghost predicate HasStopped(hist: seq<Event>, n: NodeId, i: int) {
    exists p :: StopAfter(hist, n, i, p)
  }

  ghost predicate HasAsked(hist: seq<Event>, n: NodeId, i: int, ref: Ref) {
    exists p, q :: StopAfter(hist, n, i, p) && AskAfter(hist, n, p, q, ref)
  }

  ghost predicate HasCleaned(hist: seq<Event>, n: NodeId, i: int) {
    exists p, q, r, ref ::
      StopAfter(hist, n, i, p) && AskAfter(hist, n, p, q, ref) && AnswerAfter(hist, n, q, r, ref)
  }

  // Between any two leases of one worker it stopped serving the first, was then asked to clean itself, and said it had.
  ghost predicate CleanBetweenCustomers(hist: seq<Event>) {
    forall i, k, n :: i < k && OpensAt(hist, i, n) && OpensAt(hist, k, n) ==> HasCleaned(hist[..k], n, i)
  }

  // Position i opened the lease that is still taking jobs at k.
  ghost predicate ServesAt(hist: seq<Event>, n: NodeId, i: int, k: int)
    requires k <= |hist|
  {
    i < k && OpensAt(hist, i, n) && forall p :: i < p < k ==> hist[p] != Stopped(n) && !OpensAt(hist, p, n)
  }

  // Each claim on a hosted worker falls inside its latest lease and is for that lease's customer.
  ghost predicate OnlyForTheHolder(hist: seq<Event>) {
    forall k :: 0 <= k < |hist| && hist[k].Claimed? ==>
      exists i :: ServesAt(hist, hist[k].node, i, k) && hist[k].forOrg == Some(hist[i].org)
  }

  // ------------------------------------------------------------------ what each phase of the automaton means

  ghost predicate PhaseMeans(hist: seq<Event>, n: NodeId) {
    match Follow(hist, n).phase
    case Fresh => forall i :: !OpensAt(hist, i, n)
    case Serving(id, org) => exists i :: ServesAt(hist, n, i, |hist|) && hist[i] == Opened(n, id, org)
    case Dirty => forall i :: OpensAt(hist, i, n) ==> HasStopped(hist, n, i)
    case Waiting(ref) => forall i :: OpensAt(hist, i, n) ==> HasAsked(hist, n, i, ref)
    case Clean => forall i :: OpensAt(hist, i, n) ==> HasCleaned(hist, n, i)
    case Broken => true
  }

  lemma StoppedStays(hist: seq<Event>, e: Event, n: NodeId, i: int)
    ensures HasStopped(hist, n, i) ==> HasStopped(hist + [e], n, i)
    ensures 0 <= i < |hist| && e == Stopped(n) ==> HasStopped(hist + [e], n, i)
  {
    if HasStopped(hist, n, i) {
      var p :| StopAfter(hist, n, i, p);
      assert StopAfter(hist + [e], n, i, p);
    }
    if 0 <= i < |hist| && e == Stopped(n) { assert StopAfter(hist + [e], n, i, |hist|); }
  }

  lemma AskedStays(hist: seq<Event>, e: Event, n: NodeId, i: int, ref: Ref)
    ensures HasAsked(hist, n, i, ref) ==> HasAsked(hist + [e], n, i, ref)
    ensures HasStopped(hist, n, i) && e == Issued(n, ref) ==> HasAsked(hist + [e], n, i, ref)
  {
    if HasAsked(hist, n, i, ref) {
      var p, q :| StopAfter(hist, n, i, p) && AskAfter(hist, n, p, q, ref);
      assert StopAfter(hist + [e], n, i, p) && AskAfter(hist + [e], n, p, q, ref);
    }
    if HasStopped(hist, n, i) && e == Issued(n, ref) {
      var p :| StopAfter(hist, n, i, p);
      assert StopAfter(hist + [e], n, i, p) && AskAfter(hist + [e], n, p, |hist|, ref);
    }
  }

  lemma CleanedStays(hist: seq<Event>, e: Event, n: NodeId, i: int, ref: Ref)
    ensures HasCleaned(hist, n, i) ==> HasCleaned(hist + [e], n, i)
    ensures HasAsked(hist, n, i, ref) && e == Answered(n, ref) ==> HasCleaned(hist + [e], n, i)
  {
    if HasCleaned(hist, n, i) {
      var p, q, r, ref' :| StopAfter(hist, n, i, p) && AskAfter(hist, n, p, q, ref') && AnswerAfter(hist, n, q, r, ref');
      assert StopAfter(hist + [e], n, i, p) && AskAfter(hist + [e], n, p, q, ref') && AnswerAfter(hist + [e], n, q, r, ref');
    }
    if HasAsked(hist, n, i, ref) && e == Answered(n, ref) {
      var p, q :| StopAfter(hist, n, i, p) && AskAfter(hist, n, p, q, ref);
      assert StopAfter(hist + [e], n, i, p) && AskAfter(hist + [e], n, p, q, ref)
             && AnswerAfter(hist + [e], n, q, |hist|, ref);
    }
  }

  lemma PhaseStep(hist: seq<Event>, e: Event, n: NodeId)
    requires PhaseMeans(hist, n)
    ensures PhaseMeans(hist + [e], n)
  {
    var hist' := hist + [e];
    FollowOne(hist, e, n);
    var phase, phase' := Follow(hist, n).phase, Follow(hist', n).phase;
    forall i ensures OpensAt(hist', i, n) <==> OpensAt(hist, i, n) || (i == |hist| && e.Opened? && e.node == n) {}
    forall i | OpensAt(hist, i, n)
      ensures (HasStopped(hist, n, i) || e == Stopped(n) ==> HasStopped(hist', n, i))
      ensures HasCleaned(hist, n, i) ==> HasCleaned(hist', n, i)
    {
      StoppedStays(hist, e, n, i);
      CleanedStays(hist, e, n, i, LeaseRef(0));
    }
    forall i, ref | OpensAt(hist, i, n)
      ensures (HasAsked(hist, n, i, ref) ==> HasAsked(hist', n, i, ref))
      ensures (HasStopped(hist, n, i) && e == Issued(n, ref) ==> HasAsked(hist', n, i, ref))
      ensures HasAsked(hist, n, i, ref) && e == Answered(n, ref) ==> HasCleaned(hist', n, i)
      ensures HasAsked(hist, n, i, ref) ==> HasStopped(hist, n, i)
    {
      AskedStays(hist, e, n, i, ref);
      CleanedStays(hist, e, n, i, ref);
    }
    if phase'.Serving? {
      if e.node == n && e.Opened? {
        assert ServesAt(hist', n, |hist|, |hist'|);
      } else {
        var i :| ServesAt(hist, n, i, |hist|) && hist[i] == Opened(n, phase.id, phase.org);
        assert ServesAt(hist', n, i, |hist'|) && hist'[i] == hist[i];
      }
    }
  }

  lemma {:induction false} PhaseMeaning(hist: seq<Event>, n: NodeId)
    ensures PhaseMeans(hist, n)
  {
    if hist != [] {
      PhaseMeaning(hist[..|hist| - 1], n);
      assert hist == hist[..|hist| - 1] + [hist[|hist| - 1]];
      PhaseStep(hist[..|hist| - 1], hist[|hist| - 1], n);
    }
  }

  // Once broken, broken for good: a history that is not broken was not broken at any earlier point.
  lemma {:induction false} NotBrokenBefore(hist: seq<Event>, n: NodeId, k: nat)
    requires k <= |hist| && Follow(hist, n).phase != Broken
    ensures Follow(hist[..k], n).phase != Broken
  {
    if k < |hist| {
      NotBrokenBefore(hist[..|hist| - 1], n, k);
      assert hist[..|hist| - 1][..k] == hist[..k];
    } else {
      assert hist[..k] == hist;
    }
  }

  // A history whose automaton never breaks is clean between customers.
  lemma UnbrokenMeansClean(hist: seq<Event>)
    requires forall n :: Follow(hist, n).phase != Broken
    ensures CleanBetweenCustomers(hist)
  {
    forall i, k, n | i < k && OpensAt(hist, i, n) && OpensAt(hist, k, n) ensures HasCleaned(hist[..k], n, i) {
      NotBrokenBefore(hist, n, k + 1);
      assert hist[..k + 1] == hist[..k] + [hist[k]];
      FollowOne(hist[..k], hist[k], n);
      PhaseMeaning(hist[..k], n);
      assert OpensAt(hist[..k], i, n);
    }
  }

  // Position i opened a lease of n, and n has answered no clean-up request since.
  ghost predicate UnansweredAt(hist: seq<Event>, n: NodeId, i: int) {
    OpensAt(hist, i, n) && forall r :: i < r < |hist| ==> !(hist[r].Answered? && hist[r].node == n)
  }

  lemma {:induction false} UnheardMeans(hist: seq<Event>, n: NodeId)
    requires !Follow(hist, n).phase.Fresh? && !Follow(hist, n).heard
    ensures exists i :: UnansweredAt(hist, n, i)
  {
    if hist != [] {
      var front, e := hist[..|hist| - 1], hist[|hist| - 1];
      assert hist == front + [e];
      FollowOne(front, e, n);
      if e.Opened? && e.node == n {
        assert UnansweredAt(hist, n, |hist| - 1);
      } else {
        UnheardMeans(front, n);
        var i :| UnansweredAt(front, n, i);
        assert UnansweredAt(hist, n, i);
      }
    }
  }

  lemma UnansweredIsUnclean(hist: seq<Event>, n: NodeId)
    requires exists i :: UnansweredAt(hist, n, i)
    ensures exists i :: OpensAt(hist, i, n) && !HasCleaned(hist, n, i)
  {
    var i :| UnansweredAt(hist, n, i);
    assert OpensAt(hist, i, n);
  }

  // While the invariant holds the automaton is exact: a worker is fresh or clean if and only if it has cleaned itself
  // since each of its leases.
  lemma CleanPhaseIff(s: Sys, n: NodeId)
    requires Inv(s)
    ensures Follow(s.hist, n).phase.Fresh? || Follow(s.hist, n).phase.Clean? <==>
      forall i :: OpensAt(s.hist, i, n) ==> HasCleaned(s.hist, n, i)
  {
    hide Serves, HasCleaned, OpensAt;
    assert NodeOk(s, n);
    PhaseMeaning(s.hist, n);
    if !Follow(s.hist, n).phase.Fresh? && !Follow(s.hist, n).phase.Clean? {
      UnheardMeans(s.hist, n);
      UnansweredIsUnclean(s.hist, n);
    }
  }

  // Leasing out a worker that is not breaks the promise itself.
  lemma NextLeaseIsUnclean(hist: seq<Event>, n: NodeId, id: nat, org: OrgId)
    requires !Follow(hist, n).phase.Fresh? && !Follow(hist, n).heard
    ensures !CleanBetweenCustomers(hist + [Opened(n, id, org)])
  {
    UnheardMeans(hist, n);
    UnansweredIsUnclean(hist, n);
    var i :| OpensAt(hist, i, n) && !HasCleaned(hist, n, i);
    var hist' := hist + [Opened(n, id, org)];
    assert OpensAt(hist', i, n) && OpensAt(hist', |hist|, n) && hist'[..|hist|] == hist;
  }

  // ------------------------------------------------------------------ whom a worker serves

  lemma {:induction false} TenantHolds(hist: seq<Event>, n: NodeId)
    requires Tenant(hist, n).Some?
    ensures exists i :: ServesAt(hist, n, i, |hist|) && Some(hist[i].org) == Tenant(hist, n)
  {
    if hist != [] {
      var front, e := hist[..|hist| - 1], hist[|hist| - 1];
      assert hist == front + [e];
      TenantOne(front, e, n);
      if e.Opened? && e.node == n {
        assert ServesAt(hist, n, |hist| - 1, |hist|);
      } else {
        TenantHolds(front, n);
        var i :| ServesAt(front, n, i, |front|) && Some(front[i].org) == Tenant(front, n);
        assert ServesAt(hist, n, i, |hist|) && hist[i] == front[i];
      }
    }
  }

  lemma ServedMeansHolder(hist: seq<Event>)
    requires ClaimsServe(hist)
    ensures OnlyForTheHolder(hist)
  {
    forall k | 0 <= k < |hist| && hist[k].Claimed?
      ensures exists i :: ServesAt(hist, hist[k].node, i, k) && hist[k].forOrg == Some(hist[i].org)
    {
      var n := hist[k].node;
      TenantHolds(hist[..k], n);
      var i :| ServesAt(hist[..k], n, i, k) && Some(hist[..k][i].org) == Tenant(hist[..k], n);
      assert hist[i] == hist[..k][i] && forall p :: i < p < k ==> hist[p] == hist[..k][p];
      assert ServesAt(hist, n, i, k);
    }
  }

  // ------------------------------------------------------------------ the theorems over runs

  // Whatever is interleaved with what and wherever the restarts come, claims are for the holder; and where none comes in
  // the gap, workers are clean between customers.
  lemma EveryRunIsSafe(steps: seq<Step>, s: Sys)
    requires Leads(START, steps, s)
    ensures OnlyForTheHolder(s.hist)
    ensures Orderly(START, steps) ==> CleanBetweenCustomers(s.hist)
  {
    hide CleanBetweenCustomers, OnlyForTheHolder;
    StartInv();
    RunServes(START, steps, s);
    ServedMeansHolder(s.hist);
    if Orderly(START, steps) {
      RunInv(START, steps, s);
      InvMeansClean(s);
    }
  }

  lemma InvMeansClean(s: Sys)
    requires Inv(s)
    ensures CleanBetweenCustomers(s.hist)
  {
    hide CleanBetweenCustomers, Serves;
    forall n ensures Follow(s.hist, n).phase != Broken { assert NodeOk(s, n); }
    UnbrokenMeansClean(s.hist);
  }

  // In every reachable state each worker has at most one open lease; every record follows the organization rules; and
  // a hosted worker's cached lease is what the lease table says, except between the two writes of one operation.
  lemma CacheAgreesInEveryRun(steps: seq<Step>, s: Sys, n: NodeId)
    requires Leads(START, steps, s)
    ensures OneOpen(s.w.leases)
    ensures n in s.w.reg.nodes ==> Lawful(s.w.reg.nodes[n])
    ensures n in s.w.reg.nodes && s.w.reg.nodes[n].fleet && !Owes(s.todo, n) ==>
      s.w.reg.nodes[n].lease == Lookup(s.w.leases, n)
      && s.w.reg.nodes[n].orgId == OrgOfLease(Lookup(s.w.leases, n)) && !s.w.reg.nodes[n].sharedPool
  {
    StartServes();
    RunServes(START, steps, s);
    assert NodeServes(s, n);
    forall i | OpenOn(s.w.leases, i, n) { LookupIs(s.w.leases, n, i); }
  }

  // A worker on offer has never been leased, or has answered clean since; so a lost worker, a failed clean-up, a
  // timeout or an undeliverable request never puts one back in the pool.
  lemma OnOfferMeansClean(steps: seq<Step>, s: Sys, n: NodeId)
    requires Leads(START, steps, s) && Orderly(START, steps)
    requires s.todo == Nothing && Available(s.w, n)
    ensures forall i :: OpensAt(s.hist, i, n) ==> HasCleaned(s.hist, n, i)
  {
    StartInv();
    RunInv(START, steps, s);
    assert NodeOk(s, n) && NoneOpen(s.w.leases, n);
    PhaseMeaning(s.hist, n);
  }

  lemma GrowsTransitive(a: seq<Lease>, b: seq<Lease>, c: seq<Lease>)
    requires Grows(a, b) && Grows(b, c)
    ensures Grows(a, c)
  {
    forall i | 0 <= i < |a| ensures Advances(a[i], c[i]) {
      assert Advances(a[i], b[i]) && Advances(b[i], c[i]);
    }
  }

  // Lease rows are never lost, never change hands, and only move forward, in every run at all.
  lemma {:induction false} LeasesOnlyMoveForward(s: Sys, steps: seq<Step>, s': Sys)
    requires Leads(s, steps, s')
    ensures Grows(s.w.leases, s'.w.leases)
    decreases |steps|
  {
    if steps != [] {
      var s1 := Do(s, steps[0]);
      assert Grows(s.w.leases, s1.w.leases);
      LeasesOnlyMoveForward(s1, steps[1..], s');
      GrowsTransitive(s.w.leases, s1.w.leases, s'.w.leases);
    }
  }

  // Every write but a request's insert leaves each customer's open count where it was or lowers it.
  lemma OtherWritesKeepCount(w: World, todo: Todo, org: OrgId)
    requires !todo.Open?
    ensures CountOpen(Exec(w, todo).0.leases, org) <= CountOpen(w.leases, org)
  {
    hide CountOpen;
    var leases' := Exec(w, todo).0.leases;
    if leases' != w.leases {
      assert todo.id < |w.leases| && leases' == w.leases[todo.id := leases'[todo.id]];
      CountOpenAfterUpdate(w.leases, todo.id, leases'[todo.id], org);
    }
  }

  // The only step that raises a customer's open count is the insert of its own request, and it stays within the cap
  // that request read.
  lemma CountWithinCap(s: Sys, step: Step, org: OrgId)
    requires TodoServes(s.w, s.todo) && Enabled(s, step)
    requires CountOpen(Do(s, step).w.leases, org) > CountOpen(s.w.leases, org)
    ensures step.Write? && s.todo.Open? && s.todo.org == org
    ensures CountOpen(Do(s, step).w.leases, org) == CountOpen(s.w.leases, org) + |s.todo.nodes| <= s.todo.cap
  {
    hide CountOpen;
    if step.Write? {
      if s.todo.Open? {
        CountOpenAfterInsert(s.w.leases, s.todo.nodes, s.todo.org, s.todo.who, s.todo.at, org);
      } else {
        OtherWritesKeepCount(s.w, s.todo, org);
      }
    }
  }

  lemma CapHoldsInEveryRun(steps: seq<Step>, s: Sys, step: Step, org: OrgId)
    requires Leads(START, steps, s) && Enabled(s, step)
    requires CountOpen(Do(s, step).w.leases, org) > CountOpen(s.w.leases, org)
    ensures step.Write? && s.todo.Open? && s.todo.org == org && CountOpen(Do(s, step).w.leases, org) <= s.todo.cap
  {
    hide CountOpen, Do, Enabled;
    StartServes();
    RunServes(START, steps, s);
    CountWithinCap(s, step, org);
  }
}
