// Whole runs of the threads: every interleaving is equivalent to the same requests served one after another, each at one
// moment between its arrival and its end; so a key creates at most once however its requests overlap.
module IdempotencyRuns {
  import opened Options
  import opened Idempotency
  import opened IdempotencyLocks

  type Run = seq<(Tid, Step)>

  ghost predicate Possible(s0: Sys, run: Run)
    decreases |run|, 0
  {
    run != [] ==>
      var (t, step) := run[|run| - 1];
      Possible(s0, run[..|run| - 1]) && Enabled(After(s0, run[..|run| - 1]), t, step)
  }

  ghost function After(s0: Sys, run: Run): Sys
    requires Possible(s0, run)
    decreases |run|, 1
  {
    if run == [] then s0
    else
      var (t, step) := run[|run| - 1];
      Do(After(s0, run[..|run| - 1]), t, step)
  }

  // ------------------------------------------------------------------ where a request takes effect

  // The step that settles a request's outcome is the moment it is served.
  function CallOf(s: Sys, t: Tid, step: Step): seq<Call>
    requires Enabled(s, t, step)
  {
    match step
    case Arrive(_) => []
    case Vanish(id) => [Lost(id)]
    case Move(id, good) =>
      var th := s.threads[t];
      match th.pc
      case Looking => if Look(s.desk, th.req).Some? then [Call(t, th.req, 0, false, false)] else []
      case Creating => if good then [] else [Call(t, th.req, id, false, false)]
      case Saving(made) => [Call(t, th.req, made, true, good)]
      case _ => []
  }

  ghost function Calls(s0: Sys, run: Run): seq<Call>
    requires Possible(s0, run)
  {
    if run == [] then []
    else
      var (t, step) := run[|run| - 1];
      Calls(s0, run[..|run| - 1]) + CallOf(After(s0, run[..|run| - 1]), t, step)
  }

  // What has been created but not yet recorded or given up.
  function Flying(s: Sys): set<Id> { Ids(s.threads) }

  function Ids(threads: map<Tid, Thread>): set<Id> {
    set t | t in threads && threads[t].pc.Saving? :: threads[t].pc.id
  }

  function Settling(s: Sys): Desk { s.desk.(made := s.desk.made - Flying(s)) }

  predicate Decided(pc: Pc) {
    pc.Unlock? || pc.WaitGuard2? || pc.Drop? || pc.Erase? || pc.Leave2? || pc.Finished?
  }

  ghost predicate WorkOk(s: Sys, t: Tid) {
    t in s.threads ==>
      var th := s.threads[t];
      && (th.outcome.Some? <==> Decided(th.pc))
      && (th.pc.Creating? || th.pc.Saving? ==> Look(s.desk, th.req).None?)
      && (th.pc.Saving? ==>
            && th.pc.id in s.desk.made && s.desk.made[th.pc.id] == SlotOf(th.req) && th.pc.id !in s.desk.strays
            && forall slot :: slot in s.desk.table ==> s.desk.table[slot].id != th.pc.id)
  }

  ghost predicate WorkInv(s: Sys) {
    && (forall t :: WorkOk(s, t))
    && (forall t, u :: (t in s.threads && u in s.threads && s.threads[t].pc.Saving? && s.threads[u].pc.Saving?
                        && s.threads[t].pc.id == s.threads[u].pc.id) ==> t == u)
  }

  // Others at work on the same row would hold the same lock.
  lemma RowsApart(s: Sys, t: Tid, u: Tid)
    requires LockInv(s) && t in s.threads && u in s.threads && t != u
    requires InBody(s.threads[t].pc) && InBody(s.threads[u].pc)
    ensures SlotOf(s.threads[t].req) != SlotOf(s.threads[u].req)
  {
    if SlotOf(s.threads[t].req) == SlotOf(s.threads[u].req) {
      assert ThreadOk(s, t) && ThreadOk(s, u);
      LockNameSeparates(s.threads[t].req, s.threads[u].req);
      OneInBody(s, t, u);
    }
  }

  function DeskAfter(s: Sys, t: Tid, step: Step): Desk
    requires Enabled(s, t, step)
  {
    match step
    case Arrive(_) => s.desk
    case Vanish(id) => s.desk.(gone := s.desk.gone + {id})
    case Move(id, good) =>
      match s.threads[t].pc
      case Creating => if good then Make(s.desk, s.threads[t].req, id) else s.desk
      case Saving(made) => Save(s.desk, s.threads[t].req, made, good)
      case _ => s.desk
  }

  // Only the moving thread's record and, at two of its steps, the desk change.
  lemma StepTouches(s: Sys, t: Tid, step: Step)
    requires Enabled(s, t, step)
    ensures Do(s, t, step).desk == DeskAfter(s, t, step)
    ensures if step.Vanish? then Do(s, t, step).threads == s.threads
            else t in Do(s, t, step).threads && Do(s, t, step).threads == s.threads[t := Do(s, t, step).threads[t]]
  {
    hide LockName, Look, Save, Make;
  }

  lemma OthersWork(s: Sys, t: Tid, step: Step, u: Tid)
    requires LockInv(s) && WorkInv(s) && Enabled(s, t, step) && (u != t || step.Vanish?)
    ensures WorkOk(Do(s, t, step), u)
  {
    hide LockInv, LockName;
    assert WorkOk(s, t) && WorkOk(s, u);
    StepTouches(s, t, step);
    if u in s.threads && t in s.threads && u != t && InBody(s.threads[t].pc) && InBody(s.threads[u].pc) {
      RowsApart(s, t, u);
    }
    hide Do, Enabled;
  }

  lemma OwnWork(s: Sys, t: Tid, step: Step)
    requires WorkInv(s) && Enabled(s, t, step) && !step.Vanish?
    ensures WorkOk(Do(s, t, step), t)
  {
    hide LockName;
    assert WorkOk(s, t);
  }

  lemma StepWorkInv(s: Sys, t: Tid, step: Step)
    requires LockInv(s) && WorkInv(s) && Enabled(s, t, step)
    ensures WorkInv(Do(s, t, step))
  {
    var s' := Do(s, t, step);
    forall u ensures WorkOk(s', u) {
      hide *;
      if u == t && !step.Vanish? { OwnWork(s, t, step); } else { OthersWork(s, t, step, u); }
    }
    StepTouches(s, t, step);
    if !step.Vanish? { NextPc(s, t, step); }
    forall u, v | u in s'.threads && v in s'.threads && s'.threads[u].pc.Saving? && s'.threads[v].pc.Saving?
                  && s'.threads[u].pc.id == s'.threads[v].pc.id
      ensures u == v
    {
      hide LockInv, LockName, Look, Do, Enabled;
      assert WorkOk(s, u) && WorkOk(s, v) && WorkOk(s, t);
      assert u != t ==> u in s.threads && s'.threads[u] == s.threads[u];
      assert v != t ==> v in s.threads && s'.threads[v] == s.threads[v];
    }
  }

  lemma NextPc(s: Sys, t: Tid, step: Step)
    requires Enabled(s, t, step) && !step.Vanish?
    ensures t in Do(s, t, step).threads
    ensures var pc := Do(s, t, step).threads[t].pc;
      pc.Saving? <==> step.Move? && s.threads[t].pc.Creating? && step.good && pc == Saving(step.id) && FreshId(s, step.id)
  {
    hide LockName, Look, Save, Make;
  }

  lemma FlyingChange(threads: map<Tid, Thread>, t: Tid, th: Thread)
    requires forall u :: u in threads && u != t && t in threads && threads[t].pc.Saving? && threads[u].pc.Saving? ==>
      threads[u].pc.id != threads[t].pc.id
    ensures Ids(threads[t := th]) ==
      Ids(threads) - (if t in threads && threads[t].pc.Saving? then {threads[t].pc.id} else {})
        + (if th.pc.Saving? then {th.pc.id} else {})
  {
    var now := threads[t := th];
    forall u | u != t ensures u in threads <==> u in now { }
    assert t in now;
    forall id | id in Ids(threads) && (t in threads && threads[t].pc.Saving? ==> id != threads[t].pc.id)
      ensures id in Ids(now)
    {
      var u :| u in threads && threads[u].pc.Saving? && threads[u].pc.id == id;
      assert u != t && now[u] == threads[u];
    }
  }

  lemma FlyingAfter(s: Sys, t: Tid, step: Step)
    requires WorkInv(s) && Enabled(s, t, step)
    ensures Flying(Do(s, t, step)) ==
      if !step.Move? then Flying(s)
      else match s.threads[t].pc
        case Saving(id) => Flying(s) - {id}
        case Creating => if step.good then Flying(s) + {step.id} else Flying(s)
        case _ => Flying(s)
    ensures t in s.threads && s.threads[t].pc.Saving? ==> s.threads[t].pc.id in Flying(s)
  {
    StepTouches(s, t, step);
    if !step.Vanish? { NextPc(s, t, step); FlyingChange(s.threads, t, Do(s, t, step).threads[t]); }
    forall u | u in s.threads && s.threads[u].pc.Saving? ensures s.threads[u].pc.id in s.desk.made { assert WorkOk(s, u); }
    assert step.Arrive? ==> t !in s.threads;
    assert step.Move? ==> t in s.threads;
    hide WorkOk, Do, Enabled, LockName;
  }

  // A step is either invisible or serves exactly the thread's own request.
  lemma StepServes(s: Sys, t: Tid, step: Step)
    requires LockInv(s) && WorkInv(s) && Enabled(s, t, step)
    ensures Settling(Do(s, t, step)) == Replay(Settling(s), CallOf(s, t, step))
    ensures |CallOf(s, t, step)| <= 1
    ensures forall c :: c in CallOf(s, t, step) && c.Call? && c.accepted ==> c.id !in Settling(s).made
  {
    assert WorkOk(s, t);
    FlyingAfter(s, t, step);
    StepTouches(s, t, step);
    var s' := Do(s, t, step);
    hide LockInv, LockName, WorkInv, WorkOk, Do, Enabled, Ids;
    if CallOf(s, t, step) != [] {
      assert CallOf(s, t, step)[..0] == [];
      hide Look;
    }
  }

  lemma CallIsOwn(s: Sys, t: Tid, step: Step)
    requires WorkInv(s) && Enabled(s, t, step)
    ensures forall c :: c in CallOf(s, t, step) && c.Call? ==>
      && c.caller == t && t in s.threads && s.threads[t].outcome.None? && c.req == s.threads[t].req
      && t in Do(s, t, step).threads
      && Do(s, t, step).threads[t].outcome == Some(Answer(Settling(s), c))
  {
    assert WorkOk(s, t);
    hide LockName, WorkInv, Ids, Save, Make;
  }

  // ------------------------------------------------------------------ whole runs

  // The calls explain the threads: each call is some thread's own request and its answer is that thread's outcome, no
  // thread is served twice, and every outcome comes from a call.
  ghost predicate Explains(threads: map<Tid, Thread>, d: Desk, calls: seq<Call>) {
    && (forall i :: 0 <= i < |calls| && calls[i].Call? ==>
          && calls[i].caller in threads && threads[calls[i].caller].req == calls[i].req
          && threads[calls[i].caller].outcome == Some(AnswerTo(d, calls, i)))
    && (forall i, j :: 0 <= i < j < |calls| && calls[i].Call? && calls[j].Call? ==> calls[i].caller != calls[j].caller)
    && (forall t :: t in threads && threads[t].outcome.Some? ==>
          exists i :: 0 <= i < |calls| && calls[i].Call? && calls[i].caller == t)
  }

  // Requests do not change, nor do outcomes once they are there; without a call no outcome appears.
  lemma OutcomesStay(s: Sys, t: Tid, step: Step, u: Tid)
    requires WorkInv(s) && Enabled(s, t, step)
    ensures u in s.threads ==>
      && u in Do(s, t, step).threads && Do(s, t, step).threads[u].req == s.threads[u].req
      && (s.threads[u].outcome.Some? ==> Do(s, t, step).threads[u].outcome == s.threads[u].outcome)
    ensures u in Do(s, t, step).threads && Do(s, t, step).threads[u].outcome.Some? ==>
      (u in s.threads && s.threads[u].outcome.Some?) || (u == t && |CallOf(s, t, step)| == 1 && CallOf(s, t, step)[0].Call?)
  {
    hide LockName, Look, Save, Make;
    assert WorkOk(s, t);
  }

  // One more step, one more (or no) call.
  lemma CallsGrow(s: Sys, d: Desk, calls: seq<Call>, t: Tid, step: Step)
    requires LockInv(s) && WorkInv(s) && Enabled(s, t, step)
    requires FreshCalls(d, calls) && Settling(s) == Replay(d, calls)
    ensures FreshCalls(d, calls + CallOf(s, t, step))
    ensures Settling(Do(s, t, step)) == Replay(d, calls + CallOf(s, t, step))
    ensures forall i :: 0 <= i < |calls| && calls[i].Call? ==> AnswerTo(d, calls + CallOf(s, t, step), i) == AnswerTo(d, calls, i)
  {
    StepServes(s, t, step);
    ReplayInTwo(d, calls, CallOf(s, t, step));
    var all := calls + CallOf(s, t, step);
    assert forall i :: 0 <= i <= |calls| ==> all[..i] == calls[..i];
    hide LockInv, WorkInv, Enabled, Do, CallOf, Settling, Answer, Replay;
    assert calls[..|calls|] == calls;
    assert |all| > |calls| ==> all[|calls|] in CallOf(s, t, step);
  }

  lemma ExplainedAfter(was: map<Tid, Thread>, now: map<Tid, Thread>, d: Desk, calls: seq<Call>, more: seq<Call>)
    requires Explains(was, d, calls) && |more| <= 1
    requires forall i :: 0 <= i < |calls| && calls[i].Call? ==> AnswerTo(d, calls + more, i) == AnswerTo(d, calls, i)
    requires forall u :: u in was ==>
      u in now && now[u].req == was[u].req && (was[u].outcome.Some? ==> now[u].outcome == was[u].outcome)
    requires forall u :: u in now && now[u].outcome.Some? ==>
      (u in was && was[u].outcome.Some?) || (|more| == 1 && more[0].Call? && more[0].caller == u)
    requires |more| == 1 && more[0].Call? ==>
      var t := more[0].caller;
      t in was && was[t].outcome.None? && was[t].req == more[0].req && now[t].outcome == Some(AnswerTo(d, calls + more, |calls|))
    ensures Explains(now, d, calls + more)
  {
    hide AnswerTo;
    var all := calls + more;
    assert more != [] ==> all[|calls|] == more[0];
    forall u | u in now && now[u].outcome.Some?
      ensures exists i :: 0 <= i < |all| && all[i].Call? && all[i].caller == u
    {
      if u in was && was[u].outcome.Some? {
        var i :| 0 <= i < |calls| && calls[i].Call? && calls[i].caller == u;
        assert all[i] == calls[i];
      } else {
        assert all[|calls|].caller == u;
      }
    }
  }

  lemma StillExplained(s: Sys, d: Desk, calls: seq<Call>, t: Tid, step: Step)
    requires LockInv(s) && WorkInv(s) && Enabled(s, t, step)
    requires FreshCalls(d, calls) && Explains(s.threads, d, calls) && Settling(s) == Replay(d, calls)
    ensures Explains(Do(s, t, step).threads, d, calls + CallOf(s, t, step))
  {
    var s', more := Do(s, t, step), CallOf(s, t, step);
    StepServes(s, t, step);
    CallIsOwn(s, t, step);
    CallsGrow(s, d, calls, t, step);
    assert more != [] ==> more[0] in more && (calls + more)[..|calls|] == calls;
    hide Do, Enabled, LockInv, WorkInv, CallOf, Settling, Answer, Replay, FreshCalls, Explains;
    forall u { OutcomesStay(s, t, step, u); }
    ExplainedAfter(s.threads, s'.threads, d, calls, more);
  }

  // Every run of the threads is a run of whole requests, one after another.
  lemma {:induction false} EveryRunIsSequential(s0: Sys, run: Run)
    requires Initial(s0) && Possible(s0, run)
    ensures LockInv(After(s0, run)) && WorkInv(After(s0, run))
    ensures Settling(After(s0, run)) == Replay(s0.desk, Calls(s0, run))
    ensures FreshCalls(s0.desk, Calls(s0, run))
    ensures Explains(After(s0, run).threads, s0.desk, Calls(s0, run))
  {
    if run != [] {
      var front := run[..|run| - 1];
      var (t, step) := run[|run| - 1];
      var s, calls := After(s0, front), Calls(s0, front);
      assert After(s0, run) == Do(s, t, step) && Calls(s0, run) == calls + CallOf(s, t, step);
      hide LockInv, WorkInv, Explains, FreshCalls, Enabled, Do, CallOf, Settling, Initial, Replay;
      EveryRunIsSequential(s0, front);
      StepLockInv(s, t, step);
      StepWorkInv(s, t, step);
      CallsGrow(s, s0.desk, calls, t, step);
      StillExplained(s, s0.desk, calls, t, step);
    }
  }

  // ------------------------------------------------------------------ what callers may rely on

  // Two threads with one key, one of which created: the other was answered from the row that one wrote, or had failed
  // (or lost its row) before.
  lemma OneCreatorInEveryRun(s0: Sys, run: Run, t: Tid, u: Tid)
    requires Initial(s0) && Possible(s0, run)
    requires t in After(s0, run).threads && u in After(s0, run).threads && t != u
    requires var th, other := After(s0, run).threads[t], After(s0, run).threads[u];
      && SlotOf(other.req) == SlotOf(th.req) && Settled(After(s0, run).desk, SlotOf(th.req))
      && th.outcome.Some? && th.outcome.value.Created? && other.outcome.Some?
    ensures var th, other := After(s0, run).threads[t], After(s0, run).threads[u];
      && After(s0, run).desk.table[SlotOf(th.req)] == Record(th.outcome.value.id, Some(th.req.mark))
      && match other.outcome.value
         case Replayed(id) => id == th.outcome.value.id && SameMark(Record(id, Some(th.req.mark)), other.req.mark)
         case Mismatch => !SameMark(Record(th.outcome.value.id, Some(th.req.mark)), other.req.mark)
         case Created(_) => false
         case Failed => true
         case Unrecorded(_) => true
  {
    var s, calls := After(s0, run), Calls(s0, run);
    EveryRunIsSequential(s0, run);
    var a :| 0 <= a < |calls| && calls[a].Call? && calls[a].caller == t;
    var b :| 0 <= b < |calls| && calls[b].Call? && calls[b].caller == u;
    hide LockInv, WorkInv, Initial, Possible, After, Calls, FreshCalls, Replay, AnswerTo;
    OneCreator(s0.desk, calls, a, b);
  }

  // What is still being recorded has no row yet, or its row names a lost workflow.
  lemma InFlight(s: Sys, id: Id) returns (t: Tid)
    requires WorkInv(s) && id in Flying(s)
    ensures t in s.threads && s.threads[t].pc == Saving(id) && id in s.desk.made && s.desk.made[id] == SlotOf(s.threads[t].req)
    ensures Look(s.desk, s.threads[t].req).None?
  {
    t :| t in s.threads && s.threads[t].pc.Saving? && s.threads[t].pc.id == id;
    assert WorkOk(s, t);
  }

  lemma AtMostOneEach(s: Sys, i: Id, j: Id)
    requires LockInv(s) && WorkInv(s) && Accounted(Settling(s))
    requires i in s.desk.made && j in s.desk.made && s.desk.made[i] == s.desk.made[j]
    requires i !in s.desk.strays && j !in s.desk.strays
    requires s.desk.made[i] in s.desk.table ==> Settled(s.desk, s.desk.made[i])
    ensures i == j
  {
    assert i !in Flying(s) ==> i in Settling(s).made;
    assert j !in Flying(s) ==> j in Settling(s).made;
    hide LockInv, WorkInv, Ids;
    if i in Flying(s) {
      var t := InFlight(s, i);
      if j in Flying(s) {
        var u := InFlight(s, j);
        if t != u { RowsApart(s, t, u); }
      }
    } else if j in Flying(s) {
      var u := InFlight(s, j);
    }
  }

  // However requests overlap, one key never has two jobs, not even while a row is being written, except for jobs whose
  // row could not be written at all; nor two workflows while the recorded one exists.
  lemma AtMostOneEachInEveryRun(s0: Sys, run: Run, i: Id, j: Id)
    requires Initial(s0) && Possible(s0, run)
    requires var desk := After(s0, run).desk;
      && i in desk.made && j in desk.made && desk.made[i] == desk.made[j] && i !in desk.strays && j !in desk.strays
      && (desk.made[i] in desk.table ==> Settled(desk, desk.made[i]))
    ensures i == j
  {
    EveryRunIsSequential(s0, run);
    AllAccounted(s0.desk, Calls(s0, run));
    AtMostOneEach(After(s0, run), i, j);
  }

  lemma {:induction false} CallsOfPrefix(s0: Sys, run: Run, n: nat)
    requires Possible(s0, run) && n <= |run|
    ensures Possible(s0, run[..n]) && Calls(s0, run[..n]) <= Calls(s0, run)
  {
    if n < |run| {
      CallsOfPrefix(s0, run[..|run| - 1], n);
      assert run[..|run| - 1][..n] == run[..n];
    } else {
      assert run[..n] == run;
    }
  }

  // A thread that was not there yet is served after everything so far.
  lemma ServedLater(was: map<Tid, Thread>, now: map<Tid, Thread>, d: Desk, first: seq<Call>, calls: seq<Call>, u: Tid)
    returns (i: nat)
    requires Explains(was, d, first) && Explains(now, d, calls) && first <= calls
    requires u !in was && u in now && now[u].outcome.Some?
    ensures |first| <= i < |calls| && calls[i].Call? && calls[i].req == now[u].req
    ensures now[u].outcome == Some(AnswerTo(d, calls, i))
  {
    i :| 0 <= i < |calls| && calls[i].Call? && calls[i].caller == u;
    assert forall k :: 0 <= k < |first| ==> first[k] == calls[k];
  }

  // A request that arrives once its key has a row is answered from that row.
  lemma LaterRequestsReplay(s0: Sys, run: Run, n: nat, u: Tid)
    requires Initial(s0) && Possible(s0, run) && n <= |run| && Possible(s0, run[..n])
    requires u !in After(s0, run[..n]).threads && u in After(s0, run).threads && After(s0, run).threads[u].outcome.Some?
    requires var slot := SlotOf(After(s0, run).threads[u].req);
      slot in After(s0, run[..n]).desk.table && Settled(After(s0, run).desk, slot)
    ensures var th := After(s0, run).threads[u]; var record := After(s0, run[..n]).desk.table[SlotOf(th.req)];
      th.outcome == Some(if SameMark(record, th.req.mark) then Replayed(record.id) else Mismatch)
  {
    EveryRunIsSequential(s0, run);
    EveryRunIsSequential(s0, run[..n]);
    CallsOfPrefix(s0, run, n);
    var was, now, first, calls := After(s0, run[..n]), After(s0, run), Calls(s0, run[..n]), Calls(s0, run);
    hide LockInv, WorkInv, Initial, Possible, After, Calls, FreshCalls, Replay, AnswerTo, Explains;
    var i := ServedLater(was.threads, now.threads, s0.desk, first, calls, u);
    assert calls[..|first|] == first;
    SettledAfter(s0.desk, calls, SlotOf(calls[i].req), |first|, i);
  }
}
