// When the automatic run starts: looked at on every pass of the health loop, at most one at a time, and no sooner than
// the interval after the last start.
module BillingSchedule {
  import opened Options

  datatype Clock = Clock(running: bool, nextDue: Option<real>)

  // One pass. `allowed`: switched on, with a database, and leading; `firstDue`: when the first run after a start is due.
  datatype Event = Pass(allowed: bool, at: real, firstDue: real, interval: real) | RunEnds

  function Tick(c: Clock, e: Event): (Clock, bool)
    requires e.Pass?
  {
    var due := if c.nextDue.Some? then c.nextDue.value else e.firstDue;
    if !e.allowed then (c, false)
    else if e.at < due || c.running then (c.(nextDue := Some(due)), false)
    else (Clock(true, Some(e.at + e.interval)), true)
  }

  class Schedule {
    var running: bool
    var nextDue: Option<real>

    constructor ()
      ensures Clock(running, nextDue) == Clock(false, None)
    {
      running, nextDue := false, None;
    }

    method MaybeTick(allowed: bool, at: real, firstDue: real, interval: real) returns (started: bool)
      modifies this
      ensures (Clock(running, nextDue), started) == Tick(old(Clock(running, nextDue)), Pass(allowed, at, firstDue, interval))
    {
      if !allowed {
        return false;
      }
      if nextDue.None? {
        nextDue := Some(firstDue);
      }
      if at < nextDue.value || running {
        return false;
      }
      running := true;
      nextDue := Some(at + interval);
      return true;
    }

    method Ended()
      modifies this
      ensures !running && nextDue == old(nextDue)
    {
      running := false;
    }
  }

  // The clock after the events, when the runs started, and how many have ended.
  datatype Trace = Trace(clock: Clock, starts: seq<real>, ends: nat)

  function After(events: seq<Event>): Trace {
    if events == [] then Trace(Clock(false, None), [], 0)
    else
      var t, e := After(events[..|events| - 1]), events[|events| - 1];
      match e
      case RunEnds => Trace(t.clock.(running := false), t.starts, t.ends + 1)
      case Pass(_, at, _, _) =>
        var (clock, started) := Tick(t.clock, e);
        Trace(clock, if started then t.starts + [at] else t.starts, t.ends)
  }

  // Time does not go back, intervals are at least `least`, and only a run that is going ends.
  predicate Sensible(events: seq<Event>, least: real) {
    && (forall i :: 0 <= i < |events| && events[i].Pass? ==> events[i].interval >= least)
    && (forall i, j :: 0 <= i < j < |events| && events[i].Pass? && events[j].Pass? ==> events[i].at <= events[j].at)
    && (forall i :: 0 <= i < |events| && events[i].RunEnds? ==> After(events[..i]).clock.running)
  }

  // Scheduled runs never overlap and start at least the interval apart.
  lemma {:induction false} RunsAreSpaced(events: seq<Event>, least: real)
    requires Sensible(events, least)
    ensures var t := After(events);
      && |t.starts| == t.ends + (if t.clock.running then 1 else 0)
      && (forall i :: 0 < i < |t.starts| ==> t.starts[i] >= t.starts[i - 1] + least)
      && (t.starts != [] ==> t.clock.nextDue.Some? && t.clock.nextDue.value >= t.starts[|t.starts| - 1] + least)
  {
    if events != [] {
      var front, e := events[..|events| - 1], events[|events| - 1];
      assert forall i :: 0 <= i < |front| ==> front[..i] == events[..i];
      RunsAreSpaced(front, least);
    }
  }
}
