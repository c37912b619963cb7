/** The heartbeat that shuts an idle VM down: one observation, and a second one before acting. */
module Heartbeat {
  import opened Optional
  import opened Idle

  /** Two readings in a row, the last ones of the stream, both decided for shutdown. */
  ghost predicate DecidedTwice(all: seq<Sample>, p: Policy) {
    |all| > 2 && DecisionAt(all, |all| - 2, p) == Shutdown && DecisionAt(all, |all| - 1, p) == Shutdown
  }

  function Readings(pid: int, reading: Option<Sample>): seq<Sample> {
    if reading.Some? then [reading.value.(pid := pid)] else []
  }

  /** A managed VM: one Firecracker process, with a monitor once a first sample was read.
      `seen` are the samples read so far. */
  class WatchedVm {
    const pid: int
    var monitor: Monitor?
    ghost var seen: seq<Sample>

    ghost predicate Valid(p: Policy)
      reads this, monitor
    {
      && (monitor == null <==> seen == [])
      && (monitor != null ==> monitor.Value() == After(seen, |seen| - 1, p))
      && forall j :: 0 <= j < |seen| ==> seen[j].pid == pid
    }

    constructor (pid: int)
      ensures this.pid == pid && monitor == null && seen == []
    {
      this.pid := pid;
      monitor := null;
      seen := [];
    }

    /** `observation`: `reading` is None when no sample can be read. The first sample only
        sets the baseline. */
    method ObservationOf(reading: Option<Sample>, p: Policy) returns (o: Option<Observation>)
      requires Valid(p)
      modifies this, monitor
      ensures Valid(p) && (monitor == old(monitor) || fresh(monitor))
      ensures seen == old(seen) + Readings(pid, reading)
      ensures o.Some? <==> reading.Some? && old(seen) != []
      ensures o.Some? ==> o.value.sample == seen[|seen| - 1] && o.value.decision == DecisionAt(seen, |seen| - 1, p)
    {
      hide Observed, ActivitySince, CpuPercentSince;
      if reading.None? {
        return None;
      }
      var sample := reading.value.(pid := pid);
      ghost var before := seen;
      seen := seen + [sample];
      if monitor == null {
        monitor := new Monitor(sample, p);
        return None;
      }
      AfterPrefix(before, sample, |before| - 1, p);
      var observation := monitor.ObservationOf(sample, p);
      return Some(observation);
    }

    /** `heartbeat` and `final_heartbeat_and_shutdown`, up to the shutdown itself. */
    method Heartbeat(first: Option<Sample>, second: Option<Sample>, p: Policy) returns (stop: bool)
      requires Valid(p)
      modifies this, monitor
      ensures Valid(p) && (monitor == old(monitor) || fresh(monitor))
      ensures seen == old(seen) + Readings(pid, first) +
                if LooksAgain(old(seen), pid, first, p) then Readings(pid, second) else []
      ensures stop <==> DecidedTwice(seen, p) && |seen| == |old(seen)| + 2
    {
      hide *;
      ReadingsAre(pid, first);
      ReadingsAre(pid, second);
      LooksAgainIs(seen, pid, first, p);
      var observation := ObservationOf(first, p);
      if observation.None? || observation.value.decision != Shutdown {
        return false;
      }
      var expected := observation.value.sample.pid;
      if pid != expected {
        return false;
      }
      ghost var before := seen;
      observation := ObservationOf(second, p);
      if observation.None? {
        return false;
      }
      DecidedAgain(before, second.value.(pid := pid), p);
      return observation.value.decision == Shutdown;
    }
  }

  lemma {:induction false} AfterPrefix(all: seq<Sample>, s: Sample, k: int, p: Policy)
    requires 0 <= k < |all|
    ensures After(all + [s], k, p) == After(all, k, p)
  {
    if k > 0 {
      AfterPrefix(all, s, k - 1, p);
    }
  }

  /** A second sample is taken only when the first one was decided for shutdown. */
  ghost predicate LooksAgain(seen: seq<Sample>, pid: int, first: Option<Sample>, p: Policy) {
    first.Some? && seen != [] && DecisionAt(seen + [first.value.(pid := pid)], |seen|, p) == Shutdown
  }

  lemma {:induction false} LooksAgainIs(seen: seq<Sample>, pid: int, first: Option<Sample>, p: Policy)
    ensures LooksAgain(seen, pid, first, p) <==>
              first.Some? && seen != [] && DecisionAt(seen + [first.value.(pid := pid)], |seen|, p) == Shutdown
  {
  }

  lemma {:induction false} ReadingsAre(pid: int, reading: Option<Sample>)
    ensures Readings(pid, reading) == if reading.Some? then [reading.value.(pid := pid)] else []
  {
  }

  lemma {:induction false} DecidedAgain(all: seq<Sample>, s: Sample, p: Policy)
    requires |all| > 1
    ensures DecidedTwice(all + [s], p) <==>
              DecisionAt(all, |all| - 1, p) == Shutdown && DecisionAt(all + [s], |all|, p) == Shutdown
  {
    AfterPrefix(all, s, |all| - 2, p);
    hide After, Observed;
  }

  /** An automatic shutdown stops a VM that, by two readings of one process, has been idle
      for the four waits. */
  lemma {:induction false} AutomaticShutdownIsIdle(all: seq<Sample>, vcpus: nat, p: Policy)
    requires DecidedTwice(all, p)
    ensures var k := |all| - 1; var a := LastActive(all, k, p);
            && a == LastActive(all, k - 1, p) < k - 1 && Still(all, a, k)
            && all[k - 1].at >= all[a].at + p.initial + 2 * p.strike + p.last
            && (vcpus > 0 && Steady(all, a, k, vcpus) ==> CpuWithin(all[a], all[k], vcpus, p))
  {
    hide *;
    var k := |all| - 1;
    Twice(all, p);
    ShutdownIsIdle(all, k, vcpus, p);
    ShutdownIsIdle(all, k - 1, vcpus, p);
    LastActiveStays(all, k - 1, k, p);
  }

  lemma {:induction false} Twice(all: seq<Sample>, p: Policy)
    requires DecidedTwice(all, p)
    ensures |all| > 2 && DecisionAt(all, |all| - 2, p) == Shutdown && DecisionAt(all, |all| - 1, p) == Shutdown
  {
  }
}
