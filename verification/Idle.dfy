/** The idle monitor of a running VM: a strike machine over an unbounded stream of samples.
    Times are nanoseconds; CPU shares are exact reals. */
module Idle {
  import opened Optional

  datatype Policy = Policy(initial: nat, strike: nat, last: nat, high: real, low: real) {
    /** The CPU share, in percent of one vCPU, above which a VM counts as active. */
    function Threshold(): real {
      high + 0.2 * (low - high)
    }
  }

  /** `cpu` is in microseconds. */
  datatype Sample = Sample(
    pid: int, at: int, cpu: nat, memory: nat, processes: nat, network: nat, disk: nat,
    established: nat, connections: nat, vcpus: nat)

  datatype Decision = Undecided | ActivityReset | Strike(n: nat) | Shutdown

  datatype State = State(lastSample: Sample, lastActivity: int, strikes: nat, nextCheck: int)

  datatype Activity = Activity(active: bool, regressed: bool, cpuPercent: Option<real>)

  function CpuPercentSince(s: Sample, previous: Sample): Option<real> {
    if s.at < previous.at || s.cpu < previous.cpu || s.at == previous.at || s.vcpus == 0 then None
    else Some(100.0 * ((s.cpu - previous.cpu) * 1000) as real / ((s.at - previous.at) * s.vcpus) as real)
  }

  function ActivitySince(s: Sample, previous: Sample, p: Policy): Activity {
    var regressed :=
      s.pid != previous.pid || s.cpu < previous.cpu || s.network < previous.network || s.disk < previous.disk;
    var cpuPercent := CpuPercentSince(s, previous);
    Activity(
      || regressed
      || (cpuPercent.Some? && cpuPercent.value > p.Threshold())
      || s.network > previous.network || s.disk > previous.disk
      || s.processes != previous.processes || s.established > 0,
      regressed, cpuPercent)
  }

  function Baseline(s: Sample, p: Policy): State {
    State(s, s.at, 0, s.at + p.initial)
  }

  function Observed(m: State, s: Sample, p: Policy): (r: (State, Decision)) {
    if ActivitySince(s, m.lastSample, p).active then (Baseline(s, p), ActivityReset)
    else if s.at < m.nextCheck then (m.(lastSample := s), Undecided)
    else if m.strikes < 3 then
      (State(s, m.lastActivity, m.strikes + 1, s.at + Wait(m.strikes + 1, p)), Strike(m.strikes + 1))
    else (m.(lastSample := s), Shutdown)
  }

  /** How long the monitor waits at least after its nth strike, the 0th being activity. */
  function Wait(n: nat, p: Policy): nat {
    if n == 0 then p.initial else if n == 3 then p.last else p.strike
  }

  datatype Observation = Observation(sample: Sample, decision: Decision, activity: Activity, lastActivity: int)

  /** The monitor object of a managed VM. */
  class Monitor {
    var lastSample: Sample
    var lastActivity: int
    var strikes: nat
    var nextCheck: int

    constructor (s: Sample, p: Policy)
      ensures Value() == Baseline(s, p)
    {
      lastSample, lastActivity, strikes, nextCheck := s, s.at, 0, s.at + p.initial;
    }

    ghost function Value(): State
      reads this
    {
      State(lastSample, lastActivity, strikes, nextCheck)
    }

    method Observe(s: Sample, p: Policy) returns (decision: Decision, activity: Activity)
      modifies this
      ensures (Value(), decision) == Observed(old(Value()), s, p)
      ensures activity == ActivitySince(s, old(lastSample), p)
      ensures decision == ActivityReset <==> activity.active
    {
      activity := ActivitySince(s, lastSample, p);
      lastSample := s;
      if activity.active {
        lastActivity, strikes, nextCheck := s.at, 0, s.at + p.initial;
        return ActivityReset, activity;
      }
      if s.at < nextCheck {
        return Undecided, activity;
      }
      if strikes < 3 {
        strikes := strikes + 1;
        nextCheck := s.at + if strikes == 3 then p.last else p.strike;
        return Strike(strikes), activity;
      }
      return Shutdown, activity;
    }

    method ObservationOf(s: Sample, p: Policy) returns (o: Observation)
      modifies this
      ensures (Value(), o.decision) == Observed(old(Value()), s, p)
      ensures o.sample == s && o.activity == ActivitySince(s, old(lastSample), p)
      ensures o.lastActivity == if o.decision == ActivityReset then s.at else old(lastActivity)
    {
      var decision, activity := Observe(s, p);
      return Observation(s, decision, activity, lastActivity);
    }
  }

  // A whole stream: the first sample is the baseline, every later one is observed.

  function After(all: seq<Sample>, k: nat, p: Policy): State
    requires k < |all|
  {
    if k == 0 then Baseline(all[0], p) else Observed(After(all, k - 1, p), all[k], p).0
  }

  function DecisionAt(all: seq<Sample>, k: nat, p: Policy): Decision
    requires 0 < k < |all|
  {
    Observed(After(all, k - 1, p), all[k], p).1
  }

  ghost predicate ActiveAt(all: seq<Sample>, k: nat, p: Policy)
    requires 0 < k < |all|
  {
    ActivitySince(all[k], all[k - 1], p).active
  }

  /** The last sample, up to the kth, that is the baseline or shows activity. */
  ghost function LastActive(all: seq<Sample>, k: nat, p: Policy): (a: nat)
    requires k < |all|
    ensures a <= k && forall j :: a < j <= k ==> !ActiveAt(all, j, p)
    ensures a == 0 || ActiveAt(all, a, p)
  {
    if k == 0 || ActiveAt(all, k, p) then k else LastActive(all, k - 1, p)
  }

  /** The first sample after `from` taken at `t` or later. */
  ghost predicate FirstAtLeast(all: seq<Sample>, from: nat, i: nat, t: int) {
    from < i < |all| && all[i].at >= t && forall j :: from < j < i ==> all[j].at < t
  }

  /** The ladder of strikes above sample `a`, as a statement about times alone: the nth
      rung is the first sample taken the nth wait or more after the rung below. */
  ghost predicate Rung(all: seq<Sample>, a: nat, n: nat, i: nat, p: Policy)
    decreases n, 1
  {
    if n == 0 then i == a < |all| else exists h: nat :: RungAbove(all, a, n, h, i, p)
  }

  ghost predicate RungAbove(all: seq<Sample>, a: nat, n: nat, h: nat, i: nat, p: Policy)
    requires n > 0
    decreases n, 0
  {
    h < i < |all| && Rung(all, a, n - 1, h, p) && FirstAtLeast(all, h, i, all[h].at + Wait(n - 1, p))
  }

  lemma {:induction false} RungIsUnique(all: seq<Sample>, a: nat, n: nat, i: nat, j: nat, p: Policy)
    requires Rung(all, a, n, i, p) && Rung(all, a, n, j, p)
    ensures i == j
  {
    if n > 0 {
      var g: nat :| RungAbove(all, a, n, g, i, p);
      var h: nat :| RungAbove(all, a, n, h, j, p);
      RungIsUnique(all, a, n - 1, g, h, p);
    }
  }

  /** Where the monitor stands after sample `k`: on rung `strikes`, the `i`th sample, and
      below the last rung no later sample has reached the next one. */
  ghost predicate StandsOn(all: seq<Sample>, k: nat, i: nat, p: Policy)
    requires k < |all|
  {
    var m, a := After(all, k, p), LastActive(all, k, p);
    && i <= k && m.strikes <= 3 && m.lastSample == all[k] && m.lastActivity == all[a].at
    && Rung(all, a, m.strikes, i, p) && m.nextCheck == all[i].at + Wait(m.strikes, p)
    && (m.strikes < 3 ==> forall j :: i < j <= k ==> all[j].at < m.nextCheck)
  }

  lemma {:induction false} Stands(all: seq<Sample>, k: nat, p: Policy) returns (i: nat)
    requires k < |all|
    ensures StandsOn(all, k, i, p)
  {
    if k == 0 || ActiveAt(all, k, p) {
      i := k;
      if k > 0 {
        var _ := Stands(all, k - 1, p);
      }
    } else {
      i := Stands(all, k - 1, p);
      var m := After(all, k - 1, p);
      if m.nextCheck <= all[k].at && m.strikes < 3 {
        assert FirstAtLeast(all, i, k, all[i].at + Wait(m.strikes, p));
        assert RungAbove(all, LastActive(all, k, p), m.strikes + 1, i, k, p);
        i := k;
      }
    }
  }

  lemma {:induction false} RungBelow(all: seq<Sample>, a: nat, n: nat, i: nat, m: nat, p: Policy) returns (j: nat)
    requires Rung(all, a, n, i, p) && m <= n
    ensures Rung(all, a, m, j, p) && j <= i
  {
    j := i;
    if m < n {
      var h: nat :| RungAbove(all, a, n, h, i, p);
      j := RungBelow(all, a, n - 1, h, m, p);
    }
  }

  /** A rung the stream has reached is one the monitor has counted. */
  lemma {:induction false} RungCounted(all: seq<Sample>, k: nat, n: nat, j: nat, p: Policy)
    requires j <= k < |all| && n <= 3 && Rung(all, LastActive(all, k, p), n, j, p)
    ensures n <= After(all, k, p).strikes
  {
    var a, s := LastActive(all, k, p), After(all, k, p).strikes;
    var i := Stands(all, k, p);
    if s < n {
      var next := RungBelow(all, a, n, j, s + 1, p);
      var h: nat :| RungAbove(all, a, s + 1, h, next, p);
      RungIsUnique(all, a, s, h, i, p);
    }
  }

  /** A monitor that has counted a rung reached it no later than its last sample. */
  lemma {:induction false} CountedOnce(all: seq<Sample>, k: nat, n: nat, j: nat, p: Policy)
    requires k < |all| && Rung(all, LastActive(all, k, p), n, j, p) && n <= After(all, k, p).strikes
    ensures j <= k
  {
    var i := Stands(all, k, p);
    var j' := RungBelow(all, LastActive(all, k, p), After(all, k, p).strikes, i, n, p);
    RungIsUnique(all, LastActive(all, k, p), n, j, j', p);
  }

  /** One observation, without the inside of the activity test. */
  lemma {:induction false} Turn(all: seq<Sample>, k: nat, p: Policy)
    requires 0 < k < |all|
    ensures var m, u, d := After(all, k - 1, p), After(all, k, p), DecisionAt(all, k, p);
            && (ActiveAt(all, k, p) <==> d == ActivityReset)
            && (d == ActivityReset ==> u.strikes == 0)
            && (forall n :: d == Strike(n) ==> n == u.strikes == m.strikes + 1 <= 3)
            && (d == Undecided || d == Shutdown ==> u.strikes == m.strikes)
            && (m.strikes == 3 && d != ActivityReset ==> (d == Shutdown <==> all[k].at >= m.nextCheck))
            && (d == Shutdown ==> m.strikes == 3)
            && (!ActiveAt(all, k, p) ==> LastActive(all, k, p) == LastActive(all, k - 1, p))
  {
    var _ := Stands(all, k - 1, p);
    hide CpuPercentSince, ActivitySince, Rung, RungAbove;
  }

  /** The monitor strikes for the nth time exactly at the nth rung above the last activity. */
  lemma {:induction false} StrikeMeans(all: seq<Sample>, k: nat, n: nat, p: Policy)
    requires 0 < k < |all|
    ensures DecisionAt(all, k, p) == Strike(n) <==>
              !ActiveAt(all, k, p) && 1 <= n <= 3 && Rung(all, LastActive(all, k, p), n, k, p)
  {
    hide *;
    Turn(all, k, p);
    var i := StandsFacts(all, k - 1, p);
    var j := StandsFacts(all, k, p);
    if !ActiveAt(all, k, p) && 1 <= n <= 3 && Rung(all, LastActive(all, k, p), n, k, p) {
      RungCounted(all, k, n, k, p);
      if n <= After(all, k - 1, p).strikes {
        CountedOnce(all, k - 1, n, k, p);
      }
    }
    if DecisionAt(all, k, p) == Strike(n) && j < k {
      RungCounted(all, k - 1, n, j, p);
    }
  }

  lemma {:induction false} StandsFacts(all: seq<Sample>, k: nat, p: Policy) returns (i: nat)
    requires k < |all|
    ensures var m, a := After(all, k, p), LastActive(all, k, p);
            && i <= k && m.strikes <= 3 && Rung(all, a, m.strikes, i, p)
            && m.nextCheck == all[i].at + Wait(m.strikes, p)
            && (m.strikes < 3 && i < k ==> all[k].at < m.nextCheck)
  {
    i := Stands(all, k, p);
  }

  /** It shuts down exactly at an idle sample taken the final wait or more after the third
      rung. */
  lemma {:induction false} ShutdownMeans(all: seq<Sample>, k: nat, p: Policy)
    requires 0 < k < |all|
    ensures DecisionAt(all, k, p) == Shutdown <==>
              !ActiveAt(all, k, p) && exists i: nat :: i < k && LastWait(all, LastActive(all, k, p), i, k, p)
  {
    hide *;
    Turn(all, k, p);
    var i := StandsFacts(all, k - 1, p);
    var a := LastActive(all, k, p);
    WaitAtTop(p);
    if DecisionAt(all, k, p) == Shutdown {
      LastWaitIs(all, a, i, k, p);
    }
    forall j: nat | j < k && !ActiveAt(all, k, p) && LastWait(all, a, j, k, p)
      ensures DecisionAt(all, k, p) == Shutdown
    {
      LastWaitIs(all, a, j, k, p);
      RungCounted(all, k - 1, 3, j, p);
      RungIsUnique(all, a, 3, i, j, p);
    }
  }

  lemma {:induction false} WaitAtTop(p: Policy)
    ensures Wait(3, p) == p.last
  {
  }

  ghost predicate LastWait(all: seq<Sample>, a: nat, i: nat, k: nat, p: Policy)
    requires i < k < |all|
  {
    Rung(all, a, 3, i, p) && all[i].at + p.last <= all[k].at
  }

  lemma {:induction false} LastWaitIs(all: seq<Sample>, a: nat, i: nat, k: nat, p: Policy)
    requires i < k < |all|
    ensures LastWait(all, a, i, k, p) <==> Rung(all, a, 3, i, p) && all[i].at + p.last <= all[k].at
  {
  }

  // The same in the policy's own terms.

  /** No sample after the `i`-th, up to the `k`-th, shows activity. */
  ghost predicate IdleFrom(all: seq<Sample>, i: nat, k: nat, p: Policy) {
    i < k < |all| && forall j :: i < j <= k ==> !ActiveAt(all, j, p)
  }

  /** The first strike comes at the first sample the initial interval or more after the last
      activity. */
  lemma {:induction false} FirstStrike(all: seq<Sample>, a: nat, k: nat, p: Policy)
    requires a < k < |all| && IdleFrom(all, a, k, p) && (a == 0 || ActiveAt(all, a, p))
    ensures DecisionAt(all, k, p) == Strike(1) <==> FirstAtLeast(all, a, k, all[a].at + p.initial)
  {
    hide *;
    IdleFromActive(all, a, k, p);
    StrikeMeans(all, k, 1, p);
    RungOne(all, a, k, p);
  }

  /** The second comes at the first sample the strike interval or more after the first, and the
      third at the first sample the strike interval or more after the second. */
  lemma {:induction false} NextStrike(all: seq<Sample>, i: nat, k: nat, n: nat, p: Policy)
    requires 0 < i < k < |all| && IdleFrom(all, i, k, p) && DecisionAt(all, i, p) == Strike(n) && (n == 1 || n == 2)
    ensures DecisionAt(all, k, p) == Strike(n + 1) <==> FirstAtLeast(all, i, k, all[i].at + p.strike)
  {
    hide *;
    var a := LastActive(all, i, p);
    IdleFromLast(all, i, k, p);
    StrikeMeans(all, i, n, p);
    StrikeMeans(all, k, n + 1, p);
    RungNext(all, a, n + 1, i, k, p);
    WaitsAre(p);
  }

  /** A shutdown is decided at every sample the final interval or more after the third strike. */
  lemma {:induction false} ShutdownAfterStrikes(all: seq<Sample>, i: nat, k: nat, p: Policy)
    requires 0 < i < k < |all| && IdleFrom(all, i, k, p) && DecisionAt(all, i, p) == Strike(3)
    ensures DecisionAt(all, k, p) == Shutdown <==> all[k].at >= all[i].at + p.last
  {
    hide *;
    var a := LastActive(all, i, p);
    IdleFromLast(all, i, k, p);
    StrikeMeans(all, i, 3, p);
    ShutdownMeans(all, k, p);
    LastWaitIs(all, a, i, k, p);
    forall j: nat | j < k && LastWait(all, a, j, k, p)
      ensures j == i
    {
      LastWaitIs(all, a, j, k, p);
      RungIsUnique(all, a, 3, i, j, p);
    }
  }

  lemma {:induction false} WaitsAre(p: Policy)
    ensures Wait(1, p) == Wait(2, p) == p.strike
  {
  }

  lemma {:induction false} IdleFromActive(all: seq<Sample>, a: nat, k: nat, p: Policy)
    requires IdleFrom(all, a, k, p) && (a == 0 || ActiveAt(all, a, p))
    ensures LastActive(all, k, p) == a && !ActiveAt(all, k, p)
  {
    hide ActiveAt;
    IdleFromLast(all, a, k, p);
  }

  lemma {:induction false} IdleFromLast(all: seq<Sample>, i: nat, k: nat, p: Policy)
    requires IdleFrom(all, i, k, p)
    ensures LastActive(all, k, p) == LastActive(all, i, p) && !ActiveAt(all, k, p)
  {
    hide ActiveAt;
    if i + 1 < k {
      IdleFromLast(all, i, k - 1, p);
    }
  }

  lemma {:induction false} RungOne(all: seq<Sample>, a: nat, k: nat, p: Policy)
    requires a < |all|
    ensures Rung(all, a, 1, k, p) <==> FirstAtLeast(all, a, k, all[a].at + p.initial)
  {
    if Rung(all, a, 1, k, p) {
      var h: nat :| RungAbove(all, a, 1, h, k, p);
    }
    if FirstAtLeast(all, a, k, all[a].at + p.initial) {
      assert RungAbove(all, a, 1, a, k, p);
    }
  }

  lemma {:induction false} RungDown(all: seq<Sample>, a: nat, n: nat, k: nat, p: Policy) returns (h: nat)
    requires n > 0 && Rung(all, a, n, k, p)
    ensures h < k < |all| && Rung(all, a, n - 1, h, p) && FirstAtLeast(all, h, k, all[h].at + Wait(n - 1, p))
  {
    h :| RungAbove(all, a, n, h, k, p);
  }

  lemma {:induction false} RungUp(all: seq<Sample>, a: nat, n: nat, h: nat, k: nat, p: Policy)
    requires n > 0 && h < k < |all| && Rung(all, a, n - 1, h, p) && FirstAtLeast(all, h, k, all[h].at + Wait(n - 1, p))
    ensures Rung(all, a, n, k, p)
  {
    assert RungAbove(all, a, n, h, k, p);
  }

  lemma {:induction false} RungNext(all: seq<Sample>, a: nat, n: nat, i: nat, k: nat, p: Policy)
    requires n > 0 && i < k < |all| && Rung(all, a, n - 1, i, p)
    ensures Rung(all, a, n, k, p) <==> FirstAtLeast(all, i, k, all[i].at + Wait(n - 1, p))
  {
    hide Rung, RungAbove, Wait;
    if Rung(all, a, n, k, p) {
      var h := RungDown(all, a, n, k, p);
      RungIsUnique(all, a, n - 1, h, i, p);
    } else if FirstAtLeast(all, i, k, all[i].at + Wait(n - 1, p)) {
      RungUp(all, a, n, i, k, p);
    }
  }

  /** The strikes issued since the last activity, in order. */
  ghost function Issued(all: seq<Sample>, k: nat, p: Policy): seq<nat>
    requires k < |all|
  {
    if k == 0 then []
    else
      match DecisionAt(all, k, p)
      case ActivityReset => []
      case Strike(n) => Issued(all, k - 1, p) + [n]
      case _ => Issued(all, k - 1, p)
  }

  /** Strikes come one, two, three, and a shutdown only after all of them. */
  lemma {:induction false} StrikesInOrder(all: seq<Sample>, k: nat, p: Policy)
    requires k < |all|
    ensures After(all, k, p).strikes <= 3 && Issued(all, k, p) == [1, 2, 3][..After(all, k, p).strikes]
    ensures k > 0 && DecisionAt(all, k, p) == Shutdown ==> Issued(all, k, p) == Issued(all, k - 1, p) == [1, 2, 3]
  {
    hide DecisionAt, LastActive, ActiveAt;
    if k > 0 {
      StrikesInOrder(all, k - 1, p);
      hide *;
      Turn(all, k, p);
      IssuedStep(all, k, p);
    }
  }

  lemma {:induction false} IssuedStep(all: seq<Sample>, k: nat, p: Policy)
    requires 0 < k < |all|
    ensures Issued(all, k, p) ==
              match DecisionAt(all, k, p)
              case ActivityReset => []
              case Strike(n) => Issued(all, k - 1, p) + [n]
              case _ => Issued(all, k - 1, p)
  {
  }

  // When a shutdown comes.

  /** The least time from activity to the nth strike, for 4 to the shutdown. */
  function Due(n: nat, p: Policy): nat {
    if n == 0 then 0 else Due(n - 1, p) + Wait(n - 1, p)
  }

  lemma {:induction false} DueIs(p: Policy)
    ensures Due(3, p) == p.initial + 2 * p.strike && Due(4, p) == Due(3, p) + p.last
    ensures Due(1, p) <= Due(2, p) <= Due(3, p)
  {
  }

  lemma {:induction false} RungNotBefore(all: seq<Sample>, a: nat, n: nat, i: nat, p: Policy)
    requires Rung(all, a, n, i, p)
    ensures a <= i < |all| && all[i].at >= all[a].at + Due(n, p)
  {
    if n > 0 {
      var h: nat :| RungAbove(all, a, n, h, i, p);
      RungNotBefore(all, a, n - 1, h, p);
    }
  }

  lemma {:induction false} ShutdownNotBefore(all: seq<Sample>, k: nat, p: Policy)
    requires 0 < k < |all| && DecisionAt(all, k, p) == Shutdown
    ensures all[k].at >= all[LastActive(all, k, p)].at + p.initial + 2 * p.strike + p.last
  {
    hide *;
    ShutdownMeans(all, k, p);
    var i: nat :| i < k && LastWait(all, LastActive(all, k, p), i, k, p);
    LastWaitIs(all, LastActive(all, k, p), i, k, p);
    RungNotBefore(all, LastActive(all, k, p), 3, i, p);
    DueIs(p);
  }

  /** No two successive samples from `a` to `k` are more than `d` apart. */
  ghost predicate AtMostApart(all: seq<Sample>, a: nat, k: nat, d: nat) {
    forall j, i :: a <= j < k < |all| && i == j + 1 ==> all[i].at <= all[j].at + d
  }

  lemma {:induction false} RungNotAfter(all: seq<Sample>, a: nat, n: nat, i: nat, d: nat, p: Policy)
    requires Rung(all, a, n, i, p) && AtMostApart(all, a, i, d)
    ensures a <= i < |all| && all[i].at <= all[a].at + Due(n, p) + n * d
  {
    if n > 0 {
      var h: nat :| RungAbove(all, a, n, h, i, p);
      RungNotBefore(all, a, n - 1, h, p);
      NotFurther(all, a, i, d, h);
      NotFurther(all, a, i, d, i);
      RungNotAfter(all, a, n - 1, h, d, p);
      assert (n - 1) * d + d == n * d;
    }
  }

  /** An idle VM sampled often enough is shut down in time: by the first sample taken the
      four waits and three gaps after its last activity some sample has decided so, at most
      four waits and four gaps after it. */
  lemma {:induction false} ShutdownInTime(all: seq<Sample>, k: nat, d: nat, p: Policy) returns (j: nat)
    requires k < |all| && AtMostApart(all, LastActive(all, k, p), k, d)
    requires all[k].at > all[LastActive(all, k, p)].at + Due(4, p) + 3 * d
    ensures LastActive(all, k, p) < j <= k && DecisionAt(all, j, p) == Shutdown
    ensures all[j].at <= all[LastActive(all, k, p)].at + p.initial + 2 * p.strike + p.last + 4 * d
  {
    hide *;
    var a := LastActive(all, k, p);
    var i := ThirdRung(all, k, d, p);
    DueIs(p);
    j := i + 1;
    while all[j].at < all[i].at + p.last
      invariant i < j <= k
      invariant all[j - 1].at <= all[i].at + p.last
      decreases k - j
    {
      j := j + 1;
    }
    NotFurther(all, a, k, d, j);
    LastActiveStays(all, j, k, p);
    LastWaitIs(all, a, i, j, p);
    IdleSince(all, j, k, p);
    ShutdownMeans(all, j, p);
  }

  lemma {:induction false} NotFurther(all: seq<Sample>, a: nat, k: nat, d: nat, j: nat)
    requires AtMostApart(all, a, k, d) && a <= j <= k < |all|
    ensures AtMostApart(all, a, j, d) && (a < j ==> all[j].at <= all[j - 1].at + d)
  {
  }

  lemma {:induction false} IdleSince(all: seq<Sample>, j: nat, k: nat, p: Policy)
    requires k < |all| && LastActive(all, k, p) < j <= k
    ensures !ActiveAt(all, j, p)
  {
  }

  lemma {:induction false} DueStep(n: nat, d: nat, p: Policy)
    requires n <= 3
    ensures Due(n, p) + Wait(n, p) == Due(n + 1, p) <= Due(4, p) && n * d <= 3 * d
  {
    assert Due(3, p) <= Due(4, p);
    assert Due(1, p) <= Due(2, p);
  }

  /** By then the third rung is behind. */
  lemma {:induction false} ThirdRung(all: seq<Sample>, k: nat, d: nat, p: Policy) returns (i: nat)
    requires k < |all| && AtMostApart(all, LastActive(all, k, p), k, d)
    requires all[k].at > all[LastActive(all, k, p)].at + Due(4, p) + 3 * d
    ensures LastActive(all, k, p) <= i < k && Rung(all, LastActive(all, k, p), 3, i, p)
    ensures all[i].at <= all[LastActive(all, k, p)].at + Due(3, p) + 3 * d
  {
    hide *;
    i := StandsFacts(all, k, p);
    var a, n := LastActive(all, k, p), After(all, k, p).strikes;
    RungNotBefore(all, a, n, i, p);
    NotFurther(all, a, k, d, i);
    RungNotAfter(all, a, n, i, d, p);
    DueIs(p);
    DueStep(n, d, p);
  }

  lemma {:induction false} LastActiveStays(all: seq<Sample>, j: nat, k: nat, p: Policy)
    requires k < |all| && LastActive(all, k, p) <= j <= k
    ensures LastActive(all, j, p) == LastActive(all, k, p)
  {
  }
  // What a shutdown says about the VM.

  /** From sample `a` to sample `k` nothing about the VM moved but its memory and idle
      connections, and no connection was established after `a`. */
  ghost predicate Still(all: seq<Sample>, a: nat, k: nat)
    requires a <= k < |all|
  {
    forall j :: a <= j <= k ==>
      && all[j].pid == all[a].pid && all[j].network == all[a].network && all[j].disk == all[a].disk
      && all[j].processes == all[a].processes && all[a].cpu <= all[j].cpu <= all[k].cpu
      && (a < j ==> all[j].established == 0)
  }

  lemma {:induction false} IdleIsStill(all: seq<Sample>, k: nat, p: Policy)
    requires k < |all|
    ensures Still(all, LastActive(all, k, p), k)
  {
    if k > 0 && !ActiveAt(all, k, p) {
      IdleIsStill(all, k - 1, p);
    }
  }

  /** Times strictly increase from `a` to `k`, and the VM keeps its vCPUs. */
  ghost predicate Steady(all: seq<Sample>, a: nat, k: nat, vcpus: nat) {
    a <= k < |all| && forall j :: a < j <= k ==> all[j - 1].at < all[j].at && all[j].vcpus == vcpus
  }

  /** The CPU time used from `a` to `k` is at most its share of the elapsed time, the share
      lying a fifth of the way from the idle to the active percentage: in percent of
      microseconds, and over all vCPUs. */
  ghost predicate CpuWithin(a: Sample, k: Sample, vcpus: nat, p: Policy) {
    500.0 * ((k.cpu - a.cpu) * 1000) as real <= (4.0 * p.high + p.low) * (vcpus * (k.at - a.at)) as real
  }

  lemma {:induction false} CpuStep(s: Sample, previous: Sample, p: Policy)
    requires previous.at < s.at && previous.cpu <= s.cpu && s.vcpus > 0
    ensures var share := CpuPercentSince(s, previous);
            share.Some? && (share.value <= p.Threshold() <==> CpuWithin(previous, s, s.vcpus, p))
  {
    var used, given := 100.0 * ((s.cpu - previous.cpu) * 1000) as real, (s.at - previous.at) * s.vcpus;
    assert given > 0;
    QuotientBound(used, given as real, p.Threshold());
    assert 5.0 * (p.Threshold() * given as real) == (4.0 * p.high + p.low) * given as real;
  }

  lemma {:induction false} QuotientBound(x: real, y: real, t: real)
    requires y > 0.0
    ensures x / y <= t <==> x <= t * y
  {
    var q := x / y;
    assert q * y == x;
    assert q <= t ==> q * y <= t * y;
    assert q > t ==> q * y > t * y;
  }

  /** A sample is idle exactly when nothing moved since the one before and, if time passed and
      the VM has vCPUs, the CPU used in between is within the threshold. */
  lemma {:induction false} IdleMeans(all: seq<Sample>, j: nat, p: Policy)
    requires 0 < j < |all|
    ensures !ActiveAt(all, j, p) <==>
              && Still(all, j - 1, j)
              && (all[j - 1].at < all[j].at && all[j].vcpus > 0 ==> CpuWithin(all[j - 1], all[j], all[j].vcpus, p))
  {
    var s, previous := all[j], all[j - 1];
    StillBetween(all, j);
    if previous.at < s.at && previous.cpu <= s.cpu && s.vcpus > 0 {
      CpuStep(s, previous, p);
    }
    hide CpuWithin, Still;
  }

  lemma {:induction false} StillBetween(all: seq<Sample>, j: nat)
    requires 0 < j < |all|
    ensures var s, previous := all[j], all[j - 1];
            Still(all, j - 1, j) <==>
              && s.pid == previous.pid && s.network == previous.network && s.disk == previous.disk
              && s.processes == previous.processes && previous.cpu <= s.cpu && s.established == 0
  {
    assert Still(all, j - 1, j) ==> all[j - 1].cpu <= all[j].cpu;
  }

  /** The default policy's threshold is one percent. */
  lemma {:induction false} DefaultThreshold()
    ensures Policy(300_000_000_000, 60_000_000_000, 30_000_000_000, 0.5, 3.0).Threshold() == 1.0
  {
  }

  lemma {:induction false} CpuJoin(a: Sample, b: Sample, c: Sample, vcpus: nat, p: Policy)
    requires CpuWithin(a, b, vcpus, p) && CpuWithin(b, c, vcpus, p)
    ensures CpuWithin(a, c, vcpus, p)
  {
    var x, y, t := vcpus * (b.at - a.at), vcpus * (c.at - b.at), 4.0 * p.high + p.low;
    assert x + y == vcpus * (c.at - a.at);
    assert t * x as real + t * y as real == t * (x + y) as real;
  }

  lemma {:induction false} IdleCpuWithin(all: seq<Sample>, k: nat, vcpus: nat, p: Policy)
    requires k < |all| && vcpus > 0 && Steady(all, LastActive(all, k, p), k, vcpus)
    ensures CpuWithin(all[LastActive(all, k, p)], all[k], vcpus, p)
  {
    if k == 0 || ActiveAt(all, k, p) {
    } else {
      IdleCpuWithin(all, k - 1, vcpus, p);
      IdleMeans(all, k, p);
      CpuJoin(all[LastActive(all, k, p)], all[k - 1], all[k], vcpus, p);
    }
  }

  /** A VM the monitor gives up on has been still since its last activity, for at least the
      four waits, and used no more CPU than the threshold allows. */
  lemma {:induction false} ShutdownIsIdle(all: seq<Sample>, k: nat, vcpus: nat, p: Policy)
    requires 0 < k < |all| && DecisionAt(all, k, p) == Shutdown
    ensures LastActive(all, k, p) < k && Still(all, LastActive(all, k, p), k)
    ensures all[k].at >= all[LastActive(all, k, p)].at + p.initial + 2 * p.strike + p.last
    ensures vcpus > 0 && Steady(all, LastActive(all, k, p), k, vcpus) ==>
              CpuWithin(all[LastActive(all, k, p)], all[k], vcpus, p)
  {
    hide *;
    Turn(all, k, p);
    IdleIsNow(all, k, p);
    ShutdownNotBefore(all, k, p);
    IdleIsStill(all, k, p);
    if vcpus > 0 && Steady(all, LastActive(all, k, p), k, vcpus) {
      IdleCpuWithin(all, k, vcpus, p);
    }
  }

  lemma {:induction false} IdleIsNow(all: seq<Sample>, k: nat, p: Policy)
    requires 0 < k < |all| && !ActiveAt(all, k, p)
    ensures LastActive(all, k, p) < k
  {
  }
}
