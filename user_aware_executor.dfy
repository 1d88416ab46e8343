/** Per-user serialisation of work: every user is pinned to one of a fixed
    number of single-threaded lanes, chosen round-robin the first time the
    user is seen and kept until the assignment is cleaned up. Lanes are
    identified by their position in the list of executors. */
module Executors {
  import opened Wrappers

  /** availableExecutors.get(index) past the end of an empty list. */
  datatype ExecutorError = NoExecutorAvailable

  /** The counter after k first-time users: each one takes the counter's
      value and increments it, and a value that has run past the last lane
      resets it to zero. */
  function CounterAfter(k: nat, laneCount: nat): (c: nat)
    ensures c <= laneCount
  {
    if k == 0 then 0
    else
      var previous := CounterAfter(k - 1, laneCount);
      if previous >= laneCount then 0 else previous + 1
  }

  /** The lane the k-th first-time user (counting from zero) is given: the
      counter's value, or lane 0 when the counter has run past the end. */
  function RoundRobinLane(k: nat, laneCount: nat): (lane: nat)
    requires laneCount > 0
    ensures lane < laneCount
    ensures lane == 0 || lane == CounterAfter(k, laneCount)
  {
    var index := CounterAfter(k, laneCount);
    if index >= laneCount then 0 else index
  }

  class UserAwareExecutor {
    var availableExecutors: seq<nat>
    var roundRobinCounter: int
    var assignedExecutors: map<string, nat>
    /** How many first-time users have asked for a lane so far. */
    ghost var newUsers: nat

    ghost predicate Valid()
      reads this
    {
      && (forall i :: 0 <= i < |availableExecutors| ==> availableExecutors[i] == i)
      && roundRobinCounter == CounterAfter(newUsers, |availableExecutors|)
      && (forall u :: u in assignedExecutors ==> assignedExecutors[u] < |availableExecutors|)
    }

    constructor (threadsCount: int)
      ensures Valid()
      ensures |availableExecutors| == if threadsCount < 0 then 0 else threadsCount
      ensures assignedExecutors == map[] && newUsers == 0
    {
      var executors: seq<nat> := [];
      var i := 0;
      while i < threadsCount
        invariant 0 <= i && (threadsCount >= 0 ==> i <= threadsCount)
        invariant threadsCount < 0 ==> i == 0
        invariant |executors| == i
        invariant forall j :: 0 <= j < i ==> executors[j] == j
      {
        executors := executors + [i];
        i := i + 1;
      }
      availableExecutors := executors;
      assignedExecutors := map[];
      roundRobinCounter := 0;
      newUsers := 0;
    }

    /** computeIfAbsent: a user already pinned keeps the lane; a new user
        takes the round-robin lane. With no lanes the lookup fails after the
        counter has been reset, and nothing is recorded. */
    method GetExecutor(username: string) returns (r: Result<nat, ExecutorError>)
      requires Valid()
      modifies this
      ensures Valid()
      ensures availableExecutors == old(availableExecutors)
      ensures username in old(assignedExecutors) ==>
        && r == Success(old(assignedExecutors)[username])
        && assignedExecutors == old(assignedExecutors)
        && roundRobinCounter == old(roundRobinCounter)
        && newUsers == old(newUsers)
      ensures username !in old(assignedExecutors) ==>
        && newUsers == old(newUsers) + 1
        && (|availableExecutors| == 0 ==>
              r == Failure(NoExecutorAvailable) && assignedExecutors == old(assignedExecutors))
        && (|availableExecutors| > 0 ==>
              var lane := RoundRobinLane(old(newUsers), |availableExecutors|);
              r == Success(lane) && assignedExecutors == old(assignedExecutors)[username := lane])
    {
      if username in assignedExecutors {
        return Success(assignedExecutors[username]);
      }
      var n := |availableExecutors|;
      var index := roundRobinCounter;
      roundRobinCounter := roundRobinCounter + 1;
      newUsers := newUsers + 1;
      if index >= n {
        index := 0;
        roundRobinCounter := index;
      }
      if index >= n {
        return Failure(NoExecutorAvailable);
      }
      var executor := availableExecutors[index];
      assignedExecutors := assignedExecutors[username := executor];
      return Success(executor);
    }

    method CleanupForUser(username: string)
      requires Valid()
      modifies this
      ensures Valid()
      ensures assignedExecutors == old(assignedExecutors) - {username}
      ensures availableExecutors == old(availableExecutors)
      ensures roundRobinCounter == old(roundRobinCounter) && newUsers == old(newUsers)
    {
      assignedExecutors := assignedExecutors - {username};
    }
  }

  // -----------------------------------------------------------------------
  // The shape of the assignment

  /** Up to the end of the first round the counter counts the users. */
  lemma {:induction false} CounterFirstRound(k: nat, laneCount: nat)
    requires k <= laneCount
    ensures CounterAfter(k, laneCount) == k
  {
    if k > 0 {
      CounterFirstRound(k - 1, laneCount);
    }
  }

  /** The first laneCount users get lanes 0, 1, ... in order. */
  lemma FirstRoundIsInOrder(k: nat, laneCount: nat)
    requires k < laneCount
    ensures RoundRobinLane(k, laneCount) == k
  {
    CounterFirstRound(k, laneCount);
  }

  /** The counter repeats every laneCount + 1 users. */
  lemma {:induction false} CounterPeriod(k: nat, laneCount: nat)
    ensures CounterAfter(k + laneCount + 1, laneCount) == CounterAfter(k, laneCount)
  {
    if k == 0 {
      CounterFirstRound(laneCount, laneCount);
    } else {
      CounterPeriod(k - 1, laneCount);
    }
  }

  /** Hence so does the lane sequence. */
  lemma RoundRobinPeriod(k: nat, laneCount: nat)
    requires laneCount > 0
    ensures RoundRobinLane(k + laneCount + 1, laneCount) == RoundRobinLane(k, laneCount)
  {
    CounterPeriod(k, laneCount);
  }

  /** From any point the counter runs through the next values cyclically. */
  lemma {:induction false} CounterAdvance(start: nat, m: nat, laneCount: nat)
    requires m <= laneCount
    ensures var c := CounterAfter(start, laneCount);
      CounterAfter(start + m, laneCount) == if c + m <= laneCount then c + m else c + m - (laneCount + 1)
  {
    if m > 0 {
      CounterAdvance(start, m - 1, laneCount);
    }
  }

  /** Any laneCount + 1 consecutive first-time users cover every lane. */
  lemma EveryLaneServed(start: nat, laneCount: nat, lane: nat)
    requires laneCount > 0 && lane < laneCount
    ensures exists j :: start <= j < start + laneCount + 1 && RoundRobinLane(j, laneCount) == lane
  {
    var c := CounterAfter(start, laneCount);
    var m := if lane >= c then lane - c else lane + laneCount + 1 - c;
    CounterAdvance(start, m, laneCount);
    assert RoundRobinLane(start + m, laneCount) == lane;
  }

  /** The reset hands lane 0 out twice in a row, at the end of every round. */
  lemma ResetRepeatsLaneZero(round: nat, laneCount: nat)
    requires laneCount > 0
    ensures RoundRobinLane(round * (laneCount + 1) + laneCount, laneCount) == 0
    ensures RoundRobinLane(round * (laneCount + 1) + laneCount + 1, laneCount) == 0
  {
    RoundEnd(round, laneCount);
  }

  lemma {:induction false} RoundEnd(round: nat, laneCount: nat)
    ensures CounterAfter(round * (laneCount + 1) + laneCount, laneCount) == laneCount
  {
    if round == 0 {
      CounterFirstRound(laneCount, laneCount);
    } else {
      var k := (round - 1) * (laneCount + 1) + laneCount;
      assert round * (laneCount + 1) + laneCount == k + laneCount + 1;
      RoundEnd(round - 1, laneCount);
      CounterPeriod(k, laneCount);
    }
  }
}
