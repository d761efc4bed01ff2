/** The back-off table of the action executor and the rule that picks the next delay. */
module Backoff {
  import opened Wrappers

  /** Seconds to wait after the first, second, ... failure of an action. */
  const BackoffDelays: seq<nat> := [1, 2, 3, 5, 8, 13, 21, 34, 55, 89, 144, 233, 377, 610, 987,
                                    1597, 2584, 4181, 6765, 10946, 17711, 28657, 46368, 75025]

  const LongestDelay: nat := 75025

  predicate Increasing(t: seq<nat>)
  {
    forall i, j :: 0 <= i < j < |t| ==> t[i] < t[j]
  }

  /** The index of the first entry of t above d (Ruby's `find`), or None. */
  function FirstAbove(t: seq<nat>, d: nat): (r: Option<nat>)
    ensures r.Some? ==> r.value < |t| && t[r.value] > d
    ensures r.Some? ==> forall j :: 0 <= j < r.value ==> t[j] <= d
    ensures r.None? ==> forall j :: 0 <= j < |t| ==> t[j] <= d
  {
    if t == [] then
      None
    else if t[0] > d then
      Some(0)
    else
      match FirstAbove(t[1..], d)
      case Some(i) => Some(i + 1)
      case None => None
  }

  /** The delay after one more failure, given the delay stored so far (0 when there is none). */
  function NextDelay(d: nat): (r: nat)
    ensures exists i :: 0 <= i < |BackoffDelays| && BackoffDelays[i] == r
  {
    match FirstAbove(BackoffDelays, d)
    case Some(i) => BackoffDelays[i]
    case None => BackoffDelays[|BackoffDelays| - 1]
  }

  lemma {:induction false} IncreasingFromSteps(t: seq<nat>)
    requires forall i :: 0 <= i < |t| - 1 ==> t[i] < t[i + 1]
    ensures Increasing(t)
    decreases |t|
  {
    if |t| > 1 {
      IncreasingFromSteps(t[1..]);
      forall i, j | 0 <= i < j < |t| ensures t[i] < t[j] {
        if i > 0 {
          assert t[i] == t[1..][i - 1] && t[j] == t[1..][j - 1];
        } else if j > 1 {
          assert t[1] == t[1..][0] && t[j] == t[1..][j - 1];
        }
      }
    }
  }

  lemma BackoffIncreasing()
    ensures Increasing(BackoffDelays)
    ensures |BackoffDelays| == 24 && BackoffDelays[0] == 1 && BackoffDelays[23] == LongestDelay
  {
    IncreasingFromSteps(BackoffDelays);
  }

  /** The new delay is the smallest table value strictly above the old one; a delay that has
      reached the end of the table stays there. */
  lemma NextDelayIsSmallestAbove(d: nat)
    ensures NextDelay(d) <= LongestDelay
    ensures d < LongestDelay ==> NextDelay(d) > d
    ensures forall i :: 0 <= i < |BackoffDelays| && BackoffDelays[i] > d ==> NextDelay(d) <= BackoffDelays[i]
    ensures d >= LongestDelay ==> NextDelay(d) == LongestDelay
  {
    BackoffIncreasing();
    var t := BackoffDelays;
    match FirstAbove(t, d)
    case Some(k) =>
      assert forall i :: 0 <= i < |t| && t[i] > d ==> k <= i;
    case None =>
      assert t[23] <= d;
  }

  /** One more failure moves a table delay to the next table value, or keeps the last one. */
  lemma NextDelayOfEntry(i: nat)
    requires i < |BackoffDelays|
    ensures NextDelay(BackoffDelays[i]) == BackoffDelays[if i + 1 < |BackoffDelays| then i + 1 else i]
  {
    BackoffIncreasing();
    var t := BackoffDelays;
    NextDelayIsSmallestAbove(t[i]);
    if i + 1 < |t| {
      assert t[i] < t[i + 1];
      var m :| 0 <= m < |t| && t[m] == NextDelay(t[i]);
      assert i < m < i + 2;
    }
  }

  /** The first failure of an action is retried after the first table value. */
  lemma FirstDelay()
    ensures NextDelay(0) == BackoffDelays[0] == 1
  {
    NextDelayIsSmallestAbove(0);
  }
}
