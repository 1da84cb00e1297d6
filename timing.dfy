/**
 * The rate limit used twice by the server: a per-connection input throttle (10 ms) and the
 * ball-update gate of a room's loop (16 ms).  Both keep the time of the last event they let
 * through and let a new one through when at least `gap` milliseconds have elapsed since then.
 */
module Timing {

  /** The gap of the per-connection input throttle, in milliseconds. */
  const InputGap: nat := 10

  /** The gap of the ball-update gate inside a room's loop, in milliseconds. */
  const BallGap: nat := 16

  /** An event at `now` passes the gate whose last accepted event was at `last`. */
  predicate Passes(last: int, now: int, gap: nat)
  {
    now - last >= gap
  }

  /** `r` is `s` with some elements left out and the rest in their original order. */
  predicate IsSubsequence(r: seq<int>, s: seq<int>)
    decreases |s|
  {
    if r == [] then true
    else if s == [] then false
    else (r[0] == s[0] && IsSubsequence(r[1..], s[1..])) || IsSubsequence(r, s[1..])
  }

  /**
   * The events of `times` that the gate lets through, in order, when the last accepted event
   * was at `last`: each accepted event becomes the new `last`, a rejected one changes nothing.
   */
  function Admitted(last: int, times: seq<int>, gap: nat): (r: seq<int>)
    ensures IsSubsequence(r, times)
    ensures |r| <= |times|
    ensures forall t :: t in r ==> t in times
    decreases |times|
  {
    if times == [] then []
    else if Passes(last, times[0], gap) then [times[0]] + Admitted(times[0], times[1..], gap)
    else Admitted(last, times[1..], gap)
  }

  /** One step of `Admitted`: the first event is accepted or not, then the rest of the run follows. */
  lemma AdmittedUnfold(last: int, times: seq<int>, gap: nat)
    requires times != []
    ensures Admitted(last, times, gap) ==
      if Passes(last, times[0], gap) then [times[0]] + Admitted(times[0], times[1..], gap)
      else Admitted(last, times[1..], gap)
  {
  }

  /** Each element of `s` is at least `gap` after the one before it, the first at least `gap` after `last`. */
  predicate Spaced(last: int, s: seq<int>, gap: nat)
  {
    (|s| > 0 ==> last + gap <= s[0]) &&
    forall i :: 0 < i < |s| ==> s[i - 1] + gap <= s[i]
  }

  /** Whatever the arrival times, the accepted events are pairwise at least `gap` apart. */
  lemma {:induction false} AdmittedSpaced(last: int, times: seq<int>, gap: nat)
    ensures Spaced(last, Admitted(last, times, gap), gap)
    decreases |times|
  {
    if times == [] {
    } else if Passes(last, times[0], gap) {
      AdmittedSpaced(times[0], times[1..], gap);
      var rest := Admitted(times[0], times[1..], gap);
      assert Admitted(last, times, gap) == [times[0]] + rest;
    } else {
      AdmittedSpaced(last, times[1..], gap);
      var rest := Admitted(last, times[1..], gap);
      if |rest| > 0 {
        assert last + gap <= rest[0];
      }
    }
  }

  /** Two events less than `gap` apart, the first accepted: only the first gets through. */
  lemma OnlyFirstOfCloseEvents(last: int, t1: int, t2: int, gap: nat)
    requires Passes(last, t1, gap)
    requires t2 - t1 < gap
    ensures Admitted(last, [t1, t2], gap) == [t1]
  {
  }
}
