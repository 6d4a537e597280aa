/**
 * The running maximum kept by the calibration loops: a variable that starts
 * at 0 and is replaced by each sample strictly greater than it.
 */
module Maxima {

  /** The value such a variable holds after seeing `s` in order. */
  function Max0(s: seq<real>): (m: real)
    ensures 0.0 <= m
  {
    if s == [] then 0.0
    else
      var m := Max0(s[..|s| - 1]);
      if s[|s| - 1] > m then s[|s| - 1] else m
  }

  /**
   * The running maximum is at least every sample, and is either the initial 0
   * or one of the samples.
   */
  lemma {:induction false} Max0Bounds(s: seq<real>)
    ensures forall i :: 0 <= i < |s| ==> s[i] <= Max0(s)
    ensures Max0(s) == 0.0 || Max0(s) in s
  {
    if s != [] {
      var init := s[..|s| - 1];
      Max0Bounds(init);
      assert s == init + [s[|s| - 1]];
      assert forall i :: 0 <= i < |s| - 1 ==> s[i] == init[i];
    }
  }

  /** One loop step over `s`: after index `i` the running maximum covers `s[..i + 1]`. */
  lemma Max0Step(s: seq<real>, i: int, m: real)
    requires 0 <= i < |s| && m == Max0(s[..i])
    ensures (if s[i] > m then s[i] else m) == Max0(s[..i + 1])
  {
    assert s[..i + 1][..i] == s[..i];
  }
}
