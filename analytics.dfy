/**
 * The selection rule of `analyzeBottleneck`: the kinds are visited in the
 * registry's fixed order and a kind becomes the bottleneck when its average
 * is strictly greater than the best so far, starting from 0 and 'N/A'.
 */
module Analytics {
  import opened Wrappers
  import opened Domain

  /**
   * `averages[k]` is the average scheduled time of the k-th kind, or None
   * where the kind has no units (the loop skips it) or where the average is
   * not a number (a comparison that is always false).
   */
  predicate Beats(average: Option<real>, best: real)
  {
    average.Some? && average.value > best
  }

  /** The kind at `k` wins: it beats 0, beats every kind before it and is not beaten by any kind after it. */
  ghost predicate IsBottleneck(averages: seq<Option<real>>, k: nat)
  {
    && k < |averages|
    && Beats(averages[k], 0.0)
    && (forall i :: 0 <= i < k ==> !Beats(averages[i], averages[k].value) && averages[i] != averages[k])
    && (forall i :: k < i < |averages| ==> !Beats(averages[i], averages[k].value))
  }

  method SelectBottleneck(scheduleEmpty: bool, averages: seq<Option<real>>) returns (bottleneck: Option<Kind>)
    requires |averages| == |Kinds|
    ensures scheduleEmpty ==> bottleneck.None?
    ensures !scheduleEmpty && bottleneck.None? ==> forall i :: 0 <= i < |averages| ==> !Beats(averages[i], 0.0)
    ensures !scheduleEmpty && (exists i :: 0 <= i < |averages| && Beats(averages[i], 0.0)) ==> bottleneck.Some?
    ensures bottleneck.Some? ==> IsBottleneck(averages, KindRank(bottleneck.value))
  {
    if scheduleEmpty {
      return None;
    }
    var maxUtilization := 0.0;
    bottleneck := None;
    var i := 0;
    while i < |Kinds|
      invariant 0 <= i <= |Kinds|
      invariant bottleneck.None? ==> maxUtilization == 0.0 && forall j :: 0 <= j < i ==> !Beats(averages[j], 0.0)
      invariant bottleneck.Some? ==> var k := KindRank(bottleneck.value);
        && k < i && averages[k] == Some(maxUtilization) && maxUtilization > 0.0
        && (forall j :: 0 <= j < k ==> !Beats(averages[j], maxUtilization) && averages[j] != averages[k])
        && (forall j :: k < j < i ==> !Beats(averages[j], maxUtilization))
    {
      var average := averages[i];
      if Beats(average, maxUtilization) {
        maxUtilization := average.value;
        bottleneck := Some(Kinds[i]);
        assert KindRank(Kinds[i]) == i;
      }
      i := i + 1;
    }
  }
}
