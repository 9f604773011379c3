/** The counting done by trainer/trainer.py: running correct/total counts of a
    phase and the per-class tally tables of the final evaluation, with the
    per-class percentage report. */
module Metrics {
  import opened Errors
  import opened Tensor

  /** `(predicted == labels).sum()`: the number of samples whose prediction
      equals their label. */
  function Matches(predicted: seq<nat>, labels: seq<nat>): (c: nat)
    requires |predicted| == |labels|
    ensures c <= |labels|
  {
    if labels == [] then 0
    else
      var last := |labels| - 1;
      Matches(predicted[..last], labels[..last]) + if predicted[last] == labels[last] then 1 else 0
  }

  /** Every sample of a batch is counted correct exactly when every
      prediction equals its label. */
  lemma {:induction false} AllMatch(predicted: seq<nat>, labels: seq<nat>)
    requires |predicted| == |labels|
    ensures Matches(predicted, labels) == |labels| <==> forall i :: 0 <= i < |labels| ==> predicted[i] == labels[i]
  {
    if labels != [] {
      var last := |labels| - 1;
      AllMatch(predicted[..last], labels[..last]);
    }
  }

  function Sum(s: seq<nat>): nat
  {
    if s == [] then 0 else Sum(s[..|s| - 1]) + s[|s| - 1]
  }

  /** Raising one entry raises the sum by as much. */
  lemma {:induction false} SumBump(s: seq<nat>, k: nat, x: nat)
    requires k < |s|
    ensures Sum(s[k := s[k] + x]) == Sum(s) + x
  {
    var t := s[k := s[k] + x];
    var last := |s| - 1;
    if k < last {
      SumBump(s[..last], k, x);
      assert t[..last] == s[..last][k := s[k] + x];
    } else {
      assert t[..last] == s[..last];
    }
  }

  /** `class_total` after the first `i` samples of a batch went through
      `class_total[label] += 1`; a negative label indexes the list from its
      end, as Python does. */
  function TotalsAfter(totals: seq<nat>, labels: seq<int>, i: nat): (r: seq<nat>)
    requires i <= |labels| && InRange(labels, |totals|)
    ensures |r| == |totals|
  {
    if i == 0 then totals
    else
      var prev := TotalsAfter(totals, labels, i - 1);
      var slot := WrapIndex(labels[i - 1], |totals|).value;
      prev[slot := prev[slot] + 1]
  }

  /** `class_correct` after the first `i` samples went through
      `class_correct[label] += c[i]`, where `c[i]` is 1 exactly when the
      prediction equals the label. */
  function CorrectAfter(correct: seq<nat>, labels: seq<int>, predicted: seq<nat>, i: nat): (r: seq<nat>)
    requires i <= |labels| == |predicted| && InRange(labels, |correct|)
    ensures |r| == |correct|
  {
    if i == 0 then correct
    else
      var prev := CorrectAfter(correct, labels, predicted, i - 1);
      var slot := WrapIndex(labels[i - 1], |correct|).value;
      prev[slot := prev[slot] + if predicted[i - 1] == labels[i - 1] then 1 else 0]
  }

  /** The number of the first `i` samples whose label lands in slot `k` of a
      list of `n` counts. */
  function LandIn(labels: seq<int>, n: nat, k: nat, i: nat): nat
    requires i <= |labels|
  {
    if i == 0 then 0
    else LandIn(labels, n, k, i - 1) + if WrapIndex(labels[i - 1], n) == Some(k) then 1 else 0
  }

  /** The number of the first `i` samples whose label lands in slot `k` and
      equals its prediction. */
  function HitIn(labels: seq<int>, predicted: seq<nat>, n: nat, k: nat, i: nat): nat
    requires i <= |labels| == |predicted|
  {
    if i == 0 then 0
    else
      HitIn(labels, predicted, n, k, i - 1)
      + if WrapIndex(labels[i - 1], n) == Some(k) && predicted[i - 1] == labels[i - 1] then 1 else 0
  }

  /** Each class total grows by exactly the number of samples that carry its
      label; a class no sample carries keeps its count. */
  lemma {:induction false} TotalsAfterEntry(totals: seq<nat>, labels: seq<int>, i: nat, k: nat)
    requires i <= |labels| && InRange(labels, |totals|) && k < |totals|
    ensures TotalsAfter(totals, labels, i)[k] == totals[k] + LandIn(labels, |totals|, k, i)
  {
    if i > 0 {
      TotalsAfterEntry(totals, labels, i - 1, k);
    }
  }

  /** Each class's correct count grows by exactly the number of its samples
      that were predicted right. */
  lemma {:induction false} CorrectAfterEntry(correct: seq<nat>, labels: seq<int>, predicted: seq<nat>, i: nat, k: nat)
    requires i <= |labels| == |predicted| && InRange(labels, |correct|) && k < |correct|
    ensures CorrectAfter(correct, labels, predicted, i)[k] == correct[k] + HitIn(labels, predicted, |correct|, k, i)
  {
    if i > 0 {
      CorrectAfterEntry(correct, labels, predicted, i - 1, k);
    }
  }

  /** The class totals grow by one per sample. */
  lemma {:induction false} TotalsAfterSum(totals: seq<nat>, labels: seq<int>, i: nat)
    requires i <= |labels| && InRange(labels, |totals|)
    ensures Sum(TotalsAfter(totals, labels, i)) == Sum(totals) + i
  {
    if i > 0 {
      TotalsAfterSum(totals, labels, i - 1);
      var prev := TotalsAfter(totals, labels, i - 1);
      SumBump(prev, WrapIndex(labels[i - 1], |totals|).value, 1);
    }
  }

  /** Entry by entry, `small` is at most `large`. */
  predicate Dominated(small: seq<nat>, large: seq<nat>)
  {
    |small| == |large| && forall c :: 0 <= c < |small| ==> small[c] <= large[c]
  }

  /** No class is ever credited with more correct samples than it has
      samples: if `correct[k] <= total[k]` for every class before a batch,
      it still holds after any number of its samples. */
  lemma {:induction false} TallyKeepsCorrectBelowTotal(correct: seq<nat>, totals: seq<nat>, labels: seq<int>,
                                                       predicted: seq<nat>, i: nat)
    requires Dominated(correct, totals)
    requires i <= |labels| == |predicted| && InRange(labels, |totals|)
    ensures Dominated(CorrectAfter(correct, labels, predicted, i), TotalsAfter(totals, labels, i))
  {
    if i > 0 {
      TallyKeepsCorrectBelowTotal(correct, totals, labels, predicted, i - 1);
    }
  }

  /** `100 * class_correct[k] / class_total[k]` as `%2d` shows it: the
      percentage truncated to a whole number. */
  function Percent(correct: nat, total: nat): (p: nat)
    requires total > 0
    ensures p * total <= 100 * correct < (p + 1) * total
    ensures correct <= total ==> p <= 100
  {
    100 * correct / total
  }

  /** The per-class report as the source writes it: classes are printed in
      order and the first class with no test sample divides by zero. */
  function ClassPercentagesAsWritten(correct: seq<nat>, total: seq<nat>): (r: Result<seq<nat>>)
    requires |correct| == |total|
    ensures r.Err? <==> exists k :: 0 <= k < |total| && total[k] == 0
    ensures r.Err? ==> r.error == ZeroDivisionError
    ensures r.Ok? ==> |r.value| == |total|
    ensures r.Ok? ==> forall k :: 0 <= k < |total| ==>
              r.value[k] * total[k] <= 100 * correct[k] < (r.value[k] + 1) * total[k]
  {
    if forall k :: 0 <= k < |total| ==> total[k] > 0 then
      Ok(seq(|total|, k requires 0 <= k < |total| => Percent(correct[k], total[k])))
    else
      Err(ZeroDivisionError)
  }

  /** The per-class report with the missing guard: a class with no test sample
      has no percentage, every other class has its truncated percentage. */
  function ClassPercentages(correct: seq<nat>, total: seq<nat>): (r: seq<Option<nat>>)
    requires |correct| == |total|
    ensures |r| == |total|
    ensures forall k :: 0 <= k < |total| ==> (r[k].None? <==> total[k] == 0)
    ensures forall k :: 0 <= k < |total| && r[k].Some? ==>
              r[k].value * total[k] <= 100 * correct[k] < (r[k].value + 1) * total[k]
    ensures forall k :: 0 <= k < |total| && r[k].Some? && correct[k] <= total[k] ==> r[k].value <= 100
  {
    seq(|total|, k requires 0 <= k < |total| =>
      if total[k] == 0 then None else Some(Percent(correct[k], total[k])))
  }

  /** The report as written fails exactly when the corrected report has a
      class without a percentage, and where it succeeds it prints the
      corrected report's percentages. */
  lemma AsWrittenAgrees(correct: seq<nat>, total: seq<nat>)
    requires |correct| == |total|
    ensures ClassPercentagesAsWritten(correct, total).Ok?
            <==> forall k :: 0 <= k < |total| ==> ClassPercentages(correct, total)[k].Some?
    ensures ClassPercentagesAsWritten(correct, total).Ok? ==>
              forall k :: 0 <= k < |total| ==>
                ClassPercentages(correct, total)[k] == Some(ClassPercentagesAsWritten(correct, total).value[k])
  {
    var written := ClassPercentagesAsWritten(correct, total);
    if written.Ok? {
      forall k | 0 <= k < |total|
        ensures ClassPercentages(correct, total)[k] == Some(written.value[k])
      {
        assert total[k] > 0;
        assert written.value[k] == Percent(correct[k], total[k]);
      }
    } else {
      var k :| 0 <= k < |total| && total[k] == 0;
      assert ClassPercentages(correct, total)[k].None?;
    }
  }

  /** A test set of two samples of class 0 and none of class 1: the tally has
      a zero count for class 1, so the report as written raises
      ZeroDivisionError, while the guarded report still gives class 0 its
      percentage. */
  lemma AbsentClassDividesByZero()
    ensures var total := TotalsAfter([0, 0], [0, 0], 2);
            var correct := CorrectAfter([0, 0], [0, 0], [0, 1], 2);
      && total == [2, 0]
      && correct == [1, 0]
      && ClassPercentagesAsWritten(correct, total) == Err(ZeroDivisionError)
      && ClassPercentages(correct, total) == [Some(50), None]
  {
    assert TotalsAfter([0, 0], [0, 0], 1) == [1, 0];
    assert CorrectAfter([0, 0], [0, 0], [0, 1], 1) == [1, 0];
    assert TotalsAfter([0, 0], [0, 0], 2)[1] == 0;
  }
}
