/** The evaluation measures of the test module (test_latin_texts.py): accuracy,
    and per-label recall, precision and F1 with their average. A fold of test
    documents is given by two aligned lists: `gold[i]` is the label of the
    `i`-th document and `pred[i]` what the classifier says about it. The
    labels the classifier knows are a parameter. Division is true division
    (`from __future__ import division`), modelled on exact reals. */
module Metrics {
  import opened Python

  /** The number of documents whose prediction is their label. */
  function Matches<L(==,!new)>(gold: seq<L>, pred: seq<L>): (n: nat)
    requires |gold| == |pred|
    ensures n <= |gold|
    ensures n == |gold| <==> forall i | 0 <= i < |gold| :: pred[i] == gold[i]
  {
    if gold == [] then 0
    else
      var rest := Matches(gold[1..], pred[1..]);
      assert (forall i | 0 <= i < |gold| - 1 :: pred[1..][i] == gold[1..][i])
        <== (forall i | 0 <= i < |gold| :: pred[i] == gold[i]);
      (if pred[0] == gold[0] then 1 else 0) + rest
  }

  /** The number of occurrences of `l` in `s`, which is its multiplicity
      in the multiset of `s`. */
  function Support<L(==,!new)>(s: seq<L>, l: L): (n: nat)
    ensures n > 0 <==> l in s
    ensures n == multiset(s)[l]
  {
    if s == [] then 0
    else
      assert s == [s[0]] + s[1..];
      (if s[0] == l then 1 else 0) + Support(s[1..], l)
  }

  /** True positives of `l`: documents labelled `l` and predicted correctly. */
  function TruePos<L(==,!new)>(gold: seq<L>, pred: seq<L>, l: L): (n: nat)
    requires |gold| == |pred|
    ensures n <= Support(gold, l) && n <= Support(pred, l)
  {
    if gold == [] then 0
    else
      (if pred[0] == gold[0] && gold[0] == l then 1 else 0) + TruePos(gold[1..], pred[1..], l)
  }

  /** False negatives of `l`: documents labelled `l` and predicted wrongly.
      There are none exactly when every document labelled `l` is predicted
      as `l`. */
  function FalseNeg<L(==,!new)>(gold: seq<L>, pred: seq<L>, l: L): (n: nat)
    requires |gold| == |pred|
    ensures n == 0 <==> forall i | 0 <= i < |gold| && gold[i] == l :: pred[i] == l
  {
    if gold == [] then 0
    else
      var rest := FalseNeg(gold[1..], pred[1..], l);
      assert (forall i | 0 <= i < |gold| - 1 && gold[1..][i] == l :: pred[1..][i] == l)
        <== (forall i | 0 <= i < |gold| && gold[i] == l :: pred[i] == l);
      (if pred[0] != gold[0] && gold[0] == l then 1 else 0) + rest
  }

  /** False positives of `l`: documents predicted as `l` whose label is
      another. There are none exactly when every document predicted as `l`
      is labelled `l`. */
  function FalsePos<L(==,!new)>(gold: seq<L>, pred: seq<L>, l: L): (n: nat)
    requires |gold| == |pred|
    ensures n == 0 <==> forall i | 0 <= i < |gold| && pred[i] == l :: gold[i] == l
  {
    if gold == [] then 0
    else
      var rest := FalsePos(gold[1..], pred[1..], l);
      assert (forall i | 0 <= i < |gold| - 1 && pred[1..][i] == l :: gold[1..][i] == l)
        <== (forall i | 0 <= i < |gold| && pred[i] == l :: gold[i] == l);
      (if pred[0] == l && gold[0] != l then 1 else 0) + rest
  }

  /** The denominator of recall is the number of documents labelled `l`. */
  lemma {:induction false} RecallDenominator<L(!new)>(gold: seq<L>, pred: seq<L>, l: L)
    requires |gold| == |pred|
    ensures TruePos(gold, pred, l) + FalseNeg(gold, pred, l) == Support(gold, l)
  {
    if gold != [] {
      RecallDenominator(gold[1..], pred[1..], l);
    }
  }

  /** The denominator of precision is the number of documents predicted as `l`. */
  lemma {:induction false} PrecisionDenominator<L(!new)>(gold: seq<L>, pred: seq<L>, l: L)
    requires |gold| == |pred|
    ensures TruePos(gold, pred, l) + FalsePos(gold, pred, l) == Support(pred, l)
  {
    if gold != [] {
      PrecisionDenominator(gold[1..], pred[1..], l);
    }
  }

  /** `num / den` as true division, with 0.0 in place of a zero
      denominator: the zero-denominator policy of recall and precision. */
  function Ratio(num: nat, den: nat): (q: real)
    ensures den == 0 ==> q == 0.0
    ensures den > 0 ==> q == num as real / den as real
    ensures num <= den ==> 0.0 <= q <= 1.0
    ensures q == 1.0 <==> den > 0 && num == den
  {
    if den != 0 then num as real / den as real else 0.0
  }

  /** The message of the ZeroDivisionError of an empty fold or label table:
      with `verbose` set, the float division of the display comes first. */
  function ZeroDivisionMessage(verbose: bool): string {
    if verbose then "float division by zero" else "division by zero"
  }

  /** `accuracy`: the fraction of the fold predicted correctly; dividing by
      the length of an empty fold raises ZeroDivisionError, from the display
      `100.0 * sum(correct) / len(correct)` when `verbose` is set and from
      the returned ratio otherwise. */
  function Accuracy<L(==,!new)>(gold: seq<L>, pred: seq<L>, verbose: bool): (r: Result<real>)
    requires |gold| == |pred|
    ensures r.Raise? <==> gold == []
    ensures r.Raise? && verbose ==> r.error == ZeroDivisionError("float division by zero")
    ensures r.Raise? && !verbose ==> r.error == ZeroDivisionError("division by zero")
    ensures r.Ok? ==> 0.0 <= r.value <= 1.0
    ensures r.Ok? ==> (r.value == 1.0 <==> forall i | 0 <= i < |gold| :: pred[i] == gold[i])
    ensures r.Ok? ==> r.value == Matches(gold, pred) as real / |gold| as real
  {
    if |gold| == 0 then Raise(ZeroDivisionError(ZeroDivisionMessage(verbose)))
    else Ok(Ratio(Matches(gold, pred), |gold|))
  }

  /** The recall of `l`: the fraction of the documents labelled `l` that are
      predicted as `l`, or 0.0 when no document is labelled `l`. It is 1.0
      exactly when `l` occurs and is always recognised. */
  function RecallOf<L(==,!new)>(gold: seq<L>, pred: seq<L>, l: L): (r: real)
    requires |gold| == |pred|
    ensures 0.0 <= r <= 1.0
    ensures Support(gold, l) == 0 ==> r == 0.0
    ensures Support(gold, l) > 0 ==> r == TruePos(gold, pred, l) as real / Support(gold, l) as real
    ensures r == 1.0 <==> l in gold && forall i | 0 <= i < |gold| && gold[i] == l :: pred[i] == l
  {
    var tp := TruePos(gold, pred, l);
    var fn := FalseNeg(gold, pred, l);
    RecallDenominator(gold, pred, l);
    Ratio(tp, tp + fn)
  }

  /** The precision of `l`: the fraction of the documents predicted as `l`
      that are labelled `l`, or 0.0 when nothing is predicted as `l`. It is
      1.0 exactly when `l` is predicted and always rightly. */
  function PrecisionOf<L(==,!new)>(gold: seq<L>, pred: seq<L>, l: L): (p: real)
    requires |gold| == |pred|
    ensures 0.0 <= p <= 1.0
    ensures Support(pred, l) == 0 ==> p == 0.0
    ensures Support(pred, l) > 0 ==> p == TruePos(gold, pred, l) as real / Support(pred, l) as real
    ensures p == 1.0 <==> l in pred && forall i | 0 <= i < |gold| && pred[i] == l :: gold[i] == l
  {
    var tp := TruePos(gold, pred, l);
    var fp := FalsePos(gold, pred, l);
    PrecisionDenominator(gold, pred, l);
    Ratio(tp, tp + fp)
  }

  /** A real whose product with a positive real is non-negative is
      itself non-negative. */
  lemma NonNegativeFactor(x: real, y: real)
    requires y > 0.0 && x * y >= 0.0
    ensures x >= 0.0
  {
  }

  /** The harmonic mean `2rp / (r + p)` of two non-negative reals, not
      both zero, lies between the smaller and the larger. */
  lemma HarmonicMeanBetween(r: real, p: real)
    requires 0.0 <= r <= p && 0.0 < p
    ensures r <= (2.0 * r * p) / (r + p) <= p
  {
    var s := r + p;
    var f := (2.0 * r * p) / s;
    assert f * s == 2.0 * r * p;
    assert (f - r) * s == r * (p - r);
    assert (p - f) * s == p * (p - r);
    NonNegativeFactor(f - r, s);
    NonNegativeFactor(p - f, s);
  }

  /** The F1 score of a recall and a precision: their harmonic mean, or 0.0
      when both are zero. For non-negative arguments it lies between the
      smaller and the larger, and it is zero when either is. */
  function F1Score(r: real, p: real): (f: real)
    ensures 0.0 <= r && 0.0 <= p ==> (if r <= p then r else p) <= f <= (if r <= p then p else r)
    ensures 0.0 <= r && 0.0 <= p ==> (f == 0.0 <==> r == 0.0 || p == 0.0)
  {
    if r + p != 0.0 then
      var f := (2.0 * r * p) / (r + p);
      if 0.0 <= r <= p then
        HarmonicMeanBetween(r, p);
        f
      else if 0.0 <= p < r then
        HarmonicMeanBetween(p, r);
        assert 2.0 * p * r == 2.0 * r * p && p + r == r + p;
        f
      else f
    else 0.0
  }

  /** The F1 score of `l`. */
  function F1Of<L(==,!new)>(gold: seq<L>, pred: seq<L>, l: L): (f: real)
    requires |gold| == |pred|
    ensures 0.0 <= f <= 1.0
    ensures f == 0.0 <==> RecallOf(gold, pred, l) == 0.0 || PrecisionOf(gold, pred, l) == 0.0
  {
    F1Score(RecallOf(gold, pred, l), PrecisionOf(gold, pred, l))
  }

  /** A label that labels no document scores 0.0, so it lowers the average. */
  lemma UnsupportedLabelScoresZero<L(!new)>(gold: seq<L>, pred: seq<L>, l: L)
    requires |gold| == |pred|
    requires l !in gold
    ensures F1Of(gold, pred, l) == 0.0
  {
    assert Support(gold, l) == 0;
  }

  /** The labels as a set: the keys of the tables built below. */
  function LabelSet<L(==,!new)>(labels: seq<L>): (ks: set<L>)
    ensures forall l :: l in ks <==> l in labels
  {
    set l | l in labels
  }

  /** `recall`: one entry per known label, its recall. */
  method Recall<L(==,!new)>(gold: seq<L>, pred: seq<L>, labels: seq<L>) returns (r: map<L, real>)
    requires |gold| == |pred|
    ensures r.Keys == LabelSet(labels)
    ensures forall l | l in r :: r[l] == RecallOf(gold, pred, l)
  {
    r := map[];
    var i := 0;
    while i < |labels|
      invariant 0 <= i <= |labels|
      invariant r.Keys == LabelSet(labels[..i])
      invariant forall l | l in r :: r[l] == RecallOf(gold, pred, l)
    {
      var lab := labels[i];
      var truePos := TruePos(gold, pred, lab);
      var falseNeg := FalseNeg(gold, pred, lab);
      if truePos + falseNeg != 0 {
        r := r[lab := truePos as real / (truePos + falseNeg) as real];
      } else {
        r := r[lab := 0.0];
      }
      assert labels[..i + 1] == labels[..i] + [lab];
      i := i + 1;
    }
    assert labels[..i] == labels;
  }

  /** `precision`: one entry per known label, its precision. */
  method Precision<L(==,!new)>(gold: seq<L>, pred: seq<L>, labels: seq<L>) returns (p: map<L, real>)
    requires |gold| == |pred|
    ensures p.Keys == LabelSet(labels)
    ensures forall l | l in p :: p[l] == PrecisionOf(gold, pred, l)
  {
    p := map[];
    var i := 0;
    while i < |labels|
      invariant 0 <= i <= |labels|
      invariant p.Keys == LabelSet(labels[..i])
      invariant forall l | l in p :: p[l] == PrecisionOf(gold, pred, l)
    {
      var lab := labels[i];
      var truePos := TruePos(gold, pred, lab);
      var falsePos := FalsePos(gold, pred, lab);
      if truePos + falsePos != 0 {
        p := p[lab := truePos as real / (truePos + falsePos) as real];
      } else {
        p := p[lab := 0.0];
      }
      assert labels[..i + 1] == labels[..i] + [lab];
      i := i + 1;
    }
    assert labels[..i] == labels;
  }

  /** `f1`: for each label of the recall table, in whatever order the table
      yields them, the F1 score of its recall and precision. */
  method F1<L(==,!new)>(gold: seq<L>, pred: seq<L>, labels: seq<L>) returns (f: map<L, real>)
    requires |gold| == |pred|
    ensures f.Keys == LabelSet(labels)
    ensures forall l | l in f :: f[l] == F1Of(gold, pred, l)
  {
    var r := Recall(gold, pred, labels);
    var p := Precision(gold, pred, labels);
    f := map[];
    var rest := r.Keys;
    while rest != {}
      invariant rest <= r.Keys
      invariant f.Keys == r.Keys - rest
      invariant forall l | l in f :: f[l] == F1Of(gold, pred, l)
      decreases rest
    {
      var lab :| lab in rest;
      f := f[lab := F1Score(r[lab], p[lab])];
      rest := rest - {lab};
    }
  }

  /** Some label of a non-empty set. */
  ghost function AnyOf<L(!new)>(ks: set<L>): (l: L)
    requires ks != {}
    ensures l in ks
  {
    var l :| l in ks; l
  }

  /** The sum of the F1 scores of the labels `ks`. */
  ghost function SumF1<L(!new)>(gold: seq<L>, pred: seq<L>, ks: set<L>): real
    requires |gold| == |pred|
    decreases ks
  {
    if ks == {} then 0.0
    else
      var l := AnyOf(ks);
      F1Of(gold, pred, l) + SumF1(gold, pred, ks - {l})
  }

  /** The sum does not depend on which label is taken first. */
  lemma {:induction false} SumF1Remove<L(!new)>(gold: seq<L>, pred: seq<L>, ks: set<L>, l: L)
    requires |gold| == |pred|
    requires l in ks
    ensures SumF1(gold, pred, ks) == F1Of(gold, pred, l) + SumF1(gold, pred, ks - {l})
    decreases ks
  {
    var m := AnyOf(ks);
    if m != l {
      SumF1Remove(gold, pred, ks - {m}, l);
      SumF1Remove(gold, pred, ks - {l}, m);
      assert ks - {m} - {l} == ks - {l} - {m};
    }
  }

  /** Each score lies in [0, 1], so the sum lies in [0, |ks|]. */
  lemma {:induction false} SumF1Bounds<L(!new)>(gold: seq<L>, pred: seq<L>, ks: set<L>)
    requires |gold| == |pred|
    ensures 0.0 <= SumF1(gold, pred, ks) <= |ks| as real
    decreases ks
  {
    if ks != {} {
      SumF1Bounds(gold, pred, ks - {AnyOf(ks)});
    }
  }

  /** `total / n`, which lies in [0, 1] when `total` lies in [0, n]. */
  function Ratio01(total: real, n: real): (q: real)
    requires n > 0.0
    ensures 0.0 <= total <= n ==> 0.0 <= q <= 1.0
    ensures q * n == total
  {
    var q := total / n;
    assert q * n == total;
    if 0.0 <= total <= n then
      NonNegativeFactor(q, n);
      NonNegativeFactor(1.0 - q, n);
      q
    else q
  }

  /** The arithmetic mean of the F1 scores over the known labels. */
  ghost function MeanF1<L(!new)>(gold: seq<L>, pred: seq<L>, labels: seq<L>): (m: real)
    requires |gold| == |pred|
    requires labels != []
    ensures 0.0 <= m <= 1.0
  {
    var ks := LabelSet(labels);
    assert labels[0] in ks;
    SumF1Bounds(gold, pred, ks);
    Ratio01(SumF1(gold, pred, ks), |ks| as real)
  }

  /** With two distinct labels the mean is half the sum of their scores. */
  lemma MeanF1OfTwo<L(!new)>(gold: seq<L>, pred: seq<L>, labels: seq<L>, a: L, b: L)
    requires |gold| == |pred|
    requires a != b && LabelSet(labels) == {a, b}
    ensures labels != []
    ensures MeanF1(gold, pred, labels) == (F1Of(gold, pred, a) + F1Of(gold, pred, b)) / 2.0
  {
    assert a in LabelSet(labels);
    var ks := {a, b};
    SumF1Remove(gold, pred, ks, a);
    assert ks - {a} == {b};
    SumF1Remove(gold, pred, {b}, b);
    assert {b} - {b} == {};
    assert |ks| == 2;
  }

  /** `avg_f1`: the sum of the F1 table's values over its size; with no
      known label the table is empty and the division raises
      ZeroDivisionError, from the display when `verbose` is set. */
  method AvgF1<L(==,!new)>(gold: seq<L>, pred: seq<L>, labels: seq<L>, verbose: bool) returns (r: Result<real>)
    requires |gold| == |pred|
    ensures r.Raise? <==> labels == []
    ensures r.Raise? && verbose ==> r.error == ZeroDivisionError("float division by zero")
    ensures r.Raise? && !verbose ==> r.error == ZeroDivisionError("division by zero")
    ensures r.Ok? ==> r.value == MeanF1(gold, pred, labels) && 0.0 <= r.value <= 1.0
  {
    var f := F1(gold, pred, labels);
    var total := 0.0;
    var rest := f.Keys;
    while rest != {}
      invariant rest <= f.Keys
      invariant total + SumF1(gold, pred, rest) == SumF1(gold, pred, f.Keys)
      decreases rest
    {
      var lab :| lab in rest;
      SumF1Remove(gold, pred, rest, lab);
      total := total + f[lab];
      rest := rest - {lab};
    }
    assert |f| == 0 <==> labels == [] by {
      if labels != [] {
        assert labels[0] in f.Keys;
      }
    }
    if |f| == 0 {
      r := Raise(ZeroDivisionError(ZeroDivisionMessage(verbose)));
    } else {
      assert total == SumF1(gold, pred, LabelSet(labels));
      r := Ok(total / |f| as real);
    }
  }

  /** The labels of a fold of four documents, two by A and two by B. */
  const ExampleGold: seq<string> := ["A", "A", "B", "B"]

  /** Predictions for that fold that take the second document of A for B. */
  const ExamplePred: seq<string> := ["A", "B", "B", "B"]

  /** The counts of the example: three correct predictions; A has one true
      positive, two documents and one prediction; B has two true positives,
      two documents and three predictions. */
  lemma ExampleCounts()
    ensures Matches(ExampleGold, ExamplePred) == 3
    ensures TruePos(ExampleGold, ExamplePred, "A") == 1
    ensures Support(ExampleGold, "A") == 2 && Support(ExamplePred, "A") == 1
    ensures TruePos(ExampleGold, ExamplePred, "B") == 2
    ensures Support(ExampleGold, "B") == 2 && Support(ExamplePred, "B") == 3
  {
    var gold, pred := ExampleGold, ExamplePred;
    assert gold[1..] == ["A", "B", "B"] && gold[1..][1..] == ["B", "B"] && gold[1..][1..][1..] == ["B"];
    assert pred[1..] == ["B", "B", "B"] && pred[1..][1..] == ["B", "B"] && pred[1..][1..][1..] == ["B"];
    assert ["B"][1..] == [];
  }

  /** Accuracy of the example: three out of four, whether displayed or not. */
  lemma ExampleAccuracy(verbose: bool)
    ensures Accuracy(ExampleGold, ExamplePred, verbose) == Ok(3.0 / 4.0)
  {
    ExampleCounts();
  }

  /** Recall and precision of the example: A is found half the time but
      never wrongly predicted; B is always found but predicted once wrongly. */
  lemma ExampleRecallPrecision()
    ensures RecallOf(ExampleGold, ExamplePred, "A") == 1.0 / 2.0
    ensures RecallOf(ExampleGold, ExamplePred, "B") == 1.0
    ensures PrecisionOf(ExampleGold, ExamplePred, "A") == 1.0
    ensures PrecisionOf(ExampleGold, ExamplePred, "B") == 2.0 / 3.0
  {
    ExampleCounts();
  }

  /** F1 of the example: 2/3 for A and 4/5 for B. */
  lemma ExampleF1()
    ensures F1Of(ExampleGold, ExamplePred, "A") == 2.0 / 3.0
    ensures F1Of(ExampleGold, ExamplePred, "B") == 4.0 / 5.0
  {
    ExampleRecallPrecision();
    assert F1Score(1.0 / 2.0, 1.0) == 2.0 / 3.0;
    assert F1Score(1.0, 2.0 / 3.0) == 4.0 / 5.0;
  }

  /** The average F1 of the example: the mean of 2/3 and 4/5. */
  lemma ExampleMeanF1()
    ensures MeanF1(ExampleGold, ExamplePred, ["A", "B"]) == 11.0 / 15.0
  {
    var ks := LabelSet(["A", "B"]);
    assert ks == {"A", "B"};
    MeanF1OfTwo(ExampleGold, ExamplePred, ["A", "B"], "A", "B");
    ExampleF1();
  }
}
