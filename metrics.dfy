/** Evaluation metrics of main/metrics.py: metric-name normalisation, the
    confusion counts of paired binary labels, and the four ratios computed
    from them with their zero-denominator guards, collected into an ordered
    results mapping. AUC and F1 come from foreign library calls and are taken
    as given functions. */
module Metrics {
  import opened Common

  /** A binary label or prediction. */
  type Bit = b: int | 0 <= b <= 1

  // ---------------------------------------------------------------------
  // Metric names

  /** Lower case of one character (ASCII letters). */
  function LowerChar(c: char): char
  {
    if 'A' <= c <= 'Z' then ((c as int) + 32) as char else c
  }

  /** The name with every ASCII upper-case letter lowered, as `lower` does. */
  function Lower(s: string): (r: string)
    ensures |r| == |s|
    ensures forall i :: 0 <= i < |s| ==> r[i] == LowerChar(s[i])
  {
    if s == [] then [] else [LowerChar(s[0])] + Lower(s[1..])
  }

  /** The string with every occurrence of one character replaced by another. */
  function ReplaceChar(s: string, from: char, to: char): (r: string)
    ensures |r| == |s|
    ensures forall i :: 0 <= i < |s| ==> r[i] == if s[i] == from then to else s[i]
  {
    if s == [] then []
    else [if s[0] == from then to else s[0]] + ReplaceChar(s[1..], from, to)
  }

  /** normalize: lower case, every '-' replaced by '_'. The result has the
      same length, no upper-case letter and no '-'. */
  function Normalize(name: string): (r: string)
    ensures |r| == |name|
    ensures forall i :: 0 <= i < |r| ==> r[i] != '-' && !('A' <= r[i] <= 'Z')
    ensures forall i :: 0 <= i < |r| ==> (name[i] == '-' ==> r[i] == '_') &&
                                         ('a' <= name[i] <= 'z' ==> r[i] == name[i])
  {
    ReplaceChar(Lower(name), '-', '_')
  }

  /** Normalising twice is normalising once. */
  lemma NormalizeIdempotent(name: string)
    ensures Normalize(Normalize(name)) == Normalize(name)
  {
    var once := Normalize(name);
    var twice := Normalize(once);
    forall i | 0 <= i < |name| ensures twice[i] == once[i] {
      assert Lower(once)[i] == LowerChar(once[i]);
    }
  }

  /** The six metric names, in the order results are filled. */
  const AllMetrics: seq<string> := ["accuracy", "recall", "precision", "specificity", "auc", "f1_score"]

  /** Every requested name normalised, in the requested order. */
  function NormalizeAll(metrics: seq<string>): (r: seq<string>)
    ensures |r| == |metrics|
    ensures forall i :: 0 <= i < |metrics| ==> r[i] == Normalize(metrics[i])
    ensures forall i :: 0 <= i < |r| ==> Normalize(r[i]) == r[i]
  {
    forall i | 0 <= i < |metrics| {
      NormalizeIdempotent(metrics[i]);
    }
    seq(|metrics|, i requires 0 <= i < |metrics| => Normalize(metrics[i]))
  }

  /** The requested metric names after normalisation: exactly the list ['all']
      expands to the six names; any other list, even one holding 'all' beside
      other names, is kept as normalised. */
  function SelectMetrics(metrics: seq<string>): (r: seq<string>)
    ensures |metrics| == 1 && Normalize(metrics[0]) == "all" ==> r == AllMetrics
    ensures !(|metrics| == 1 && Normalize(metrics[0]) == "all") ==> r == NormalizeAll(metrics)
  {
    var names := NormalizeAll(metrics);
    if names == ["all"] then AllMetrics else names
  }

  /** The call at the end of the file, metrics=['ALL'], requests all six. */
  lemma SelectAllUpperCase()
    ensures SelectMetrics(["ALL"]) == AllMetrics
  {
    assert Normalize("ALL") == "all";
  }

  // ---------------------------------------------------------------------
  // Confusion counts and ratios

  datatype Confusion = Confusion(tn: nat, fp: nat, fn: nat, tp: nat)

  /** The confusion counts of paired true and predicted labels. Every pair is
      counted once; tp + fn are the true positives of yTrue, tp + fp the
      predicted positives of yPred. */
  function ConfusionCounts(yTrue: seq<Bit>, yPred: seq<Bit>): (c: Confusion)
    requires |yTrue| == |yPred|
    ensures c.tn + c.fp + c.fn + c.tp == |yTrue|
  {
    if yTrue == [] then Confusion(0, 0, 0, 0)
    else
      var n := |yTrue| - 1;
      Tally(ConfusionCounts(yTrue[..n], yPred[..n]), yTrue[n], yPred[n])
  }

  /** The counts with one more pair. */
  function Tally(c: Confusion, truth: Bit, pred: Bit): Confusion
  {
    if truth == 0 then
      if pred == 0 then c.(tn := c.tn + 1) else c.(fp := c.fp + 1)
    else
      if pred == 0 then c.(fn := c.fn + 1) else c.(tp := c.tp + 1)
  }

  /** The margins of the confusion counts: tp + fn and tn + fp are the
      positive and negative labels of yTrue, tp + fp and tn + fn those of yPred. */
  lemma {:induction false} ConfusionMarginals(yTrue: seq<Bit>, yPred: seq<Bit>)
    requires |yTrue| == |yPred|
    ensures var c := ConfusionCounts(yTrue, yPred);
      c.fn + c.tp == Count(yTrue, 1) && c.tn + c.fp == Count(yTrue, 0) &&
      c.fp + c.tp == Count(yPred, 1) && c.tn + c.fn == Count(yPred, 0)
  {
    if yTrue != [] {
      var n := |yTrue| - 1;
      ConfusionMarginals(yTrue[..n], yPred[..n]);
      assert Count(yTrue, 1) == Count(yTrue[..n], 1) + (if yTrue[n] == 1 then 1 else 0);
      assert Count(yTrue, 0) == Count(yTrue[..n], 0) + (if yTrue[n] == 0 then 1 else 0);
      assert Count(yPred, 1) == Count(yPred[..n], 1) + (if yPred[n] == 1 then 1 else 0);
      assert Count(yPred, 0) == Count(yPred[..n], 0) + (if yPred[n] == 0 then 1 else 0);
    }
  }

  /** The counts of two batches of pairs taken together. */
  function Combine(a: Confusion, b: Confusion): Confusion
  {
    Confusion(a.tn + b.tn, a.fp + b.fp, a.fn + b.fn, a.tp + b.tp)
  }
  /** Counting distributes over concatenated batches of pairs. */
  lemma {:induction false} ConfusionConcat(a: seq<Bit>, b: seq<Bit>, p: seq<Bit>, q: seq<Bit>)
    requires |a| == |p| && |b| == |q|
    ensures ConfusionCounts(a + b, p + q) == Combine(ConfusionCounts(a, p), ConfusionCounts(b, q))
  {
    if b == [] {
      assert a + b == a && p + q == p;
    } else {
      var n := |b| - 1;
      var ab, pq := a + b, p + q;
      ConfusionLast(ab, pq);
      ConfusionLast(b, q);
      assert ab[..|ab| - 1] == a + b[..n] && pq[..|pq| - 1] == p + q[..n];
      assert ab[|ab| - 1] == b[n] && pq[|pq| - 1] == q[n];
      ConfusionConcat(a, b[..n], p, q[..n]);
      TallyCombine(ConfusionCounts(a, p), ConfusionCounts(b[..n], q[..n]), b[n], q[n]);
    }
  }

  /** The counts of a non-empty batch: its last pair tallied onto the rest. */
  lemma ConfusionLast(yTrue: seq<Bit>, yPred: seq<Bit>)
    requires |yTrue| == |yPred| > 0
    ensures ConfusionCounts(yTrue, yPred) ==
            Tally(ConfusionCounts(yTrue[..|yTrue| - 1], yPred[..|yPred| - 1]), yTrue[|yTrue| - 1], yPred[|yPred| - 1])
  {
  }

  /** Tallying a pair onto combined counts tallies it onto the second part. */
  lemma TallyCombine(c: Confusion, d: Confusion, truth: Bit, pred: Bit)
    ensures Tally(Combine(c, d), truth, pred) == Combine(c, Tally(d, truth, pred))
  {
  }
  /** Counting one more pair tallies it onto the counts so far. */
  lemma ConfusionPrefix(yTrue: seq<Bit>, yPred: seq<Bit>, k: nat)
    requires |yTrue| == |yPred| && 0 < k <= |yTrue|
    ensures ConfusionCounts(yTrue[..k], yPred[..k]) ==
            Tally(ConfusionCounts(yTrue[..k - 1], yPred[..k - 1]), yTrue[k - 1], yPred[k - 1])
  {
    assert yTrue[..k][..k - 1] == yTrue[..k - 1];
    assert yPred[..k][..k - 1] == yPred[..k - 1];
  }
  /** accuracy = (tp + tn) / (tn + tp + fp + fn), with no guard: no pair at all
      divides by zero. */
  function Accuracy(c: Confusion): (r: Result<real>)
    ensures r.Ok? <==> c.tn + c.fp + c.fn + c.tp > 0
    ensures r.Ok? ==> 0.0 <= r.value <= 1.0
    ensures r.Ok? ==> (r.value == 1.0 <==> c.fp + c.fn == 0)
    ensures r.Ok? ==> r.value * ((c.tn + c.fp + c.fn + c.tp) as real) == (c.tp + c.tn) as real
  {
    var total := c.tn + c.tp + c.fp + c.fn;
    if total == 0 then Err(ZeroDivision)
    else Ratio(c.tp + c.tn, c.fp + c.fn)
  }

  /** part / (part + other) when part + other is not zero, else 0. */
  function GuardedRatio(part: nat, other: nat): (r: real)
    ensures 0.0 <= r <= 1.0
    ensures part + other == 0 ==> r == 0.0
    ensures r == 1.0 <==> part > 0 && other == 0
  {
    if part + other != 0 then Ratio(part, other).value else 0.0
  }

  /** part / (part + other) for a non-zero denominator. */
  function Ratio(part: nat, other: nat): (r: Result<real>)
    requires part + other > 0
    ensures r.Ok? && 0.0 <= r.value <= 1.0
    ensures r.value * ((part + other) as real) == part as real
    ensures r.value == 1.0 <==> other == 0
  {
    var d := (part + other) as real;
    var q := (part as real) / d;
    QuotientIsOne(part as real, d);
    Ok(q)
  }

  /** Dividing by a positive d gives 1 exactly when the dividend is d. */
  lemma QuotientIsOne(x: real, d: real)
    requires d > 0.0
    ensures (x / d) * d == x
    ensures x / d == 1.0 <==> x == d
  {
    if x / d == 1.0 {
      calc {
        x;
        (x / d) * d;
        1.0 * d;
      }
    }
  }

  /** recall = tp / (tp + fn), 0 when there is no true positive label. */
  function Recall(c: Confusion): (r: real)
    ensures 0.0 <= r <= 1.0
    ensures c.tp + c.fn == 0 ==> r == 0.0
    ensures c.tp + c.fn > 0 ==> r * ((c.tp + c.fn) as real) == c.tp as real
  {
    GuardedRatio(c.tp, c.fn)
  }

  /** precision = tp / (tp + fp), 0 when nothing is predicted positive. */
  function Precision(c: Confusion): (r: real)
    ensures 0.0 <= r <= 1.0
    ensures c.tp + c.fp == 0 ==> r == 0.0
    ensures c.tp + c.fp > 0 ==> r * ((c.tp + c.fp) as real) == c.tp as real
  {
    GuardedRatio(c.tp, c.fp)
  }

  /** specificity = tn / (tn + fp), 0 when there is no true negative label. */
  function Specificity(c: Confusion): (r: real)
    ensures 0.0 <= r <= 1.0
    ensures c.tn + c.fp == 0 ==> r == 0.0
    ensures c.tn + c.fp > 0 ==> r * ((c.tn + c.fp) as real) == c.tn as real
  {
    GuardedRatio(c.tn, c.fp)
  }

  /** The inputs at the end of main/metrics.py, y_true = [0,0,1,1,0,1,0,1] and
      y_pred = [0,0,1,0,1,1,1,1], count tn=2, fp=2, fn=1, tp=3. */
  lemma WorkedExampleCounts(yTrue: seq<Bit>, yPred: seq<Bit>)
    requires yTrue == [0, 0, 1, 1, 0, 1, 0, 1] && yPred == [0, 0, 1, 0, 1, 1, 1, 1]
    ensures ConfusionCounts(yTrue, yPred) == Confusion(2, 2, 1, 3)
  {
    assert yTrue == yTrue[..4] + yTrue[4..] && yPred == yPred[..4] + yPred[4..];
    WorkedExampleFirst(yTrue[..4], yPred[..4]);
    WorkedExampleSecond(yTrue[4..], yPred[4..]);
    ConfusionConcat(yTrue[..4], yTrue[4..], yPred[..4], yPred[4..]);
  }
  lemma WorkedExampleFirst(yTrue: seq<Bit>, yPred: seq<Bit>)
    requires yTrue == [0, 0, 1, 1] && yPred == [0, 0, 1, 0]
    ensures ConfusionCounts(yTrue, yPred) == Confusion(2, 0, 1, 1)
  {
    assert ConfusionCounts(yTrue[..0], yPred[..0]) == Confusion(0, 0, 0, 0);
    assert ConfusionCounts(yTrue[..1], yPred[..1]) == Confusion(1, 0, 0, 0) by { ConfusionPrefix(yTrue, yPred, 1); }
    assert ConfusionCounts(yTrue[..2], yPred[..2]) == Confusion(2, 0, 0, 0) by { ConfusionPrefix(yTrue, yPred, 2); }
    assert ConfusionCounts(yTrue[..3], yPred[..3]) == Confusion(2, 0, 0, 1) by { ConfusionPrefix(yTrue, yPred, 3); }
    assert ConfusionCounts(yTrue[..4], yPred[..4]) == Confusion(2, 0, 1, 1) by { ConfusionPrefix(yTrue, yPred, 4); }
    assert yTrue[..4] == yTrue && yPred[..4] == yPred;
  }
  lemma WorkedExampleSecond(yTrue: seq<Bit>, yPred: seq<Bit>)
    requires yTrue == [0, 1, 0, 1] && yPred == [1, 1, 1, 1]
    ensures ConfusionCounts(yTrue, yPred) == Confusion(0, 2, 0, 2)
  {
    assert ConfusionCounts(yTrue[..0], yPred[..0]) == Confusion(0, 0, 0, 0);
    assert ConfusionCounts(yTrue[..1], yPred[..1]) == Confusion(0, 1, 0, 0) by { ConfusionPrefix(yTrue, yPred, 1); }
    assert ConfusionCounts(yTrue[..2], yPred[..2]) == Confusion(0, 1, 0, 1) by { ConfusionPrefix(yTrue, yPred, 2); }
    assert ConfusionCounts(yTrue[..3], yPred[..3]) == Confusion(0, 2, 0, 1) by { ConfusionPrefix(yTrue, yPred, 3); }
    assert ConfusionCounts(yTrue[..4], yPred[..4]) == Confusion(0, 2, 0, 2) by { ConfusionPrefix(yTrue, yPred, 4); }
    assert yTrue[..4] == yTrue && yPred[..4] == yPred;
  }

  /** ... which give accuracy 5/8, recall 3/4, precision 3/5 and specificity 1/2. */
  lemma WorkedExample(yTrue: seq<Bit>, yPred: seq<Bit>)
    requires yTrue == [0, 0, 1, 1, 0, 1, 0, 1] && yPred == [0, 0, 1, 0, 1, 1, 1, 1]
    ensures var c := ConfusionCounts(yTrue, yPred);
      Accuracy(c) == Ok(5.0 / 8.0) && Recall(c) == 3.0 / 4.0 &&
      Precision(c) == 3.0 / 5.0 && Specificity(c) == 1.0 / 2.0
  {
    WorkedExampleCounts(yTrue, yPred);
  }

  // ---------------------------------------------------------------------
  // basic_metric

  /** confusion_matrix sizes its matrix by the distinct label values found in
      both lists; only with both 0 and 1 present is it 2 x 2, so that the
      four-way unpack of its entries succeeds. */
  predicate BothClasses(yTrue: seq<Bit>, yPred: seq<Bit>)
  {
    0 in yTrue + yPred && 1 in yTrue + yPred
  }

  /** With both classes present there is at least one pair, so the division
      of the accuracy never sees a zero total. */
  lemma BothClassesAccuracy(yTrue: seq<Bit>, yPred: seq<Bit>)
    requires |yTrue| == |yPred| && BothClasses(yTrue, yPred)
    ensures Accuracy(ConfusionCounts(yTrue, yPred)).Ok?
  {
    assert |yTrue + yPred| > 0;
  }

  /** The results dictionary of basic_metric. Its possible keys and the order
      they are inserted in are fixed, so it is a record with one optional
      score per key, in insertion order. */
  datatype Scores = Scores(accuracy: Option<real>, recall: Option<real>, precision: Option<real>,
                           specificity: Option<real>, auc: Option<real>, f1: Option<real>)

  function KeyIf(v: Option<real>, key: string): seq<string>
  {
    if v.Some? then [key] else []
  }

  /** The keys of the dictionary, in insertion order. */
  function Keys(s: Scores): seq<string>
  {
    KeyIf(s.accuracy, "accuracy") + KeyIf(s.recall, "recall") + KeyIf(s.precision, "precision") +
    KeyIf(s.specificity, "specificity") + KeyIf(s.auc, "AUC") + KeyIf(s.f1, "F1_score")
  }

  /** The keys basic_metric stores for the requested names, in the fixed
      order it fills them; AUC and F1 are stored as "AUC" and "F1_score". */
  function ResultKeys(names: seq<string>): seq<string>
  {
    (if "accuracy" in names then ["accuracy"] else []) +
    (if "recall" in names then ["recall"] else []) +
    (if "precision" in names then ["precision"] else []) +
    (if "specificity" in names then ["specificity"] else []) +
    (if "auc" in names then ["AUC"] else []) +
    (if "f1_score" in names then ["F1_score"] else [])
  }

  /** At most the six keys are stored, each at most once. */
  lemma ResultKeysDistinct(names: seq<string>)
    ensures |ResultKeys(names)| <= 6
    ensures forall i, j :: 0 <= i < j < |ResultKeys(names)| ==> ResultKeys(names)[i] != ResultKeys(names)[j]
  {
  }

  /** The results are empty exactly when no requested name is one of the six. */
  lemma ResultKeysEmpty(names: seq<string>)
    ensures ResultKeys(names) == [] <==> forall m :: m in AllMetrics ==> m !in names
  {
  }

  /** A requested name outside the six is ignored. */
  lemma ResultKeysIgnoreUnknown(names: seq<string>, other: string)
    requires other !in AllMetrics
    ensures ResultKeys(names + [other]) == ResultKeys(names)
  {
    forall m | m in AllMetrics ensures (m in names + [other]) == (m in names) {}
  }

  /** A record holding a score exactly for the requested names has the keys
      of ResultKeys, in the same order. */
  lemma KeysOfRequested(names: seq<string>, s: Scores)
    requires s.accuracy.Some? == ("accuracy" in names) && s.recall.Some? == ("recall" in names)
    requires s.precision.Some? == ("precision" in names) && s.specificity.Some? == ("specificity" in names)
    requires s.auc.Some? == ("auc" in names) && s.f1.Some? == ("f1_score" in names)
    ensures Keys(s) == ResultKeys(names)
  {
  }

  /** basic_metric: the requested, recognised metrics in a fixed order. It
      fails on label lists of different lengths, when the labels do not hold
      both classes (the confusion matrix is not 2 x 2 and cannot be unpacked
      into four counts), on AUC without scores, and when no requested name is
      recognised (max over no key). rocAucScore and f1Score stand for the
      library's functions. */
  method BasicMetric(yTrue: seq<Bit>, yPred: seq<Bit>, yScore: Option<seq<real>>, metrics: seq<string>,
                     rocAucScore: (seq<Bit>, seq<real>) -> real, f1Score: (seq<Bit>, seq<Bit>) -> real)
    returns (r: Result<Scores>)
    ensures r.Err? ==>
      var names := SelectMetrics(metrics);
      r.error == (if |yTrue| != |yPred| then LengthMismatch
                  else if !BothClasses(yTrue, yPred) then Unpack
                  else if "auc" in names && yScore.None? then MissingScore
                  else EmptyMax)
    ensures var names := SelectMetrics(metrics);
      r.Ok? <==> |yTrue| == |yPred| && BothClasses(yTrue, yPred) &&
                 ("auc" in names ==> yScore.Some?) && ResultKeys(names) != []
    ensures r.Ok? ==> Keys(r.value) == ResultKeys(SelectMetrics(metrics))
    ensures r.Ok? ==>
      var names := SelectMetrics(metrics);
      var c := ConfusionCounts(yTrue, yPred);
      r.value.accuracy == (if "accuracy" in names then Some(Accuracy(c).value) else None) &&
      r.value.recall == (if "recall" in names then Some(Recall(c)) else None) &&
      r.value.precision == (if "precision" in names then Some(Precision(c)) else None) &&
      r.value.specificity == (if "specificity" in names then Some(Specificity(c)) else None) &&
      r.value.auc == (if "auc" in names then Some(rocAucScore(yTrue, yScore.value)) else None) &&
      r.value.f1 == (if "f1_score" in names then Some(f1Score(yTrue, yPred)) else None)
  {
    var names := SelectMetrics(metrics);
    if |yTrue| != |yPred| {
      return Err(LengthMismatch);
    }
    if !BothClasses(yTrue, yPred) {
      return Err(Unpack);
    }
    var c := ConfusionCounts(yTrue, yPred);
    var results := Scores(None, None, None, None, None, None);
    if "accuracy" in names {
      BothClassesAccuracy(yTrue, yPred);
      results := results.(accuracy := Some(Accuracy(c).value));
    }
    if "recall" in names {
      results := results.(recall := Some(Recall(c)));
    }
    if "precision" in names {
      results := results.(precision := Some(Precision(c)));
    }
    if "specificity" in names {
      results := results.(specificity := Some(Specificity(c)));
    }
    if "auc" in names {
      if yScore.None? {
        return Err(MissingScore);
      }
      results := results.(auc := Some(rocAucScore(yTrue, yScore.value)));
    }
    if "f1_score" in names {
      results := results.(f1 := Some(f1Score(yTrue, yPred)));
    }
    KeysOfRequested(names, results);
    if Keys(results) == [] {
      return Err(EmptyMax);
    }
    return Ok(results);
  }
}
