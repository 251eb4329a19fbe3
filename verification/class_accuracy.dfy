/**
 * Per-class accuracy of a segmentation (`compute_class_accuracies`).
 *
 * Predictions and labels are parallel sequences of class values. The
 * routine counts, per class, the positions where prediction and label agree
 * (into a list `count` of `num_classes` floats, updated index by index) and
 * then turns `count` and a list `total` of per-class ground-truth counts
 * into ratios, with 1.0 for a class that never occurs in the labels.
 *
 * As written, `total` is never filled in, so the ratio loop runs zero times
 * and the routine returns the empty list. `ComputeClassAccuracies` models
 * that; `ComputeClassAccuraciesCorrected` tallies `total` first, as the
 * routine evidently means to.
 */
module ClassAccuracy {

  /** Length of the list `[0.0] * n`: a repeat count of zero or less gives the empty list. */
  function Width(n: int): nat
  {
    if n > 0 then n else 0
  }

  /** The element that list index `v` addresses in a list of `n` elements:
      a negative index counts from the end. */
  function Slot(v: int, n: int): int
  {
    if v < 0 then v + n else v
  }

  /** The counting loop reads `pred[i]` for every index of `label` and
      writes `count[pred[i]]` wherever the two agree; it raises no index
      error exactly when the prediction is at least as long as the label and
      every agreeing class value is a valid index of a list of `n` elements. */
  predicate CountsSafely(pred: seq<int>, labels: seq<int>, n: int)
  {
    |labels| <= |pred| &&
    forall i :: 0 <= i < |labels| && pred[i] == labels[i] ==> -n <= labels[i] < n
  }

  /** Agreeing positions carry class indices proper, in [0, n). */
  predicate AgreeingClassesInRange(pred: seq<int>, labels: seq<int>, n: int)
  {
    |labels| <= |pred| &&
    forall i :: 0 <= i < |labels| && pred[i] == labels[i] ==> 0 <= labels[i] < n
  }

  /** Number of positions i < k where prediction and label agree. */
  function Agreements(pred: seq<int>, labels: seq<int>, k: nat): (r: nat)
    requires k <= |labels| <= |pred|
    ensures r <= k
  {
    if k == 0 then 0
    else Agreements(pred, labels, k - 1) + (if pred[k - 1] == labels[k - 1] then 1 else 0)
  }

  /** Number of positions i < k where prediction and label are both class c. */
  function Matches(pred: seq<int>, labels: seq<int>, c: int, k: nat): (r: nat)
    requires k <= |labels| <= |pred|
    ensures r <= Agreements(pred, labels, k)
  {
    if k == 0 then 0
    else Matches(pred, labels, c, k - 1) + (if pred[k - 1] == labels[k - 1] == c then 1 else 0)
  }

  /** Number of positions i < k whose label is class c (the ground-truth total of c). */
  function Occurrences(labels: seq<int>, c: int, k: nat): nat
    requires k <= |labels|
  {
    if k == 0 then 0
    else Occurrences(labels, c, k - 1) + (if labels[k - 1] == c then 1 else 0)
  }

  /** The list `count` after the first k iterations of the counting loop. */
  function Tally(pred: seq<int>, labels: seq<int>, n: int, k: nat): (r: seq<real>)
    requires CountsSafely(pred, labels, n) && k <= |labels|
    ensures |r| == Width(n)
  {
    if k == 0 then seq(Width(n), _ => 0.0)
    else
      var t := Tally(pred, labels, n, k - 1);
      if pred[k - 1] == labels[k - 1] then
        var s := Slot(labels[k - 1], n);
        t[s := t[s] + 1.0]
      else t
  }

  function Sum(s: seq<real>): real
  {
    if s == [] then 0.0 else s[0] + Sum(s[1..])
  }

  /** Accuracy of one class: correct predictions over ground-truth total,
      and 1.0 for a class absent from the labels (no division by zero). */
  function ClassRatio(hits: real, total: real): real
  {
    if total == 0.0 then 1.0 else hits / total
  }

  /** What the routine evidently means to return: for each class c in
      [0, n), the share of label-c positions predicted as c. */
  function IntendedAccuracies(pred: seq<int>, labels: seq<int>, n: int): seq<real>
    requires |labels| <= |pred|
  {
    seq(Width(n), c => ClassRatio(Matches(pred, labels, c, |labels|) as real, Occurrences(labels, c, |labels|) as real))
  }

  // ---------------------------------------------------------------------
  // Lemmas about the counting specification

  /** Slot c of the tally counts the agreeing positions of class c and,
      through a negative index, those of class c - n. */
  lemma {:induction false} TallyAt(pred: seq<int>, labels: seq<int>, n: int, k: nat, c: int)
    requires CountsSafely(pred, labels, n) && k <= |labels|
    requires 0 <= c < Width(n)
    ensures Tally(pred, labels, n, k)[c] == (Matches(pred, labels, c, k) + Matches(pred, labels, c - n, k)) as real
  {
    if k > 0 {
      TallyAt(pred, labels, n, k - 1, c);
    }
  }

  lemma {:induction false} SumIncrement(s: seq<real>, j: nat)
    requires j < |s|
    ensures Sum(s[j := s[j] + 1.0]) == Sum(s) + 1.0
  {
    if j > 0 {
      assert s[j := s[j] + 1.0][1..] == s[1..][j - 1 := s[1..][j - 1] + 1.0];
      SumIncrement(s[1..], j - 1);
    } else {
      assert s[j := s[j] + 1.0][1..] == s[1..];
    }
  }

  /** The per-class counts add up to the number of agreeing positions. */
  lemma {:induction false} TallySum(pred: seq<int>, labels: seq<int>, n: int, k: nat)
    requires CountsSafely(pred, labels, n) && k <= |labels|
    ensures Sum(Tally(pred, labels, n, k)) == Agreements(pred, labels, k) as real
  {
    if k == 0 {
      var z := seq(Width(n), _ => 0.0);
      ZeroSum(z);
    } else {
      TallySum(pred, labels, n, k - 1);
      if pred[k - 1] == labels[k - 1] {
        SumIncrement(Tally(pred, labels, n, k - 1), Slot(labels[k - 1], n));
      }
    }
  }

  lemma {:induction false} ZeroSum(z: seq<real>)
    requires forall i :: 0 <= i < |z| ==> z[i] == 0.0
    ensures Sum(z) == 0.0
  {
    if z != [] {
      ZeroSum(z[1..]);
    }
  }

  /** When no agreeing position carries a negative class value, no position
      is counted for a negative class. */
  lemma {:induction false} NoNegativeMatches(pred: seq<int>, labels: seq<int>, n: int, c: int, k: nat)
    requires AgreeingClassesInRange(pred, labels, n) && k <= |labels|
    requires c < 0
    ensures Matches(pred, labels, c, k) == 0
  {
    if k > 0 {
      NoNegativeMatches(pred, labels, n, c, k - 1);
    }
  }

  /** A class is never predicted correctly more often than it occurs. */
  lemma {:induction false} MatchesWithinOccurrences(pred: seq<int>, labels: seq<int>, c: int, k: nat)
    requires k <= |labels| <= |pred|
    ensures Matches(pred, labels, c, k) <= Occurrences(labels, c, k)
  {
    if k > 0 {
      MatchesWithinOccurrences(pred, labels, c, k - 1);
    }
  }

  /** A per-class accuracy lies in [0, 1], and is 1.0 exactly when every
      ground-truth instance of the class was predicted correctly. */
  lemma ClassRatioBounds(hits: real, total: real)
    requires 0.0 <= hits <= total
    ensures 0.0 <= ClassRatio(hits, total) <= 1.0
    ensures ClassRatio(hits, total) == 1.0 <==> hits == total
  {
    if total != 0.0 {
      assert hits / total * total == hits;
    }
  }

  /** The intended result on the worked example: labels hold class 0 twice
      and class 1 once; class 0 is predicted correctly once, class 1 once. */
  lemma IntendedExample()
    ensures IntendedAccuracies([0, 1, 1], [0, 1, 0], 2) == [0.5, 1.0]
  {
    var p, l := [0, 1, 1], [0, 1, 0];
    assert Matches(p, l, 0, 3) == 1 && Occurrences(l, 0, 3) == 2;
    assert Matches(p, l, 1, 3) == 1 && Occurrences(l, 1, 3) == 1;
  }

  // ---------------------------------------------------------------------
  // The routine

  /** The counting loop: `count = [0.0] * n`, then one increment of
      `count[pred[i]]` per agreeing position. */
  method CountAgreements(pred: seq<int>, labels: seq<int>, n: int) returns (count: seq<real>)
    requires CountsSafely(pred, labels, n)
    ensures count == Tally(pred, labels, n, |labels|)
    ensures |count| == Width(n)
    ensures forall c :: 0 <= c < |count| ==>
      count[c] == (Matches(pred, labels, c, |labels|) + Matches(pred, labels, c - n, |labels|)) as real
    ensures AgreeingClassesInRange(pred, labels, n) ==>
      forall c :: 0 <= c < |count| ==> count[c] == Matches(pred, labels, c, |labels|) as real
    ensures forall c :: 0 <= c < |count| ==> count[c] >= 0.0
    ensures Sum(count) == Agreements(pred, labels, |labels|) as real <= |labels| as real
  {
    var slots := new real[Width(n)](_ => 0.0);
    for i := 0 to |labels|
      invariant slots[..] == Tally(pred, labels, n, i)
    {
      if pred[i] == labels[i] {
        var s := Slot(pred[i], n);
        slots[s] := slots[s] + 1.0;
      }
    }
    count := slots[..];
    forall c | 0 <= c < |count|
      ensures count[c] == (Matches(pred, labels, c, |labels|) + Matches(pred, labels, c - n, |labels|)) as real
      ensures AgreeingClassesInRange(pred, labels, n) ==> count[c] == Matches(pred, labels, c, |labels|) as real
      ensures count[c] >= 0.0
    {
      TallyAt(pred, labels, n, |labels|, c);
      if AgreeingClassesInRange(pred, labels, n) {
        NoNegativeMatches(pred, labels, n, c - n, |labels|);
      }
    }
    TallySum(pred, labels, n, |labels|);
  }

  /** The ratio loop over an arbitrary `total`: one entry per element of
      `total`, 1.0 where the total is zero, otherwise count over total. It
      reads `count[i]` only where `total[i]` is non-zero. */
  method Ratios(count: seq<real>, total: seq<real>) returns (acc: seq<real>)
    requires forall i :: 0 <= i < |total| && total[i] != 0.0 ==> i < |count|
    ensures |acc| == |total|
    ensures forall i :: 0 <= i < |total| ==> acc[i] == if total[i] == 0.0 then 1.0 else count[i] / total[i]
    ensures forall i :: 0 <= i < |total| && i < |count| ==> acc[i] == ClassRatio(count[i], total[i])
  {
    acc := [];
    for i := 0 to |total|
      invariant |acc| == i
      invariant forall j :: 0 <= j < i ==> acc[j] == if total[j] == 0.0 then 1.0 else count[j] / total[j]
    {
      if total[i] == 0.0 {
        acc := acc + [1.0];
      } else {
        acc := acc + [count[i] / total[i]];
      }
    }
  }

  /** The routine as written: the loop over the classes only prints, so
      `total` stays empty and the result is always the empty list. */
  method ComputeClassAccuracies(pred: seq<int>, labels: seq<int>, n: int) returns (acc: seq<real>)
    requires CountsSafely(pred, labels, n)
    ensures acc == []
  {
    var total: seq<real> := [];
    var count := CountAgreements(pred, labels, n);
    acc := Ratios(count, total);
  }

  /** Ground-truth total of one class: the number of labels equal to c. */
  method CountOccurrences(labels: seq<int>, c: int) returns (t: nat)
    ensures t == Occurrences(labels, c, |labels|)
    ensures t <= |labels|
  {
    t := 0;
    for i := 0 to |labels|
      invariant t == Occurrences(labels, c, i) <= i
    {
      if labels[i] == c {
        t := t + 1;
      }
    }
  }

  /** The routine as intended: `total` holds, for each class, its number of
      ground-truth occurrences; the result is then the per-class accuracy,
      each in [0, 1], 1.0 exactly for the classes all of whose instances were
      predicted correctly (in particular the classes absent from the labels). */
  method ComputeClassAccuraciesCorrected(pred: seq<int>, labels: seq<int>, n: int) returns (acc: seq<real>)
    requires AgreeingClassesInRange(pred, labels, n)
    ensures acc == IntendedAccuracies(pred, labels, n)
    ensures |acc| == Width(n)
    ensures forall c :: 0 <= c < |acc| ==> 0.0 <= acc[c] <= 1.0
    ensures forall c :: 0 <= c < |acc| ==>
      (acc[c] == 1.0 <==> Matches(pred, labels, c, |labels|) == Occurrences(labels, c, |labels|))
    ensures forall c :: 0 <= c < |acc| && Occurrences(labels, c, |labels|) == 0 ==> acc[c] == 1.0
  {
    var total: seq<real> := [];
    for v := 0 to Width(n)
      invariant |total| == v
      invariant forall c :: 0 <= c < v ==> total[c] == Occurrences(labels, c, |labels|) as real
    {
      var t := CountOccurrences(labels, v);
      total := total + [t as real];
    }
    var count := CountAgreements(pred, labels, n);
    acc := Ratios(count, total);
    forall c | 0 <= c < |acc|
      ensures acc[c] == IntendedAccuracies(pred, labels, n)[c]
      ensures 0.0 <= acc[c] <= 1.0
      ensures acc[c] == 1.0 <==> Matches(pred, labels, c, |labels|) == Occurrences(labels, c, |labels|)
    {
      MatchesWithinOccurrences(pred, labels, c, |labels|);
      ClassRatioBounds(Matches(pred, labels, c, |labels|) as real, Occurrences(labels, c, |labels|) as real);
    }
  }
}
