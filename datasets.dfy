/** The three dataset containers of main/dataset.py. Each is built from a list
    of recordings by running one windowing function per recording and
    concatenating the results in recording order; RawDataset can then rebalance
    its classes once. After construction a dataset answers its length and
    returns the item at a position. */
module Datasets {
  import opened Common
  import opened Windowing

  /** The fixed arguments the datasets pass to the windowing functions. */
  const SampleRate: nat := 256
  const MfccDuration: nat := 10
  const MfccOverlap: nat := 2
  const PreIctMinutes: nat := 6
  const RawDuration: nat := 5

  /** Where a Python list index lands in a list of length n: negative indices
      count from the end; anything outside [-n, n) raises IndexError. */
  function ListPosition(idx: int, n: nat): (p: Option<nat>)
    ensures p.Some? <==> 0 <= idx + n && idx < n
    ensures p.Some? ==> p.value < n && (p.value == idx || p.value == idx + n)
  {
    if 0 <= idx < n then Some(idx)
    else if 0 <= idx + n && idx < 0 then Some(idx + n)
    else None
  }

  // ---------------------------------------------------------------------
  // Concatenation over recordings

  /** Every label is 0 or 1. */
  ghost predicate Binary(labels: seq<int>)
  {
    forall k :: 0 <= k < |labels| ==> labels[k] == 0 || labels[k] == 1
  }

  /** The per-recording results joined in recording order; the first
      recording that fails decides the error. */
  function ConcatLabelled<T>(parts: seq<Result<Labelled<T>>>): Result<Labelled<T>>
  {
    if parts == [] then Ok(Labelled([], []))
    else
      match ConcatLabelled(parts[..|parts| - 1])
      case Err(e) => Err(e)
      case Ok(acc) =>
        match parts[|parts| - 1]
        case Err(e) => Err(e)
        case Ok(p) => Ok(Labelled(acc.data + p.data, acc.labels + p.labels))
  }

  /** Construction succeeds exactly when every recording does, and then every
      item keeps its label: the data and label lists have equal length and
      hold only 0 and 1 when every recording's do. */
  lemma {:induction false} ConcatOk<T>(parts: seq<Result<Labelled<T>>>)
    ensures ConcatLabelled(parts).Ok? <==> forall i :: 0 <= i < |parts| ==> parts[i].Ok?
    ensures ConcatLabelled(parts).Ok? &&
      (forall i :: 0 <= i < |parts| ==>
         |parts[i].value.data| == |parts[i].value.labels| && Binary(parts[i].value.labels))
      ==> var w := ConcatLabelled(parts).value; |w.data| == |w.labels| && Binary(w.labels)
  {
    if parts != [] {
      var init := parts[..|parts| - 1];
      ConcatOk(init);
      assert forall i :: 0 <= i < |init| ==> init[i] == parts[i];
    }
  }

  /** Concatenation is in recording order: the output for a list of recordings
      is the output for its first i recordings followed by that for the rest. */
  lemma {:induction false} ConcatSplit<T>(parts: seq<Result<Labelled<T>>>, i: nat)
    requires i <= |parts| && ConcatLabelled(parts).Ok?
    ensures ConcatLabelled(parts[..i]).Ok? && ConcatLabelled(parts[i..]).Ok?
    ensures ConcatLabelled(parts).value.data ==
            ConcatLabelled(parts[..i]).value.data + ConcatLabelled(parts[i..]).value.data
    ensures ConcatLabelled(parts).value.labels ==
            ConcatLabelled(parts[..i]).value.labels + ConcatLabelled(parts[i..]).value.labels
  {
    if i < |parts| {
      var init, last := parts[..|parts| - 1], parts[|parts| - 1];
      ConcatSplit(init, i);
      assert init[..i] == parts[..i];
      assert parts[i..][..|parts[i..]| - 1] == init[i..];
      var whole, left, right, rest := ConcatLabelled(parts).value, ConcatLabelled(parts[..i]).value,
                                      ConcatLabelled(parts[i..]).value, ConcatLabelled(init[i..]).value;
      assert whole.data == ConcatLabelled(init).value.data + last.value.data;
      assert right.data == rest.data + last.value.data;
      assert whole.labels == ConcatLabelled(init).value.labels + last.value.labels;
      assert right.labels == rest.labels + last.value.labels;
    } else {
      assert parts[..i] == parts;
    }
  }

  /** A recording that fails stops construction with its own error, once every
      recording before it succeeded. */
  lemma {:induction false} ConcatStopsAt<T>(parts: seq<Result<Labelled<T>>>, i: nat)
    requires i < |parts| && ConcatLabelled(parts[..i]).Ok? && parts[i].Err?
    ensures ConcatLabelled(parts) == Err(parts[i].error)
  {
    if i < |parts| - 1 {
      assert parts[..|parts| - 1][..i] == parts[..i];
      ConcatStopsAt(parts[..|parts| - 1], i);
    } else {
      assert parts[..|parts| - 1] == parts[..i];
    }
  }

  /** The step of a construction loop: one more recording that succeeds. */
  lemma ConcatStep<T>(parts: seq<Result<Labelled<T>>>, i: nat)
    requires i < |parts| && ConcatLabelled(parts[..i]).Ok? && parts[i].Ok?
    ensures ConcatLabelled(parts[..i + 1]) ==
      Ok(Labelled(ConcatLabelled(parts[..i]).value.data + parts[i].value.data,
                  ConcatLabelled(parts[..i]).value.labels + parts[i].value.labels))
  {
    assert parts[..i + 1][..i] == parts[..i];
  }

  // ---------------------------------------------------------------------
  // MFCCDataset

  /** sliding_window's output for each recording, with the onset of the same
      position; a missing onset is an IndexError. */
  function MfccParts(eegSignal: seq<Recording>, seizureOntime: seq<int>): (p: seq<Result<Labelled<Mfcc>>>)
    ensures |p| == |eegSignal|
  {
    seq(|eegSignal|, i requires 0 <= i < |eegSignal| =>
      if i < |seizureOntime| then
        SlidingWindowSpec(eegSignal[i], seizureOntime[i], MfccDuration, MfccOverlap, PreIctMinutes, SampleRate)
      else Err(ListIndex))
  }

  /** What MFCCDataset's constructor stores, or the error it raises. */
  function MfccSpec(eegSignal: seq<Recording>, seizureOntime: seq<int>): (r: Result<Labelled<Mfcc>>)
    ensures r.Ok? <==>
      |seizureOntime| >= |eegSignal| &&
      forall i :: 0 <= i < |eegSignal| ==> eegSignal[i].samples >= MfccDuration * SampleRate
    ensures r.Ok? ==> |r.value.data| == |r.value.labels| && Binary(r.value.labels)
  {
    var parts := MfccParts(eegSignal, seizureOntime);
    ConcatOk(parts);
    MfccPartsOk(eegSignal, seizureOntime);
    ConcatLabelled(parts)
  }

  /** A recording's windows exist exactly when it has an onset and is at least
      one window (10 s) long; the stride of 8 s is positive. */
  lemma MfccPartsOk(eegSignal: seq<Recording>, seizureOntime: seq<int>)
    ensures var parts := MfccParts(eegSignal, seizureOntime);
      forall i :: 0 <= i < |eegSignal| ==>
        (parts[i].Ok? <==> i < |seizureOntime| && eegSignal[i].samples >= MfccDuration * SampleRate)
  {
    var parts := MfccParts(eegSignal, seizureOntime);
    forall i | 0 <= i < |eegSignal|
      ensures parts[i].Ok? <==> i < |seizureOntime| && eegSignal[i].samples >= MfccDuration * SampleRate
    {
      if i < |seizureOntime| {
        assert parts[i] == SlidingWindowSpec(eegSignal[i], seizureOntime[i], MfccDuration, MfccOverlap,
                                             PreIctMinutes, SampleRate);
      }
    }
  }

  class MfccDataset {
    var data: seq<Mfcc>
    var labels: seq<int>

    ghost predicate Valid()
      reads this
    {
      |data| == |labels| && Binary(labels)
    }

    constructor ()
      ensures Valid() && data == [] && labels == []
    {
      data := [];
      labels := [];
    }

    /** Appends the new items and their labels, keeping the dataset valid. */
    method Extend(d: seq<Mfcc>, l: seq<int>)
      requires Valid() && |d| == |l| && Binary(l)
      modifies this
      ensures Valid()
      ensures data == old(data) + d && labels == old(labels) + l
    {
      data := data + d;
      labels := labels + l;
    }

    /** __len__: the number of stored labels, which is the number of windows. */
    function Len(): (n: nat)
      reads this
      requires Valid()
      ensures n == |data| && n == |labels|
    {
      |labels|
    }

    /** __getitem__: the window and label at position idx. */
    function GetItem(idx: int): (r: Result<(Mfcc, int)>)
      reads this
      requires Valid()
      ensures r.Ok? <==> 0 <= idx + |data| && idx < |data|
      ensures r.Ok? ==> exists p :: 0 <= p < |data| && r.value == (data[p], labels[p]) &&
                                    (p == idx || p == idx + |data|)
    {
      match ListPosition(idx, |labels|)
      case None => Err(ListIndex)
      case Some(p) => Ok((data[p], labels[p]))
    }
  }

  /** MFCCDataset.__init__: sliding_window over each recording with its onset,
      the windows and labels appended in recording order. */
  method LoadMfcc(eegSignal: seq<Recording>, seizureOntime: seq<int>) returns (r: Result<MfccDataset>)
    ensures match MfccSpec(eegSignal, seizureOntime)
      case Err(e) => r == Err(e)
      case Ok(w) => r.Ok? && fresh(r.value) && r.value.Valid() &&
                    r.value.data == w.data && r.value.labels == w.labels
  {
    ghost var parts := MfccParts(eegSignal, seizureOntime);
    var ds := new MfccDataset();
    for i := 0 to |eegSignal|
      invariant fresh(ds) && ds.Valid()
      invariant ConcatLabelled(parts[..i]) == Ok(Labelled(ds.data, ds.labels))
    {
      if i >= |seizureOntime| {
        ConcatStopsAt(parts, i);
        return Err(ListIndex);
      }
      var w := SlidingWindow(eegSignal[i], seizureOntime[i], MfccDuration, MfccOverlap,
                             PreIctMinutes, SampleRate);
      if w.Err? {
        ConcatStopsAt(parts, i);
        return Err(w.error);
      }
      ConcatStep(parts, i);
      ds.Extend(w.value.data, w.value.labels);
    }
    assert parts[..|eegSignal|] == parts;
    return Ok(ds);
  }

  // ---------------------------------------------------------------------
  // RawDataset

  /** raw_window's output for each recording, with the info of the same
      position; a missing info is an IndexError. */
  function RawParts(eegSignal: seq<Recording>, timepoints: seq<Info>): (p: seq<Result<Labelled<Segment>>>)
    ensures |p| == |eegSignal|
  {
    seq(|eegSignal|, i requires 0 <= i < |eegSignal| =>
      if i < |timepoints| then RawWindowSpec(eegSignal[i], timepoints[i], RawDuration, SampleRate)
      else Err(ListIndex))
  }

  /** What RawDataset's constructor stores before balancing, or the error it
      raises. */
  function RawSpec(eegSignal: seq<Recording>, timepoints: seq<Info>): (r: Result<Labelled<Segment>>)
    ensures r.Ok? <==>
      |timepoints| >= |eegSignal| &&
      forall i :: 0 <= i < |eegSignal| ==>
        !IntervalFails(eegSignal[i], timepoints[i].interictalStart, timepoints[i].interictalEnd,
                       RawDuration * SampleRate) &&
        !IntervalFails(eegSignal[i], timepoints[i].preictalStart, timepoints[i].preictalEnd,
                       RawDuration * SampleRate)
    ensures r.Ok? ==> |r.value.data| == |r.value.labels| && Binary(r.value.labels)
  {
    var parts := RawParts(eegSignal, timepoints);
    ConcatOk(parts);
    RawPartsOk(eegSignal, timepoints);
    ConcatLabelled(parts)
  }

  /** A recording's chunks exist exactly when it has an info and neither of its
      present intervals fails. */
  lemma RawPartsOk(eegSignal: seq<Recording>, timepoints: seq<Info>)
    ensures var parts := RawParts(eegSignal, timepoints);
      forall i :: 0 <= i < |eegSignal| ==>
        (parts[i].Ok? <==>
           (i < |timepoints| &&
            !IntervalFails(eegSignal[i], timepoints[i].interictalStart, timepoints[i].interictalEnd,
                           RawDuration * SampleRate) &&
            !IntervalFails(eegSignal[i], timepoints[i].preictalStart, timepoints[i].preictalEnd,
                           RawDuration * SampleRate)))
  {
    var parts := RawParts(eegSignal, timepoints);
    forall i | 0 <= i < |eegSignal| && i < |timepoints|
      ensures parts[i] == RawWindowSpec(eegSignal[i], timepoints[i], RawDuration, SampleRate)
    {
    }
  }

  /** The positions of `l` that hold `v`, in increasing order (np.where). */
  function IndicesOf(l: seq<int>, v: int): (ix: seq<nat>)
    ensures |ix| == Count(l, v)
    ensures forall j :: 0 <= j < |ix| ==> ix[j] < |l| && l[ix[j]] == v
    ensures forall j, k :: 0 <= j < k < |ix| ==> ix[j] < ix[k]
  {
    if l == [] then []
    else
      var n := |l| - 1;
      var prev := IndicesOf(l[..n], v);
      assert forall p :: 0 <= p < n ==> l[..n][p] == l[p];
      assert Count(l, v) == Count(l[..n], v) + (if l[n] == v then 1 else 0);
      prev + (if l[n] == v then [n] else [])
  }

  /** np.where misses no position: every position holding `v` is listed. */
  lemma {:induction false} IndicesOfComplete(l: seq<int>, v: int, p: nat)
    requires p < |l| && l[p] == v
    ensures p in IndicesOf(l, v)
  {
    var n := |l| - 1;
    if p < n {
      assert l[..n][p] == l[p];
      IndicesOfComplete(l[..n], v, p);
    }
  }

  /** The items of `s` at the positions `ix`, in that order. */
  function Pick<T>(s: seq<T>, ix: seq<nat>): (r: seq<T>)
    requires forall j :: 0 <= j < |ix| ==> ix[j] < |s|
    ensures |r| == |ix|
  {
    seq(|ix|, j requires 0 <= j < |ix| => s[ix[j]])
  }

  /** np.random.choice(pos, size=count, replace=True): `count` entries, each
      an entry of `pos`, the j-th chosen by draw(j). */
  function RandomChoice(pos: seq<nat>, count: nat, draw: nat -> nat): (d: seq<nat>)
    requires |pos| > 0
    ensures |d| == count
    ensures forall j :: 0 <= j < count ==> d[j] in pos
  {
    seq(count, j requires 0 <= j => pos[draw(j) % |pos|])
  }

  /** Every outcome of the random choice, any `count` entries of `pos` with
      repetition, is the result for some `draw`. */
  lemma RandomChoiceCovers(pos: seq<nat>, d: seq<nat>)
    requires |pos| > 0 && forall j :: 0 <= j < |d| ==> d[j] in pos
    ensures exists draw: nat -> nat :: RandomChoice(pos, |d|, draw) == d
  {
    var idx := seq(|d|, j requires 0 <= j < |d| => PositionOf(pos, d[j]));
    var draw: nat -> nat := (j: nat) => if j < |idx| then idx[j] else 0;
    assert forall j :: 0 <= j < |d| ==> draw(j) % |pos| == idx[j];
    assert RandomChoice(pos, |d|, draw) == d;
  }

  /** A position of `x` in `pos`. */
  function PositionOf(pos: seq<nat>, x: nat): (k: nat)
    requires x in pos
    ensures k < |pos| && pos[k] == x
  {
    if pos[0] == x then 0 else 1 + PositionOf(pos[1..], x)
  }

  /** The balanced index list: every negative position in order, then one
      drawn positive position per negative. */
  function BalancedIndex(l: seq<int>, draw: nat -> nat): (bi: seq<nat>)
    requires Count(l, 1) > 0
    ensures forall j :: 0 <= j < |bi| ==> bi[j] < |l|
  {
    var pos := IndicesOf(l, 1);
    var neg := IndicesOf(l, 0);
    neg + RandomChoice(pos, |neg|, draw)
  }

  /** The dataset after balancing: unchanged when there is no positive,
      otherwise rebuilt from the balanced index list. */
  function Balanced<T>(w: Labelled<T>, draw: nat -> nat): (b: Labelled<T>)
    requires |w.data| == |w.labels|
    ensures |b.data| == |b.labels|
  {
    if Count(w.labels, 1) == 0 then w
    else
      var bi := BalancedIndex(w.labels, draw);
      Labelled(Pick(w.data, bi), Pick(w.labels, bi))
  }

  lemma {:induction false} CountAllSame(s: seq<int>, v: int)
    requires forall k :: 0 <= k < |s| ==> s[k] == v
    ensures Count(s, v) == |s|
  {
    if s != [] {
      CountAllSame(s[..|s| - 1], v);
    }
  }

  /** After balancing with at least one positive there are as many positives
      as negatives, both the original number of negatives: first every negative,
      then the drawn positives. */
  lemma BalancedCounts<T>(w: Labelled<T>, draw: nat -> nat)
    requires |w.data| == |w.labels| && Binary(w.labels) && Count(w.labels, 1) > 0
    ensures var b := Balanced(w, draw).labels; var n := Count(w.labels, 0);
      |b| == 2 * n && Count(b, 0) == n && Count(b, 1) == n &&
      (forall k :: 0 <= k < n ==> b[k] == 0) &&
      (forall k :: n <= k < 2 * n ==> b[k] == 1)
  {
    var n := Count(w.labels, 0);
    var b := Balanced(w, draw).labels;
    BalancedShape(w.labels, draw);
    var front, back := b[..n], b[n..];
    assert b == front + back;
    CountAllSame(front, 0);
    CountAllSame(back, 1);
    CountConstant(front, 0, 1);
    CountConstant(back, 1, 0);
    CountConcat(front, back, 0);
    CountConcat(front, back, 1);
  }

  lemma BalancedShape(l: seq<int>, draw: nat -> nat)
    requires Count(l, 1) > 0
    ensures var b := Pick(l, BalancedIndex(l, draw)); var n := Count(l, 0);
      |b| == 2 * n && (forall k :: 0 <= k < n ==> b[k] == 0) && (forall k :: n <= k < 2 * n ==> b[k] == 1)
  {
    var n := Count(l, 0);
    var b := Pick(l, BalancedIndex(l, draw));
    forall k | 0 <= k < n ensures b[k] == 0 {
      BalancedAt(l, draw, k);
    }
    forall k | n <= k < 2 * n ensures b[k] == 1 {
      BalancedAt(l, draw, k);
    }
  }

  lemma {:induction false} BalancedAt(l: seq<int>, draw: nat -> nat, k: nat)
    requires Count(l, 1) > 0 && k < 2 * Count(l, 0)
    ensures Pick(l, BalancedIndex(l, draw))[k] == if k < Count(l, 0) then 0 else 1
  {
    BalancedIndexAt(l, draw, k);
    var bi := BalancedIndex(l, draw);
    assert Pick(l, bi)[k] == l[bi[k]];
  }

  /** Position k of the balanced index list: the k-th negative, or a drawn
      position holding a positive. */
  lemma {:induction false} BalancedIndexAt(l: seq<int>, draw: nat -> nat, k: nat)
    requires Count(l, 1) > 0 && k < 2 * Count(l, 0)
    ensures var bi, neg := BalancedIndex(l, draw), IndicesOf(l, 0);
      |bi| == 2 * |neg| && bi[k] < |l| &&
      (k < |neg| ==> bi[k] == neg[k] && l[bi[k]] == 0) &&
      (k >= |neg| ==> l[bi[k]] == 1)
  {
    var neg, pos := IndicesOf(l, 0), IndicesOf(l, 1);
    var draws := RandomChoice(pos, |neg|, draw);
    assert BalancedIndex(l, draw) == neg + draws;
    if k >= |neg| {
      var j := draw(k - |neg|) % |pos|;
      assert draws[k - |neg|] == pos[j];
    }
  }

  /** Balancing keeps every negative item unmodified and in its original order,
      and every item after them is a copy of some positive item. */
  lemma {:induction false} BalancedItems<T>(w: Labelled<T>, draw: nat -> nat)
    requires |w.data| == |w.labels| && Count(w.labels, 1) > 0
    ensures var b := Balanced(w, draw).data; var neg := IndicesOf(w.labels, 0);
      |b| == 2 * |neg| &&
      b[..|neg|] == Pick(w.data, neg) &&
      forall k :: |neg| <= k < |b| ==> PositiveCopy(w, b[k])
  {
    BalancedFront(w, draw);
    BalancedBack(w, draw);
  }

  lemma {:induction false} BalancedFront<T>(w: Labelled<T>, draw: nat -> nat)
    requires |w.data| == |w.labels| && Count(w.labels, 1) > 0
    ensures var b := Balanced(w, draw).data; var neg := IndicesOf(w.labels, 0);
      |b| == 2 * |neg| && b[..|neg|] == Pick(w.data, neg)
  {
    var b := Balanced(w, draw).data;
    var neg := IndicesOf(w.labels, 0);
    var bi := BalancedIndex(w.labels, draw);
    assert b == Pick(w.data, bi);
    forall k | 0 <= k < |neg| ensures b[k] == Pick(w.data, neg)[k] {
      BalancedIndexAt(w.labels, draw, k);
    }
  }

  lemma {:induction false} BalancedBack<T>(w: Labelled<T>, draw: nat -> nat)
    requires |w.data| == |w.labels| && Count(w.labels, 1) > 0
    ensures var b := Balanced(w, draw).data; var neg := IndicesOf(w.labels, 0);
      forall k :: |neg| <= k < |b| ==> PositiveCopy(w, b[k])
  {
    var b := Balanced(w, draw).data;
    var bi := BalancedIndex(w.labels, draw);
    assert b == Pick(w.data, bi);
    forall k | |IndicesOf(w.labels, 0)| <= k < |b| ensures PositiveCopy(w, b[k]) {
      BalancedIndexAt(w.labels, draw, k);
      var p := bi[k];
      assert w.labels[p] == 1 && b[k] == w.data[p];
    }
  }

  /** x is the item at some position labelled 1. */
  ghost predicate PositiveCopy<T>(w: Labelled<T>, x: T)
  {
    exists p :: 0 <= p < |w.data| && p < |w.labels| && w.labels[p] == 1 && x == w.data[p]
  }

  /** Balancing a dataset without a positive leaves it as it was. */
  lemma BalancedNoPositives<T>(w: Labelled<T>, draw: nat -> nat)
    requires |w.data| == |w.labels| && Count(w.labels, 1) == 0
    ensures Balanced(w, draw) == w
  {}

  /** Balancing a dataset with positives but no negatives empties it. */
  lemma BalancedNoNegatives<T>(w: Labelled<T>, draw: nat -> nat)
    requires |w.data| == |w.labels| && Count(w.labels, 1) > 0 && Count(w.labels, 0) == 0
    ensures Balanced(w, draw) == Labelled([], [])
  {}

  class RawDataset {
    var data: seq<Segment>
    var labels: seq<int>

    ghost predicate Valid()
      reads this
    {
      |data| == |labels| && Binary(labels)
    }

    constructor ()
      ensures Valid() && data == [] && labels == []
    {
      data := [];
      labels := [];
    }

    /** Appends the new items and their labels, keeping the dataset valid. */
    method Extend(d: seq<Segment>, l: seq<int>)
      requires Valid() && |d| == |l| && Binary(l)
      modifies this
      ensures Valid()
      ensures data == old(data) + d && labels == old(labels) + l
    {
      data := data + d;
      labels := labels + l;
    }

    /** The balancing step: negatives kept, one drawn positive per negative. */
    method Balance(draw: nat -> nat)
      requires Valid()
      modifies this
      ensures Valid()
      ensures Labelled(data, labels) == Balanced(old(Labelled(data, labels)), draw)
    {
      ghost var w := Labelled(data, labels);
      var idxPos := IndicesOf(labels, 1);
      var idxNeg := IndicesOf(labels, 0);
      if |idxPos| > 0 {
        var idxPosRepeat := RandomChoice(idxPos, |idxNeg|, draw);
        var balancedIdx := idxNeg + idxPosRepeat;
        data := Pick(data, balancedIdx);
        labels := Pick(labels, balancedIdx);
        BalancedCounts(w, draw);
      }
    }

    /** __len__: the number of stored labels. */
    function Len(): (n: nat)
      reads this
      requires Valid()
      ensures n == |data| && n == |labels|
    {
      |labels|
    }

    /** __getitem__: the segment and label at position idx. */
    function GetItem(idx: int): (r: Result<(Segment, int)>)
      reads this
      requires Valid()
      ensures r.Ok? <==> 0 <= idx + |data| && idx < |data|
      ensures r.Ok? ==> exists p :: 0 <= p < |data| && r.value == (data[p], labels[p]) &&
                                    (p == idx || p == idx + |data|)
    {
      match ListPosition(idx, |labels|)
      case None => Err(ListIndex)
      case Some(p) => Ok((data[p], labels[p]))
    }
  }

  /** RawDataset.__init__: raw_window over each recording with its info, the
      chunks appended in recording order, then balanced once when mode is
      "train" and balance is set. */
  method LoadRaw(eegSignal: seq<Recording>, timepoints: seq<Info>, mode: string, balance: bool,
                 draw: nat -> nat) returns (r: Result<RawDataset>)
    ensures match RawSpec(eegSignal, timepoints)
      case Err(e) => r == Err(e)
      case Ok(w) => r.Ok? && fresh(r.value) && r.value.Valid() &&
                    Labelled(r.value.data, r.value.labels) ==
                      (if mode == "train" && balance then Balanced(w, draw) else w)
  {
    ghost var parts := RawParts(eegSignal, timepoints);
    var ds := new RawDataset();
    for i := 0 to |eegSignal|
      invariant fresh(ds) && ds.Valid()
      invariant ConcatLabelled(parts[..i]) == Ok(Labelled(ds.data, ds.labels))
    {
      if i >= |timepoints| {
        ConcatStopsAt(parts, i);
        return Err(ListIndex);
      }
      var w := RawWindow(eegSignal[i], timepoints[i], RawDuration, SampleRate);
      if w.Err? {
        ConcatStopsAt(parts, i);
        return Err(w.error);
      }
      ConcatStep(parts, i);
      ds.Extend(w.value.data, w.value.labels);
    }
    assert parts[..|eegSignal|] == parts;
    assert RawSpec(eegSignal, timepoints) == ConcatLabelled(parts);
    if mode == "train" && balance {
      ds.Balance(draw);
    }
    return Ok(ds);
  }

  // ---------------------------------------------------------------------
  // RealTestDataset

  /** What RealTestDataset's constructor stores: the chunks of every recording
      in recording order, or the first recording's error. */
  function RealTestSpec(eegSignal: seq<Recording>): (r: Result<seq<Segment>>)
    ensures r.Ok? <==> AllMultichannel(eegSignal)
    ensures r.Ok? ==> ChunksFrom(r.value, eegSignal)
  {
    if eegSignal == [] then Ok([])
    else
      match RealTestSpec(eegSignal[..|eegSignal| - 1])
      case Err(e) => Err(e)
      case Ok(acc) =>
        match RealTestWindowSpec(eegSignal[|eegSignal| - 1], RawDuration, SampleRate)
        case Err(e) => Err(e)
        case Ok(p) =>
          ChunksFromStep(eegSignal, acc, p);
          Ok(acc + p)
  }

  /** Every recording has the two channels real_test_window needs. */
  ghost predicate AllMultichannel(eegSignal: seq<Recording>)
  {
    forall i :: 0 <= i < |eegSignal| ==> eegSignal[i].channels >= 2
  }

  /** Every chunk comes from one of the recordings, is five seconds wide and
      lies inside its recording. */
  ghost predicate ChunksFrom(segs: seq<Segment>, eegSignal: seq<Recording>)
  {
    forall k :: 0 <= k < |segs| ==>
      segs[k].source in eegSignal && segs[k].end - segs[k].start == RawDuration * SampleRate &&
      segs[k].end <= segs[k].source.samples
  }

  lemma ChunksFromStep(eegSignal: seq<Recording>, acc: seq<Segment>, p: seq<Segment>)
    requires eegSignal != [] && ChunksFrom(acc, eegSignal[..|eegSignal| - 1])
    requires RealTestWindowSpec(eegSignal[|eegSignal| - 1], RawDuration, SampleRate) == Ok(p)
    ensures ChunksFrom(acc + p, eegSignal)
  {
    assert SampleRate * RawDuration == RawDuration * SampleRate;
    forall k | 0 <= k < |acc| ensures acc[k].source in eegSignal {
      var j :| 0 <= j < |eegSignal| - 1 && eegSignal[..|eegSignal| - 1][j] == acc[k].source;
      assert eegSignal[j] == acc[k].source;
    }
  }

  /** The number of chunks of a whole test set: one per full five seconds of
      each recording. */
  function TotalChunks(eegSignal: seq<Recording>): nat
  {
    if eegSignal == [] then 0
    else TotalChunks(eegSignal[..|eegSignal| - 1]) +
         eegSignal[|eegSignal| - 1].samples / (RawDuration * SampleRate)
  }

  lemma {:induction false} RealTestLength(eegSignal: seq<Recording>)
    requires RealTestSpec(eegSignal).Ok?
    ensures |RealTestSpec(eegSignal).value| == TotalChunks(eegSignal)
  {
    if eegSignal != [] {
      RealTestLength(eegSignal[..|eegSignal| - 1]);
    }
  }

  class RealTestDataset {
    var data: seq<Segment>

    constructor ()
      ensures data == []
    {
      data := [];
    }

    /** Appends the new chunks. */
    method Extend(d: seq<Segment>)
      modifies this
      ensures data == old(data) + d
    {
      data := data + d;
    }

    /** __len__: the number of stored chunks. */
    function Len(): (n: nat)
      reads this
      ensures n == |data|
    {
      |data|
    }

    /** __getitem__: the chunk at position idx. */
    function GetItem(idx: int): (r: Result<Segment>)
      reads this
      ensures r.Ok? <==> 0 <= idx + |data| && idx < |data|
      ensures r.Ok? ==> exists p :: 0 <= p < |data| && r.value == data[p] &&
                                    (p == idx || p == idx + |data|)
    {
      match ListPosition(idx, |data|)
      case None => Err(ListIndex)
      case Some(p) => Ok(data[p])
    }
  }

  /** RealTestDataset.__init__: real_test_window over each recording, the
      chunks appended in recording order. */
  method LoadRealTest(eegSignal: seq<Recording>) returns (r: Result<RealTestDataset>)
    ensures match RealTestSpec(eegSignal)
      case Err(e) => r == Err(e)
      case Ok(w) => r.Ok? && fresh(r.value) && r.value.data == w && r.value.Len() == TotalChunks(eegSignal)
  {
    var ds := new RealTestDataset();
    for i := 0 to |eegSignal|
      invariant fresh(ds)
      invariant RealTestSpec(eegSignal[..i]) == Ok(ds.data)
    {
      assert eegSignal[..i + 1][..i] == eegSignal[..i];
      var w := RealTestWindow(eegSignal[i], RawDuration, SampleRate);
      if w.Err? {
        RealTestStopsAt(eegSignal, i);
        return Err(w.error);
      }
      ds.Extend(w.value);
    }
    assert eegSignal[..|eegSignal|] == eegSignal;
    RealTestLength(eegSignal);
    return Ok(ds);
  }

  /** The test set is in recording order: the chunks of a list of recordings
      are those of its first i recordings followed by those of the rest. */
  lemma {:induction false} RealTestSplit(eegSignal: seq<Recording>, i: nat)
    requires i <= |eegSignal| && RealTestSpec(eegSignal).Ok?
    ensures RealTestSpec(eegSignal[..i]).Ok? && RealTestSpec(eegSignal[i..]).Ok?
    ensures RealTestSpec(eegSignal).value ==
            RealTestSpec(eegSignal[..i]).value + RealTestSpec(eegSignal[i..]).value
  {
    if i < |eegSignal| {
      RealTestLast(eegSignal);
      RealTestSplit(eegSignal[..|eegSignal| - 1], i);
      RealTestSplitStep(eegSignal, i);
    } else {
      assert eegSignal[..i] == eegSignal;
      assert eegSignal[i..] == [];
    }
  }

  /** The step of RealTestSplit: a split of all but the last recording
      extends to the whole list. */
  lemma {:induction false} RealTestSplitStep(eegSignal: seq<Recording>, i: nat)
    requires i < |eegSignal| && RealTestSpec(eegSignal).Ok?
    requires var init := eegSignal[..|eegSignal| - 1];
      RealTestSpec(init).Ok? && RealTestSpec(init[..i]).Ok? && RealTestSpec(init[i..]).Ok? &&
      RealTestSpec(init).value == RealTestSpec(init[..i]).value + RealTestSpec(init[i..]).value
    ensures RealTestSpec(eegSignal[..i]).Ok? && RealTestSpec(eegSignal[i..]).Ok?
    ensures RealTestSpec(eegSignal).value ==
            RealTestSpec(eegSignal[..i]).value + RealTestSpec(eegSignal[i..]).value
  {
    var init := eegSignal[..|eegSignal| - 1];
    var last := RealTestWindowSpec(eegSignal[|eegSignal| - 1], RawDuration, SampleRate);
    assert init[..i] == eegSignal[..i];
    assert last.Ok? && RealTestSpec(eegSignal).value == RealTestSpec(init).value + last.value by {
      RealTestLast(eegSignal);
    }
    assert RealTestSpec(eegSignal[i..]).Ok? &&
      RealTestSpec(eegSignal[i..]).value == RealTestSpec(init[i..]).value + last.value by {
      RealTestSuffixOk(eegSignal, i);
      RealTestSuffixLast(eegSignal, i);
    }
    AppendRegroup(RealTestSpec(eegSignal).value, RealTestSpec(init).value,
                  RealTestSpec(eegSignal[..i]).value, RealTestSpec(init[i..]).value,
                  last.value, RealTestSpec(eegSignal[i..]).value);
  }

  lemma AppendRegroup<T>(whole: seq<T>, init: seq<T>, left: seq<T>, mid: seq<T>, last: seq<T>, right: seq<T>)
    requires whole == init + last && init == left + mid && right == mid + last
    ensures whole == left + right
  {
    assert (left + mid) + last == left + (mid + last);
  }

  /** Every recording of a suffix is one of the whole list's. */
  lemma {:induction false} RealTestSuffixOk(eegSignal: seq<Recording>, i: nat)
    requires i <= |eegSignal| && RealTestSpec(eegSignal).Ok?
    ensures RealTestSpec(eegSignal[i..]).Ok?
  {
    var rest := eegSignal[i..];
    forall j | 0 <= j < |rest| ensures rest[j].channels >= 2 {
      assert rest[j] == eegSignal[i + j];
    }
  }

  /** A non-empty suffix ends with the chunks of the last recording. */
  lemma {:induction false} RealTestSuffixLast(eegSignal: seq<Recording>, i: nat)
    requires i < |eegSignal| && RealTestSpec(eegSignal[i..]).Ok?
    ensures RealTestSpec(eegSignal[..|eegSignal| - 1][i..]).Ok?
    ensures RealTestSpec(eegSignal[i..]).value == RealTestSpec(eegSignal[..|eegSignal| - 1][i..]).value +
            RealTestWindowSpec(eegSignal[|eegSignal| - 1], RawDuration, SampleRate).value
  {
    var rest := eegSignal[i..];
    RealTestLast(rest);
    assert rest[..|rest| - 1] == eegSignal[..|eegSignal| - 1][i..];
  }

  /** The chunks of a non-empty list of recordings end with those of its last
      recording. */
  lemma RealTestLast(eegSignal: seq<Recording>)
    requires eegSignal != [] && RealTestSpec(eegSignal).Ok?
    ensures RealTestSpec(eegSignal[..|eegSignal| - 1]).Ok?
    ensures RealTestWindowSpec(eegSignal[|eegSignal| - 1], RawDuration, SampleRate).Ok?
    ensures RealTestSpec(eegSignal).value ==
            RealTestSpec(eegSignal[..|eegSignal| - 1]).value +
            RealTestWindowSpec(eegSignal[|eegSignal| - 1], RawDuration, SampleRate).value
  {
  }

  lemma {:induction false} RealTestStopsAt(eegSignal: seq<Recording>, i: nat)
    requires i < |eegSignal| && RealTestSpec(eegSignal[..i]).Ok?
    requires RealTestWindowSpec(eegSignal[i], RawDuration, SampleRate).Err?
    ensures RealTestSpec(eegSignal) == Err(RealTestWindowSpec(eegSignal[i], RawDuration, SampleRate).error)
  {
    if i < |eegSignal| - 1 {
      assert eegSignal[..|eegSignal| - 1][..i] == eegSignal[..i];
      RealTestStopsAt(eegSignal[..|eegSignal| - 1], i);
    } else {
      assert eegSignal[..|eegSignal| - 1] == eegSignal[..i];
    }
  }
}
