/** How one recording is cut into windows (main/dataset.py): the overlapping,
    labelled windows of sliding_window, the labelled fixed-interval chunks of
    raw_window and the unlabelled chunks of real_test_window.

    A recording is known by its shape only; a window is the column range it
    takes from its recording, and the MFCC transform of a window is kept as an
    uninterpreted value. */
module Windowing {
  import opened Common

  /** A recording of `channels` rows by `samples` columns; `id` tells two
      recordings of the same shape apart. */
  datatype Recording = Recording(id: nat, channels: nat, samples: nat)

  /** The slice recording[:, start:end]: every channel, columns start to end. */
  datatype Segment = Segment(source: Recording, start: nat, end: nat)

  /** eeg_to_mfcc applied to a segment; the transform itself is not modelled. */
  datatype Mfcc = Mfcc(segment: Segment)

  /** Parallel lists of items and their labels (0 interictal, 1 pre-ictal). */
  datatype Labelled<T> = Labelled(data: seq<T>, labels: seq<int>)

  function Max(a: int, b: int): int { if a < b then b else a }
  function Min(a: int, b: int): int { if a < b then a else b }

  // ---------------------------------------------------------------------
  // Arithmetic on floor division used by the window counts.

  /** k <= q / d exactly when k * d <= q. */
  lemma {:induction false} BelowQuotient(q: nat, d: nat, k: nat)
    requires d > 0
    ensures k <= q / d <==> k * d <= q
  {
    var m := q / d;
    assert q == m * d + q % d && 0 <= q % d < d;
    if k <= m {
      MulMonotone(k, m, d);
    } else {
      MulMonotone(m + 1, k, d);
      assert (m + 1) * d == m * d + d;
    }
  }

  // ---------------------------------------------------------------------
  // sliding_window

  /** Number of windows sliding_window keeps: (total - size) / stride + 1
      when one window fits, else none. */
  function WindowCount(total: nat, size: nat, stride: nat): nat
    requires stride > 0
  {
    if total < size then 0 else (total - size) / stride + 1
  }

  /** The first `n` windows of width `size`, starting every `stride` columns. */
  function SlidingFeatures(rec: Recording, size: nat, stride: nat, n: nat): (w: seq<Mfcc>)
    ensures |w| == n
    ensures forall k :: 0 <= k < n ==>
      w[k].segment.source == rec && w[k].segment.start == k * stride &&
      w[k].segment.end == w[k].segment.start + size
  {
    seq(n, k requires 0 <= k => Mfcc(Segment(rec, k * stride, k * stride + size)))
  }

  lemma SlidingFeaturesStep(rec: Recording, size: nat, stride: nat, m: nat)
    ensures SlidingFeatures(rec, size, stride, m + 1) ==
            SlidingFeatures(rec, size, stride, m) + [Mfcc(Segment(rec, m * stride, m * stride + size))]
  {}

  /** Label 1 for a window whose start column lies in [lo, hi], else 0. */
  function StartLabel(start: int, lo: int, hi: int): int
  {
    if start >= lo && start <= hi then 1 else 0
  }

  function SlidingLabels(lo: int, hi: int, stride: nat, n: nat): seq<int>
  {
    seq(n, k => StartLabel(k * stride, lo, hi))
  }

  lemma SlidingLabelsStep(lo: int, hi: int, stride: nat, m: nat)
    ensures SlidingLabels(lo, hi, stride, m + 1) ==
            SlidingLabels(lo, hi, stride, m) + [StartLabel(m * stride, lo, hi)]
  {}

  /** What sliding_window returns for a recording, in closed form. The stride is
      (duration - overlap) * fs columns; a zero stride makes range() fail, and a
      recording that yields no full window makes np.stack fail. */
  function SlidingWindowSpec(rec: Recording, onset: int, duration: nat, overlap: nat,
                             preIct: nat, fs: nat): (r: Result<Labelled<Mfcc>>)
    ensures r.Err? <==> duration * fs - overlap * fs <= 0 || rec.samples < duration * fs
    ensures r.Err? ==> r.error == (if duration * fs - overlap * fs == 0 then RangeStepZero else EmptyStack)
    ensures r.Ok? ==> |r.value.data| == |r.value.labels| > 0
    ensures r.Ok? ==> forall k :: 0 <= k < |r.value.data| ==>
      var w := r.value.data[k].segment;
      w.source == rec && w.end - w.start == duration * fs && w.end <= rec.samples
    ensures r.Ok? ==> forall k :: 0 <= k < |r.value.data| ==>
      var w := r.value.data[k].segment;
      (r.value.labels[k] == 1 <==>
         Max(0, onset - preIct * 60) * fs <= w.start <= onset * fs) &&
      (r.value.labels[k] == 0 || r.value.labels[k] == 1)
    ensures r.Ok? ==>
      r.value.data[0].segment.start == 0 &&
      forall k :: 0 < k < |r.value.data| ==>
        r.value.data[k].segment.start ==
        r.value.data[k - 1].segment.start + (duration - overlap) * fs
  {
    var size := duration * fs;
    var stride := size - overlap * fs;
    if stride == 0 then Err(RangeStepZero)
    else if stride < 0 || rec.samples < size then Err(EmptyStack)
    else
      var n := WindowCount(rec.samples, size, stride);
      var w := SlidingFeatures(rec, size, stride, n);
      SlidingFeaturesFit(rec, size, stride);
      assert stride == (duration - overlap) * fs;
      Ok(Labelled(w, SlidingLabels(Max(0, onset - preIct * 60) * fs, onset * fs, stride, n)))
  }

  /** The windows counted by WindowCount are at least one, end inside the
      recording and start one stride apart. */
  lemma SlidingFeaturesFit(rec: Recording, size: nat, stride: nat)
    requires stride > 0 && rec.samples >= size
    ensures var n := WindowCount(rec.samples, size, stride);
      var w := SlidingFeatures(rec, size, stride, n);
      n > 0 &&
      (forall k :: 0 <= k < n ==> w[k].segment.end <= rec.samples) &&
      (forall k :: 0 < k < n ==> w[k].segment.start == w[k - 1].segment.start + stride)
  {
    var n := WindowCount(rec.samples, size, stride);
    var w := SlidingFeatures(rec, size, stride, n);
    forall k | 0 <= k < n ensures w[k].segment.end <= rec.samples {
      WindowFitsIffCounted(rec.samples, size, stride, k);
    }
    forall k | 0 < k < n ensures w[k].segment.start == w[k - 1].segment.start + stride {
      assert k * stride == (k - 1) * stride + stride;
    }
  }

  /** A window at start k * stride is kept exactly when it is full, that is when
      k * stride + size <= total: every full window is kept and the trailing
      partial one is dropped, never padded. */
  lemma {:induction false} WindowFitsIffCounted(total: nat, size: nat, stride: nat, k: nat)
    requires stride > 0
    ensures k < WindowCount(total, size, stride) <==> k * stride + size <= total
  {
    if total >= size {
      BelowQuotient(total - size, stride, k);
    }
  }

  /** sliding_window fails exactly when the stride is not positive or no full
      window fits; otherwise it yields (total - size) / stride + 1 windows. */
  lemma SlidingWindowCount(rec: Recording, onset: int, duration: nat, overlap: nat,
                           preIct: nat, fs: nat)
    ensures var size := duration * fs; var stride := size - overlap * fs;
      var r := SlidingWindowSpec(rec, onset, duration, overlap, preIct, fs);
      (r.Err? <==> stride <= 0 || rec.samples < size) &&
      (r.Ok? ==> |r.value.data| == (rec.samples - size) / stride + 1)
  {}

  /** The loop of sliding_window: window starts 0, stride, 2 * stride, ... below
      the recording's length, a window kept only when it is full width. */
  method SlidingWindow(rec: Recording, onset: int, duration: nat, overlap: nat,
                       preIct: nat, fs: nat) returns (r: Result<Labelled<Mfcc>>)
    ensures r == SlidingWindowSpec(rec, onset, duration, overlap, preIct, fs)
  {
    var features: seq<Mfcc> := [];
    var labels: seq<int> := [];
    var preIctalTime := Max(0, onset - preIct * 60);
    var windowSize := duration * fs;
    var overlapSize := overlap * fs;
    var stride := windowSize - overlapSize;
    var totalTime := rec.samples;
    if stride == 0 {
      return Err(RangeStepZero);
    }
    if stride > 0 {
      ghost var n := WindowCount(totalTime, windowSize, stride);
      var start := 0;
      ghost var i: nat := 0;
      while start < totalTime
        invariant start == i * stride
        invariant features == SlidingFeatures(rec, windowSize, stride, Min(i, n))
        invariant labels == SlidingLabels(preIctalTime * fs, onset * fs, stride, Min(i, n))
        decreases totalTime - start
      {
        var end := start + windowSize;
        var width := Min(end, totalTime) - start;
        WindowFitsIffCounted(totalTime, windowSize, stride, i);
        if width == windowSize {
          var windowLabel := if start >= preIctalTime * fs && start <= onset * fs then 1 else 0;
          SlidingFeaturesStep(rec, windowSize, stride, i);
          SlidingLabelsStep(preIctalTime * fs, onset * fs, stride, i);
          features := features + [Mfcc(Segment(rec, start, end))];
          labels := labels + [windowLabel];
        } else {
          assert Min(i + 1, n) == Min(i, n);
        }
        assert (i + 1) * stride == i * stride + stride;
        start := start + stride;
        i := i + 1;
      }
      if i < n {
        WindowFitsIffCounted(totalTime, windowSize, stride, i);
      }
    }
    if |features| == 0 {
      return Err(EmptyStack);
    }
    return Ok(Labelled(features, labels));
  }

  // ---------------------------------------------------------------------
  // raw_window and real_test_window

  /** Where a Python slice bound `i` lands in a sequence of length n: negative
      bounds count from the end, and both ends are clipped to [0, n]. */
  function SliceBound(i: int, n: nat): (b: nat)
    ensures b <= n
    ensures i >= 0 ==> b == Min(i, n)
    ensures i < 0 ==> b == Max(0, i + n)
  {
    if i < 0 then (if i + n < 0 then 0 else i + n)
    else if i > n then n
    else i
  }

  /** `count` consecutive chunks of `size` columns, the first at column lo. */
  function ChunkRun(rec: Recording, lo: nat, size: nat, count: nat): (c: seq<Segment>)
    ensures |c| == count
    ensures forall k :: 0 <= k < count ==>
      c[k].source == rec && c[k].start == lo + k * size && c[k].end == c[k].start + size
  {
    seq(count, k requires 0 <= k => Segment(rec, lo + k * size, lo + k * size + size))
  }

  /** The chunks that raw_window and real_test_window cut from the slice
      recording[:, a:b]: as many full chunks of `size` columns as fit, one after
      another from the slice's first column. Reading row 1 of the slice fails
      on a recording with fewer than two channels, and a zero chunk size fails
      the floor division. */
  function ChunkSpec(rec: Recording, a: int, b: int, size: nat): (r: Result<seq<Segment>>)
    ensures r.Err? <==> rec.channels < 2 || size == 0
    ensures r.Ok? ==>
      var lo := SliceBound(a, rec.samples);
      var hi := Max(lo, SliceBound(b, rec.samples));
      |r.value| == (hi - lo) / size &&
      |r.value| * size <= hi - lo < |r.value| * size + size &&
      forall k :: 0 <= k < |r.value| ==>
        r.value[k].source == rec && r.value[k].end - r.value[k].start == size &&
        r.value[k].start == lo + k * size && r.value[k].end <= hi &&
        (k > 0 ==> r.value[k].start == r.value[k - 1].end)
  {
    if rec.channels < 2 then Err(RowIndex)
    else if size == 0 then Err(ZeroDivision)
    else
      var lo := SliceBound(a, rec.samples);
      var hi := Max(lo, SliceBound(b, rec.samples));
      var n := (hi - lo) / size;
      var c := ChunkRun(rec, lo, size, n);
      ChunksInside(hi - lo, size, n);
      ChunkRunFits(rec, lo, hi, size, n);
      Ok(c)
  }

  /** Each chunk of the run lies in [lo, hi] and starts where the previous ends. */
  lemma ChunkRunFits(rec: Recording, lo: nat, hi: nat, size: nat, n: nat)
    requires lo <= hi && forall k :: 0 <= k < n ==> k * size + size <= hi - lo
    ensures var c := ChunkRun(rec, lo, size, n);
      forall k :: 0 <= k < n ==>
        lo <= c[k].start && c[k].end <= hi && (k > 0 ==> c[k].start == c[k - 1].end)
  {
    var c := ChunkRun(rec, lo, size, n);
    forall k | 0 <= k < n
      ensures lo <= c[k].start && c[k].end <= hi && (k > 0 ==> c[k].start == c[k - 1].end)
    {
      if k > 0 {
        assert (k - 1) * size + size == k * size;
      }
    }
  }

  /** The chunks counted by floor division fit, and the remainder is shorter
      than one chunk. */
  lemma {:induction false} ChunksInside(len: nat, size: nat, n: nat)
    requires size > 0 && n == len / size
    ensures n * size <= len < n * size + size
    ensures forall k :: 0 <= k < n ==> k * size + size <= len
  {
    BelowQuotient(len, size, n);
    BelowQuotient(len, size, n + 1);
    assert (n + 1) * size == n * size + size;
    forall k | 0 <= k < n ensures k * size + size <= len {
      MulMonotone(k + 1, n, size);
      assert (k + 1) * size == k * size + size;
    }
  }

  /** For non-negative bounds the slice holds max(0, min(b, n) - min(a, n))
      columns. */
  lemma SliceLength(a: nat, b: nat, n: nat)
    ensures Max(SliceBound(a, n), SliceBound(b, n)) - SliceBound(a, n) ==
            Max(0, Min(b, n) - Min(a, n))
  {}

  /** The loop of raw_window and real_test_window: chunk i covers columns
      i * size to i * size + size of the slice that starts at column lo. */
  method CutChunks(rec: Recording, lo: nat, size: nat, count: nat) returns (chunks: seq<Segment>)
    ensures chunks == ChunkRun(rec, lo, size, count)
  {
    chunks := [];
    for i := 0 to count
      invariant chunks == ChunkRun(rec, lo, size, i)
    {
      var start := i * size;
      var end := start + size;
      chunks := chunks + [Segment(rec, lo + start, lo + end)];
    }
  }

  /** One interval of raw_window: the slice recording[:, a:b] cut into chunks,
      each with the same label. */
  function IntervalSpec(rec: Recording, a: int, b: int, size: nat, lbl: int): (r: Result<Labelled<Segment>>)
    ensures r.Err? <==> ChunkSpec(rec, a, b, size).Err?
    ensures r.Ok? ==>
      r.value.data == ChunkSpec(rec, a, b, size).value &&
      |r.value.labels| == |r.value.data| &&
      forall k :: 0 <= k < |r.value.labels| ==> r.value.labels[k] == lbl
    ensures r.Ok? ==> SegmentsInside(r.value.data, rec, size)
  {
    match ChunkSpec(rec, a, b, size)
    case Err(e) => Err(e)
    case Ok(c) => Ok(Labelled(c, seq(|c|, _ => lbl)))
  }

  /** Every segment comes from `rec`, is `size` columns wide and ends inside it. */
  ghost predicate SegmentsInside(segs: seq<Segment>, rec: Recording, size: nat)
  {
    forall k :: 0 <= k < |segs| ==>
      segs[k].source == rec && segs[k].end - segs[k].start == size && segs[k].end <= rec.samples
  }

  lemma SegmentsInsideConcat(a: seq<Segment>, b: seq<Segment>, rec: Recording, size: nat)
    requires SegmentsInside(a, rec, size) && SegmentsInside(b, rec, size)
    ensures SegmentsInside(a + b, rec, size)
  {
    forall k | 0 <= k < |a + b|
      ensures (a + b)[k].source == rec && (a + b)[k].end - (a + b)[k].start == size &&
              (a + b)[k].end <= rec.samples
    {
      if k >= |a| {
        assert (a + b)[k] == b[k - |a|];
      }
    }
  }

  /** The optional interval boundaries of a recording, in seconds; None stands
      for a key absent from the info dict. */
  datatype Info = Info(interictalStart: Option<int>, interictalEnd: Option<int>,
                       preictalStart: Option<int>, preictalEnd: Option<int>)

  /** One optional interval of raw_window: nothing when its start key is
      absent, a KeyError when its start key is present but its end key is not. */
  function OptionalInterval(rec: Recording, start: Option<int>, end: Option<int>,
                            fs: nat, size: nat, lbl: int): (r: Result<Labelled<Segment>>)
    ensures r.Err? <==> IntervalFails(rec, start, end, size)
    ensures r.Ok? ==> SegmentsInside(r.value.data, rec, size) && |r.value.labels| == |r.value.data| &&
                      forall k :: 0 <= k < |r.value.labels| ==> r.value.labels[k] == lbl
  {
    if start.None? then Ok(Labelled([], []))
    else if end.None? then Err(MissingKey)
    else IntervalSpec(rec, start.value * fs, end.value * fs, size, lbl)
  }

  /** An interval block of raw_window raises exactly when its start key is
      present and its end key is absent (KeyError), the recording has fewer
      than two channels (IndexError) or the chunk size is zero
      (ZeroDivisionError). */
  predicate IntervalFails(rec: Recording, start: Option<int>, end: Option<int>, size: nat)
  {
    start.Some? && (end.None? || rec.channels < 2 || size == 0)
  }

  /** What raw_window returns: the interictal chunks labelled 0, then the
      pre-ictal chunks labelled 1. */
  function RawWindowSpec(rec: Recording, info: Info, duration: nat, fs: nat): (r: Result<Labelled<Segment>>)
    ensures r.Err? <==> IntervalFails(rec, info.interictalStart, info.interictalEnd, duration * fs) ||
                        IntervalFails(rec, info.preictalStart, info.preictalEnd, duration * fs)
    ensures r.Ok? ==> |r.value.data| == |r.value.labels|
    ensures r.Ok? ==> SegmentsInside(r.value.data, rec, duration * fs)
    ensures r.Ok? ==> forall i, j :: 0 <= i < j < |r.value.labels| ==>
      0 <= r.value.labels[i] <= r.value.labels[j] <= 1
    ensures r.Ok? && info.interictalStart.None? ==> Count(r.value.labels, 0) == 0
    ensures r.Ok? && info.preictalStart.None? ==> Count(r.value.labels, 1) == 0
  {
    var size := fs * duration;
    match OptionalInterval(rec, info.interictalStart, info.interictalEnd, fs, size, 0)
    case Err(e) => Err(e)
    case Ok(inter) =>
      match OptionalInterval(rec, info.preictalStart, info.preictalEnd, fs, size, 1)
      case Err(e) => Err(e)
      case Ok(pre) =>
        assert fs * duration == duration * fs;
        CountConstant(inter.labels, 0, 1);
        CountConstant(pre.labels, 1, 0);
        CountConcat(inter.labels, pre.labels, 0);
        CountConcat(inter.labels, pre.labels, 1);
        ZerosThenOnes(inter.labels, pre.labels);
        SegmentsInsideConcat(inter.data, pre.data, rec, size);
        Ok(Labelled(inter.data + pre.data, inter.labels + pre.labels))
  }

  /** The chunks one interval contributes to raw_window: none when its start
      key is absent, else the chunks of its slice. */
  function IntervalChunks(rec: Recording, start: Option<int>, end: Option<int>, fs: nat, size: nat): seq<Segment>
    requires !IntervalFails(rec, start, end, size)
  {
    if start.None? then [] else ChunkSpec(rec, start.value * fs, end.value * fs, size).value
  }

  /** raw_window's data are the interictal interval's chunks followed by the
      pre-ictal interval's chunks, labelled 0 and 1 respectively. */
  lemma RawWindowData(rec: Recording, info: Info, duration: nat, fs: nat)
    requires !IntervalFails(rec, info.interictalStart, info.interictalEnd, duration * fs)
    requires !IntervalFails(rec, info.preictalStart, info.preictalEnd, duration * fs)
    ensures var r := RawWindowSpec(rec, info, duration, fs).value;
      var inter := IntervalChunks(rec, info.interictalStart, info.interictalEnd, fs, duration * fs);
      var pre := IntervalChunks(rec, info.preictalStart, info.preictalEnd, fs, duration * fs);
      r.data == inter + pre && r.labels == seq(|inter|, _ => 0) + seq(|pre|, _ => 1)
  {
    assert fs * duration == duration * fs;
  }

  /** Zeros followed by ones are sorted and binary. */
  lemma ZerosThenOnes(zeros: seq<int>, ones: seq<int>)
    requires forall k :: 0 <= k < |zeros| ==> zeros[k] == 0
    requires forall k :: 0 <= k < |ones| ==> ones[k] == 1
    ensures forall i, j :: 0 <= i < j < |zeros + ones| ==> 0 <= (zeros + ones)[i] <= (zeros + ones)[j] <= 1
  {
    var l := zeros + ones;
    forall i, j | 0 <= i < j < |l| ensures 0 <= l[i] <= l[j] <= 1 {
      if j < |zeros| {
        assert l[i] == 0 && l[j] == 0;
      } else if i < |zeros| {
        assert l[i] == 0 && l[j] == ones[j - |zeros|];
      } else {
        assert l[i] == ones[i - |zeros|] && l[j] == ones[j - |zeros|];
      }
    }
  }

  lemma {:induction false} CountConstant(s: seq<int>, v: int, w: int)
    requires forall k :: 0 <= k < |s| ==> s[k] == v
    requires w != v
    ensures Count(s, w) == 0
  {
    if s != [] {
      CountConstant(s[..|s| - 1], v, w);
    }
  }

  /** raw_window yields one chunk per full duration * fs columns of each
      present interval: floor(length / size) labelled 0, then floor(length / size)
      labelled 1, and an absent interval yields none. */
  lemma RawWindowCounts(rec: Recording, info: Info, duration: nat, fs: nat)
    requires !IntervalFails(rec, info.interictalStart, info.interictalEnd, duration * fs)
    requires !IntervalFails(rec, info.preictalStart, info.preictalEnd, duration * fs)
    ensures RawWindowSpec(rec, info, duration, fs).Ok?
    ensures var r := RawWindowSpec(rec, info, duration, fs).value;
      var inter := IntervalCount(rec, info.interictalStart, info.interictalEnd, fs, duration * fs);
      var pre := IntervalCount(rec, info.preictalStart, info.preictalEnd, fs, duration * fs);
      |r.labels| == inter + pre &&
      (forall k :: 0 <= k < inter ==> r.labels[k] == 0) &&
      (forall k :: inter <= k < inter + pre ==> r.labels[k] == 1)
  {
    RawWindowData(rec, info, duration, fs);
    IntervalCountChunks(rec, info.interictalStart, info.interictalEnd, fs, duration * fs);
    IntervalCountChunks(rec, info.preictalStart, info.preictalEnd, fs, duration * fs);
  }

  /** The number of chunks one interval contributes: none when its start key
      is absent, else floor(len / size) of its Python slice. */
  function IntervalCount(rec: Recording, start: Option<int>, end: Option<int>, fs: nat, size: nat): nat
    requires !IntervalFails(rec, start, end, size)
  {
    if start.None? then 0
    else
      var lo := SliceBound(start.value * fs, rec.samples);
      (Max(lo, SliceBound(end.value * fs, rec.samples)) - lo) / size
  }

  lemma IntervalCountChunks(rec: Recording, start: Option<int>, end: Option<int>, fs: nat, size: nat)
    requires !IntervalFails(rec, start, end, size)
    ensures |IntervalChunks(rec, start, end, fs, size)| == IntervalCount(rec, start, end, fs, size)
  {
  }

  /** The loop form of raw_window. */
  method RawWindow(rec: Recording, info: Info, duration: nat, fs: nat) returns (r: Result<Labelled<Segment>>)
    ensures r == RawWindowSpec(rec, info, duration, fs)
  {
    var data: seq<Segment> := [];
    var labels: seq<int> := [];
    var samplesPerSegment := fs * duration;
    if info.interictalStart.Some? {
      if info.interictalEnd.None? {
        return Err(MissingKey);
      }
      var part := CutInterval(rec, info.interictalStart.value * fs, info.interictalEnd.value * fs,
                              samplesPerSegment, 0);
      if part.Err? {
        return Err(part.error);
      }
      data := data + part.value.data;
      labels := labels + part.value.labels;
      assert data == part.value.data && labels == part.value.labels;
    }
    assert OptionalInterval(rec, info.interictalStart, info.interictalEnd, fs, samplesPerSegment, 0)
      == Ok(Labelled(data, labels));
    ghost var inter := Labelled(data, labels);
    if info.preictalStart.Some? {
      if info.preictalEnd.None? {
        return Err(MissingKey);
      }
      var part := CutInterval(rec, info.preictalStart.value * fs, info.preictalEnd.value * fs,
                              samplesPerSegment, 1);
      if part.Err? {
        return Err(part.error);
      }
      data := data + part.value.data;
      labels := labels + part.value.labels;
      assert OptionalInterval(rec, info.preictalStart, info.preictalEnd, fs, samplesPerSegment, 1)
        == Ok(Labelled(data[|inter.data|..], labels[|inter.labels|..]));
    }
    assert data == inter.data + data[|inter.data|..];
    assert labels == inter.labels + labels[|inter.labels|..];
    return Ok(Labelled(data, labels));
  }

  /** One interval block of raw_window: trim, count the chunks from row 1, and
      collect them with their label. */
  method CutInterval(rec: Recording, a: int, b: int, size: nat, lbl: int) returns (r: Result<Labelled<Segment>>)
    ensures r == IntervalSpec(rec, a, b, size, lbl)
  {
    var lo := SliceBound(a, rec.samples);
    var hi := Max(lo, SliceBound(b, rec.samples));
    if rec.channels < 2 {
      return Err(RowIndex);
    }
    if size == 0 {
      return Err(ZeroDivision);
    }
    var nSegments := (hi - lo) / size;
    var nData := CutChunks(rec, lo, size, nSegments);
    var nLabel: seq<int> := [];
    for i := 0 to nSegments
      invariant nLabel == seq(i, _ => lbl)
    {
      nLabel := nLabel + [lbl];
    }
    return Ok(Labelled(nData, nLabel));
  }

  /** What real_test_window returns: the whole recording cut into consecutive
      full chunks of duration * fs columns. */
  function RealTestWindowSpec(rec: Recording, duration: nat, fs: nat): (r: Result<seq<Segment>>)
    ensures r.Err? <==> rec.channels < 2 || fs * duration == 0
    ensures r.Ok? ==> |r.value| == rec.samples / (fs * duration) && WholeChunks(r.value, rec, fs * duration)
  {
    ChunkSpec(rec, 0, rec.samples, fs * duration)
  }

  /** Chunk k of a recording takes its columns k * size to (k + 1) * size,
      all inside the recording. */
  ghost predicate WholeChunks(chunks: seq<Segment>, rec: Recording, size: nat)
  {
    forall k :: 0 <= k < |chunks| ==>
      chunks[k].source == rec && chunks[k].end == chunks[k].start + size &&
      chunks[k].start == k * size && chunks[k].end <= rec.samples
  }

  /** The loop form of real_test_window. */
  method RealTestWindow(rec: Recording, duration: nat, fs: nat) returns (r: Result<seq<Segment>>)
    ensures r == RealTestWindowSpec(rec, duration, fs)
  {
    var samplesPerSegment := fs * duration;
    if rec.channels < 2 {
      return Err(RowIndex);
    }
    if samplesPerSegment == 0 {
      return Err(ZeroDivision);
    }
    var nSegments := rec.samples / samplesPerSegment;
    var data := CutChunks(rec, 0, samplesPerSegment, nSegments);
    return Ok(data);
  }
}
