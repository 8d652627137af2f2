# EEG seizure-prediction preprocessing and metrics, modelled in Dafny

This project models three parts of an EEG seizure-prediction code base:

- **Windowing and dataset assembly** (`main/dataset.py`).
  - `sliding_window` cuts one recording (channels × samples) into overlapping windows. Each window is labelled 1 when it starts inside the pre-ictal range before the seizure onset, and 0 otherwise.
  - `raw_window` cuts the optional interictal and pre-ictal intervals of a recording into consecutive five-second chunks, labelled 0 and 1.
  - `real_test_window` cuts a whole recording into chunks without labels.
  - `MFCCDataset`, `RawDataset` and `RealTestDataset` run these over a list of recordings and concatenate the results in recording order. `RawDataset` can then rebalance its classes by drawing positives with replacement.
- **Clock-time arithmetic** (`src/pre-time.py`). This covers:
  - `HHMMSS` parsing;
  - seizure start and end times from second offsets;
  - interictal bounds some minutes around each seizure, rendered as `HH:MM:SS`;
  - signed offsets between two clock times;
  - the pre-ictal start.
- **Evaluation metrics** (`main/metrics.py`). This covers:
  - metric-name normalisation and the `'all'` expansion;
  - the confusion counts of paired binary labels;
  - accuracy, recall, precision and specificity;
  - the fixed-order results mapping of `basic_metric`.

Modules:

- `Common` (`common.dfy`) holds `Option`, `Result` and the Python exceptions the code raises, as values of `Error`.
- `Windowing` (`windowing.dfy`) holds the three window functions.
- `Datasets` (`datasets.dfy`) holds the three dataset classes and balancing.
- `ClockTime` (`clocktime.dfy`) models `src/pre-time.py`.
- `Metrics` (`metrics.dfy`) models `main/metrics.py`.

How the model represents things:

- **Recordings and windows.** A recording is known only by its shape, `Recording(id, channels, samples)`. A window or chunk is the column range it takes from its recording, `Segment(source, start, end)`. The MFCC transform of a window is the uninterpreted value `Mfcc(segment)`.
- **Python indexing.** Slices and list indices follow Python's rules, negative indices included: `Windowing.SliceBound` for slices and `Datasets.ListPosition` for list indices.
- **Loops.** Every loop of the source is a Dafny method with a `while` or `for` loop. Each method is proved equal to a closed-form specification function, and the properties are proved about that function.
- **Classes.** The dataset classes are Dafny classes. Their `data` and `labels` lists are `seq` fields, which the constructor methods `LoadMfcc`, `LoadRaw` and `LoadRealTest` extend in place and `Balance` reassigns.
- **Clock times.** A parsed clock time is a number of seconds from 1900-01-01 00:00:00, the date `strptime` gives it. Offsets may move it to another day. Rendering shows only its time of day, modulo 24 hours.
- **Metric ratios.** They are exact `real` quotients.

Behaviour of the code worth noting:

- **The confusion matrix must be 2×2.** `confusion_matrix` (`main/metrics.py:23`) sizes its matrix by the label values that occur in `y_true` and `y_pred` together. When only one value occurs, or there are no pairs, the four-way unpack raises ValueError. The model returns `Unpack` for it. Because that error comes first, accuracy's missing zero guard (`main/metrics.py:27`) can never divide by zero inside `basic_metric`. Only recall, precision and specificity have a guard, returning 0 for a zero denominator.
- **`cal_pre_time` does not clamp.** It returns `start - interval * 60` even when that is negative (`src/pre-time.py:84`).
- **Metric keys come in a fixed order.** `basic_metric` inserts keys in the order accuracy, recall, precision, specificity, AUC, F1 (`main/metrics.py:26-39`), not in the requested order.
- **Surplus onsets or infos are ignored.** With fewer onsets or infos than recordings, the constructors raise `IndexError` when they index past the list (`main/dataset.py:79`, `main/dataset.py:155`). They do not raise a separate mismatch error.
- **The mismatch guard is dead code.** The "data number and label number mismatch" guard (`main/dataset.py:83-85`, `main/dataset.py:159-161`) never fires: `Datasets.ConcatOk` proves the two lists always have equal length, so the model has no branch for it.

## Model

| member | source | states |
|---|---|---|
| Windowing.SlidingFeaturesFit | main/dataset.py:41-59 | With a positive stride and a recording at least one window long, there is at least one window. Every window ends inside the recording, and successive starts are one stride apart. |
| Windowing.SlidingWindowSpec | main/dataset.py:29-65 | The call fails exactly when the stride `(duration - overlap) * fs` is not positive or no full window fits. The error is RangeStepZero for a zero step (`range` rejects it) and EmptyStack otherwise (`np.stack` of an empty list). Otherwise features and labels have equal, non-zero length. Every window is exactly `duration * fs` columns and lies inside the recording. Starts are 0, then step by the stride. The label is 1 iff `max(0, onset - preIct*60) * fs <= start <= onset * fs`, and every label is 0 or 1. |
| Windowing.SlidingWindow | main/dataset.py:41-65 | The loop over starts `0, stride, ...` that keeps only full-width windows returns exactly `SlidingWindowSpec`. |
| Windowing.WindowFitsIffCounted | main/dataset.py:54-59 | The window at `k * stride` is kept iff `k * stride + size <= total`: every full window is kept, and the trailing partial one is dropped, never padded. |
| Windowing.SlidingWindowCount | main/dataset.py:45-65 | With a positive stride and at least one full window, the number of windows is `(total - size) / stride + 1`. Otherwise the call fails. |
| Windowing.SliceBound | main/dataset.py:108 | A Python slice bound lands in `[0, n]`. A non-negative bound is clipped to `n`, and a negative one counts from the end, clipped at 0. |
| Windowing.SliceLength | main/dataset.py:108 | For non-negative bounds the trimmed slice holds `max(0, min(end, n) - min(start, n))` columns. |
| Windowing.ChunkSpec | main/dataset.py:108-117 | Chunking a slice fails exactly when the recording has fewer than two channels (row 1 is read) or the chunk size is zero. Otherwise it gives `floor(len / size)` chunks, each exactly `size` columns wide. Chunk `k` starts at column `lo + k * size`, where `lo` is the slice's start, so each starts where the previous ends. All lie inside the slice, and the dropped remainder is shorter than one chunk. |
| Windowing.ChunksInside | main/dataset.py:110-117 | With `n = len / size`, every one of the `n` chunks fits in the slice and the remainder is shorter than a chunk. |
| Windowing.CutChunks | main/dataset.py:114-117 | The chunk loop yields chunk `i` at columns `lo + i*size` to `lo + i*size + size`, for every `i` below the count. |
| Windowing.IntervalSpec | main/dataset.py:105-121 | One interval block fails exactly when its chunking fails. Otherwise it returns the chunks of the slice, each with the interval's label. |
| Windowing.CutInterval | main/dataset.py:105-121 | The loop form of one interval block (trim, count from row 1, append chunks and labels) returns exactly `IntervalSpec`. |
| Windowing.OptionalInterval | main/dataset.py:105-121 | An interval block fails iff its start key is present and either its end key is absent (KeyError), the recording has fewer than two channels, or the chunk size is zero. Otherwise every chunk is `size` columns inside the recording and carries the block's label. An absent start key gives nothing. |
| Windowing.RawWindowSpec | main/dataset.py:96-141 | `raw_window` fails exactly when an interval whose start key is present has no end key (KeyError), the recording has fewer than two channels, or the chunk size is zero. Otherwise data and labels have equal length, and every chunk is `duration * fs` columns inside the recording. Labels are sorted, all 0 before all 1. An absent interictal start gives no 0, and an absent pre-ictal start gives no 1. |
| Windowing.RawWindowData | main/dataset.py:103-141 | When `raw_window` succeeds, its data are exactly the interictal slice's chunks followed by the pre-ictal slice's chunks, with labels `[0] * len(interictal) + [1] * len(preictal)`. |
| Windowing.RawWindowCounts | main/dataset.py:103-141 | When no present interval fails, the result holds `floor(len/size)` interictal chunks labelled 0, then `floor(len/size)` pre-ictal chunks labelled 1. Each count is `IntervalCount`: that interval's Python slice length divided by the chunk size. An absent interval contributes none. |
| Windowing.RawWindow | main/dataset.py:96-141 | The loop form of `raw_window` returns exactly `RawWindowSpec`. |
| Windowing.RealTestWindowSpec | main/dataset.py:187-205 | `real_test_window` fails exactly when the recording has fewer than two channels or the chunk size is zero. Otherwise it gives `samples / size` chunks of the recording itself, each exactly `size = fs * duration` columns wide. Chunk `k` starts at column `k * size`, and all lie inside the recording. |
| Windowing.RealTestWindow | main/dataset.py:187-205 | The loop form of `real_test_window` returns exactly `RealTestWindowSpec`. |
| Datasets.ListPosition | main/dataset.py:93-94 | A list index is valid iff `-n <= idx < n`. It then lands on `idx`, or on `idx + n` for a negative index. |
| Datasets.ConcatOk | main/dataset.py:76-88 | Construction over recordings succeeds iff every recording does. Then data and labels have equal length, and the labels are binary when every recording's are. |
| Datasets.ConcatSplit | main/dataset.py:76-82 | Concatenation is in recording order: the whole is the output of the first `i` recordings followed by that of the rest. |
| Datasets.ConcatStopsAt | main/dataset.py:73-88 | The first recording that fails ends construction with its own error. |
| Datasets.MfccSpec | main/dataset.py:68-88 | `MFCCDataset` construction succeeds iff there is an onset for every recording and every recording is at least one 10 s window long. It then stores equally many windows and binary labels. |
| Datasets.MfccPartsOk | main/dataset.py:76-80 | Recording `i` yields windows iff it has an onset and is at least 2560 columns long. |
| Datasets.MfccDataset.constructor | main/dataset.py:74-75 | The dataset starts with empty data and labels. |
| Datasets.MfccDataset.Extend | main/dataset.py:81-82 | `extend` appends the new windows and labels and changes nothing else. |
| Datasets.MfccDataset.Len | main/dataset.py:90-91 | `__len__` is the number of labels, which equals the number of windows. |
| Datasets.MfccDataset.GetItem | main/dataset.py:93-94 | `__getitem__` succeeds iff `-len <= idx < len`. It returns the window and label stored at the same Python position. |
| Datasets.LoadMfcc | main/dataset.py:68-88 | The constructor loop either raises `MfccSpec`'s error or yields a fresh, valid dataset holding exactly `MfccSpec`'s windows and labels. |
| Datasets.RawSpec | main/dataset.py:151-164 | `RawDataset` construction succeeds iff there is an info for every recording and no present interval of any recording fails. It then stores equally many chunks and binary labels. |
| Datasets.RawPartsOk | main/dataset.py:154-158 | Recording `i` yields chunks iff it has an info and neither of its present intervals fails. |
| Datasets.IndicesOf | main/dataset.py:170-171 | `np.where(labels == v)` lists, in increasing order, positions that hold `v`, `Count(labels, v)` of them. |
| Datasets.IndicesOfComplete | main/dataset.py:170-171 | `np.where` misses no position: every position holding `v` is in the list. |
| Datasets.RandomChoice | main/dataset.py:174 | `np.random.choice(idx_pos, size=len(idx_neg), replace=True)` yields `len(idx_neg)` entries, each an element of `idx_pos`. |
| Datasets.RandomChoiceCovers | main/dataset.py:174 | Conversely, every list of elements of `idx_pos` is the choice made by some `draw`, so the `draw` parameter covers every outcome of the random choice. |
| Datasets.BalancedIndex | main/dataset.py:175 | Every balanced index is a valid position of the label list. |
| Datasets.Balanced | main/dataset.py:173-179 | Balancing keeps data and labels of equal length. |
| Datasets.BalancedCounts | main/dataset.py:167-179 | With at least one positive, the balanced labels are the `n` original negatives followed by `n` ones, where `n` is the original negative count. So there are as many zeros as ones, `n` each. |
| Datasets.BalancedItems | main/dataset.py:170-179 | Balancing keeps every negative item unchanged and in its original order. Every item after them is a copy of some original positive item. |
| Datasets.BalancedNoPositives | main/dataset.py:173 | Without a positive, balancing changes nothing. |
| Datasets.BalancedNoNegatives | main/dataset.py:173-179 | With positives but no negatives, balancing empties the dataset. |
| Datasets.RawDataset.constructor | main/dataset.py:152-153 | The dataset starts empty. |
| Datasets.RawDataset.Extend | main/dataset.py:157-158 | `extend` appends the chunks and labels and changes nothing else. |
| Datasets.RawDataset.Balance | main/dataset.py:167-179 | The balancing step keeps the dataset valid and replaces it with `Balanced` of its old contents. |
| Datasets.RawDataset.Len | main/dataset.py:181-182 | `__len__` is the number of labels, which equals the number of chunks. |
| Datasets.RawDataset.GetItem | main/dataset.py:184-185 | `__getitem__` succeeds iff `-len <= idx < len`. It returns the chunk and label at that Python position. |
| Datasets.LoadRaw | main/dataset.py:144-179 | The constructor either raises `RawSpec`'s error or yields a fresh, valid dataset. Its contents are `RawSpec`'s output, balanced exactly when mode is "train" and balance is set. |
| Datasets.RealTestSpec | main/dataset.py:211-216 | `RealTestDataset` construction succeeds iff every recording has at least two channels. Every stored chunk then comes from one of the recordings, is 1280 columns wide and lies inside its recording. |
| Datasets.RealTestLength | main/dataset.py:195-216 | The test set holds one chunk per full five seconds of each recording, summed over the recordings. |
| Datasets.RealTestStopsAt | main/dataset.py:214-216 | The first recording that fails ends construction with its error. |
| Datasets.RealTestDataset.constructor | main/dataset.py:212 | The dataset starts empty. |
| Datasets.RealTestDataset.Extend | main/dataset.py:216 | `extend` appends the chunks. |
| Datasets.RealTestDataset.GetItem | main/dataset.py:221-222 | `__getitem__` succeeds iff `-len <= idx < len`. It returns the chunk at that Python position. |
| Datasets.LoadRealTest | main/dataset.py:211-219 | The constructor loop either raises `RealTestSpec`'s error or yields a fresh dataset holding exactly `RealTestSpec`'s chunks. Its `__len__` is then `TotalChunks`, one chunk per full five seconds of each recording. |
| Datasets.RealTestSplit | main/dataset.py:214-216 | The test set is in recording order: its chunks are those of the first `i` recordings followed by those of the rest. |
| ClockTime.ParseTime | src/pre-time.py:12-14 | A string parses iff it is six digits with hours below 24 and minutes and seconds below 60. The result is a second of the day in `[0, 86400)`. Anything else raises ValueError. |
| ClockTime.Render | src/pre-time.py:57-58 | `strftime("%H:%M:%S")` gives 8 characters: digits with colons at positions 2 and 5. |
| ClockTime.RenderParses | src/pre-time.py:57-58 | Removing the colons of a rendered time gives a string that `parse_time` accepts, and its value is the moment's time of day. |
| ClockTime.ParseRenders | src/pre-time.py:12-14 | Rendering a parsed time and removing the colons gives back the parsed string. |
| ClockTime.CalculateSeizureTimes | src/pre-time.py:16-39 | The call fails iff the file start does not parse. Otherwise it returns one record per interval, in input order, numbered from 1, with start and end equal to the file start plus the interval's offsets. |
| ClockTime.CalculateInterictalTimes | src/pre-time.py:41-66 | The output has one entry per seizure, keeping its number. The bounds are the seizure's start minus `minute` minutes and its end plus `minute` minutes, rendered as times of day. |
| ClockTime.TimepointToSeconds | src/pre-time.py:68-81 | The call succeeds iff both strings parse. The offset then lies strictly between -86400 and 86400. |
| ClockTime.TimepointOrder | src/pre-time.py:79-81 | The offset is 0 from a time to itself. It is negative iff the time point is earlier, with no day wrap. It changes sign when the two times swap, and offsets add up along a chain of three times. |
| ClockTime.SeizureOffsetRoundTrip | src/pre-time.py:79-81 | A seizure that starts on the file's day keeps its offset: converting its rendered start back with `timepoint_to_seconds` gives the offset again. |
| ClockTime.CalPreTime | src/pre-time.py:83-88 | The call succeeds iff there is at least one seizure. Otherwise `pre_start` is never bound, and the model returns `UnboundLocal` for Python's UnboundLocalError. On success it returns `start - interval*60`, not clamped, and the time of day `interval` minutes before the last seizure's start. |
| Metrics.Lower | main/metrics.py:17 | `lower()` keeps the length and maps every character to its lower case. |
| Metrics.ReplaceChar | main/metrics.py:17 | `replace("-", "_")` keeps the length and replaces exactly the matching characters. |
| Metrics.Normalize | main/metrics.py:16-17 | A normalised name has the same length, no `-` and no upper-case letter. Each `-` becomes `_`, and lower-case letters are kept. |
| Metrics.NormalizeIdempotent | main/metrics.py:16-17 | Normalising twice is the same as normalising once. |
| Metrics.NormalizeAll | main/metrics.py:18 | The selection keeps the requested order and length. Every name in it is already in normal form, so normalising it again changes nothing. |
| Metrics.SelectMetrics | main/metrics.py:18-21 | Only a list that normalises to exactly `['all']` expands to the six names. Any other list, even one holding `all` beside other names, is kept as normalised. |
| Metrics.SelectAllUpperCase | main/metrics.py:51 | The request `['ALL']` of the example call selects all six metrics. |
| Metrics.ConfusionCounts | main/metrics.py:23 | `tn + fp + fn + tp` is the number of label pairs. |
| Metrics.ConfusionMarginals | main/metrics.py:23 | `tp + fn` and `tn + fp` are the counts of 1 and 0 in `y_true`, and `tp + fp` and `tn + fn` are those in `y_pred`. |
| Metrics.ConfusionConcat | main/metrics.py:23 | The counts of two batches of pairs taken together are the sums of their counts. |
| Metrics.Accuracy | main/metrics.py:27 | The unguarded division raises ZeroDivision iff all four counts are 0. Otherwise accuracy is `(tp + tn) / total`, stated as `accuracy * total == tp + tn`. It lies in `[0, 1]`, and it is 1 iff there is no false positive and no false negative. |
| Metrics.BothClassesAccuracy | main/metrics.py:23-27 | Once the unpack has succeeded, both label values occur, so there is at least one pair and accuracy does not divide by zero. |
| Metrics.GuardedRatio | main/metrics.py:29-33 | A guarded ratio lies in `[0, 1]` and is 0 when its denominator is 0. It is 1 iff its numerator is positive and the other count is 0. |
| Metrics.Recall | main/metrics.py:29 | Recall lies in `[0, 1]` and is 0 when `tp + fn` is 0. Otherwise recall times `(tp + fn)` equals `tp`. |
| Metrics.Precision | main/metrics.py:31 | Precision lies in `[0, 1]` and is 0 when `tp + fp` is 0. Otherwise precision times `(tp + fp)` equals `tp`. |
| Metrics.Specificity | main/metrics.py:33 | Specificity lies in `[0, 1]` and is 0 when `tn + fp` is 0. Otherwise specificity times `(tn + fp)` equals `tn`. |
| Metrics.WorkedExampleCounts | main/metrics.py:48-49 | The example labels count `tn=2, fp=2, fn=1, tp=3`. |
| Metrics.WorkedExample | main/metrics.py:47-51 | The example gives accuracy 5/8, recall 3/4, precision 3/5 and specificity 1/2. |
| Metrics.ResultKeysDistinct | main/metrics.py:25-39 | The results hold at most six keys, none twice. |
| Metrics.ResultKeysEmpty | main/metrics.py:25-41 | The results are empty iff no requested name is one of the six. |
| Metrics.ResultKeysIgnoreUnknown | main/metrics.py:25-39 | Requesting a name outside the six adds no key. |
| Metrics.KeysOfRequested | main/metrics.py:25-39 | A result holding a score exactly for each requested, recognised name has the keys of `ResultKeys`, in the fixed insertion order, with AUC and F1 stored as `AUC` and `F1_score`. |
| Metrics.BasicMetric | main/metrics.py:15-45 | Errors come in order. First, label lists of different lengths raise ValueError. Next, the unpack raises ValueError when `y_true` and `y_pred` together hold fewer than two distinct values. Then AUC requested without scores raises ValueError. Last, with no recognised name, `max()` over no key raises. The call succeeds iff none applies. On success, the keys are exactly `ResultKeys` of the selected names, and each requested score is its ratio of the confusion counts, or the given AUC or F1 function's value. |

## Left out

- `eeg_to_mfcc` (`main/dataset.py:10-27`) is a librosa signal-processing call. It is kept as the uninterpreted value `Mfcc(segment)`, so its failure on a zero-channel window is not modelled.
- The random generator of `np.random.choice` is not modelled. The choice is the parameter `draw`: the `j`-th pick is `idx_pos[draw(j) % len(idx_pos)]`, and every outcome of the random choice is the result for some `draw`.
- `roc_auc_score` and `f1_score` are library calls. They are the function parameters `rocAucScore` and `f1Score` of `Metrics.BasicMetric`.
- Metrics.ConfusionCounts: always gives four counts. The 2×2 shape that the unpack at `main/metrics.py:23` needs is checked separately, by `Metrics.BothClasses` in `Metrics.BasicMetric`.
- Labels are bits. With a label value other than 0 and 1, `confusion_matrix` would be larger than 2×2 and the unpack would fail too; the model's label type rules such values out.
- The aligned report printed by `basic_metric` (`main/metrics.py:42-43`) is output only. Only the `max` over the keys, which can raise, is modelled.
- Floating-point rounding is not modelled: the ratios are exact reals.
- Onsets and interval boundaries are integers. The model does not cover fractional seconds, nor the float slice bounds numpy would reject.
- ClockTime.ParseTime: accepts exactly six digits. `strptime`'s leniency, such as one-digit fields and surrounding whitespace rules, is not modelled.
- Calendar dates beyond the day wrap are not modelled, nor `datetime`'s year range, which only an offset of thousands of years would leave.
- Metrics.Lower: lower-cases ASCII letters only. Python's `str.lower` also maps non-ASCII letters.
- For `timepoints[i]` in `RawDataset`, only the info half of the pair is modelled. Unpacking an entry that is not a pair is not modelled.
- The torch `Dataset` base class and numpy array storage are not modelled: only index ranges, lengths and order matter here.
- The interactive command-line loop and the ANSI colour constants of `src/pre-time.py` (lines 8-10 and 90-122) are terminal I/O.
- txt2csv.py is not part of this model. It is a script driven by a file dialog and file reads and writes.
