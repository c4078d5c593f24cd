# Active-learning ranking of image-classifier predictions

This project models the evaluation and prioritization run of
`get_predictions.py`. The run walks an image root in which every
sub-directory is one ground-truth label. For each label directory it does
the following:

- It derives a label name from the directory path: the directory part is
  dropped, the name is lower-cased, and every run of characters outside
  `[a-z0-9]` becomes one space.
- It scores each image the 5% sampler keeps. The classifier's
  label-to-confidence map is scanned once for the two most confident
  labels. Their confidence ratio is taken, and a ranking record
  `[image, top, topConf, second, secondConf, ratio]` is kept.
- It counts the image as a true positive when the top label is the
  directory's label. Otherwise it counts one false negative and one false
  positive.
- It computes the label's F-score from those counters.

After all labels, the run reports micro-F (the image-count-weighted mean of
the F-scores) and macro-F (their plain mean). It then emits the image paths
in the order of one of four active-learning strategies:

1. least top confidence first;
2. closest ratio first;
3. round robin over per-top-label queues;
4. ratio sort, then round robin over per-"top second" label-pair queues.

Modules, one per concern of the program:

- `LabelName` (`label_name.dfy`): the label name of a directory path.
- `Confidence` (`confidence.dfy`) covers:
  - the single-pass top-2 scan, as a method with its four running variables,
    proved equal to a fold;
  - a declarative description of that fold;
  - the ratio and the ranking record.
- `Metrics` (`metrics.dfy`): the F-score, micro-F and macro-F.
- `Sorting` (`sorting.dfy`): the stable ascending sort of strategies 1, 2 and 4.
- `Grouping` (`grouping.dfy`): the insertion-ordered dictionary of queues of
  strategies 3 and 4, built by a loop.
- `Interleaving` (`interleaving.dfy`): the `keep_going` draining loop, as
  methods proved against a recursive function. That function is in turn
  shown to emit round 0, round 1, … of the queues.
- `Prioritization` (`prioritization.dfy`): the four strategies.
- `Driver` (`driver.dfy`): the two nested loops of `main`, as methods proved
  against functions of their inputs, and the meaning of the report.
- `Results` (`results.dfy`): `Option` and `Result`.

The main results:

- `Driver.EvaluationSucceedsIff`: the run reports, rather than stopping at
  an undefined ratio or an empty corpus, exactly when every scored image
  has at least two positive confidences and at least one image was scored.
  See "Undefined ratio" below for the one case where the program itself
  carries on.
- `Driver.EvaluationLines`: each label's printed F-score equals the fraction
  of its images whose top prediction is the label itself. Every miss is
  charged both as a false negative and as a false positive of that same
  label, so precision equals recall.
- `Driver.EvaluationAccuracy`: micro-F is the overall top-1 accuracy, and
  macro-F lies in [0, 1].
- `Driver.EvaluationMacroF`: macro-F is the mean of the labels' accuracies
  over every label directory, so a directory with no scored image still
  counts, with accuracy 0.
- `Driver.EvaluationOrder`: every strategy emits every scored image exactly
  once.

In a few places the code behaves in ways worth stating. The model follows
the code:

- **Second-place ties.** Ties for second place are broken two ways, both
  by the strict comparisons of the scan. An entry that only ties the
  current second does not replace it, so the earlier entry stays
  (`Confidence.SecondTieKeepsEarlier`). When a new top arrives and the old
  top only ties the current second, the old top is not demoted, so the
  later entry stays (`Confidence.SecondTieKeepsLater`).
- **Undefined ratio.** An image without a positive confidence is not
  skipped and gets no "undefined" record. Both running confidences are
  then still the floats `0.0`, and the division
  `top_confidence / second_confidence` raises and stops the whole run
  (`Driver.RunError.UndefinedRatio`). A file that is not `.jpg`/`.jpeg`
  gets an empty prediction list, so it always stops its label
  (`Driver.NonImageStopsLabel`). An image with exactly one positive
  confidence is a different case. Its top confidence is a numpy float32,
  so the program divides it by `0.0`, gets `inf` with a warning and
  carries on. The model stops there as well; see `Confidence.Ratio` under
  "Left out".
- **Strategy 1's print.** Lines 260-261, and lines 266-267 inside strategy
  2's string, put the print at the loop's own indentation. A `for` with no
  indented body is an IndentationError, so Python rejects the whole file
  and `main` does not run as written. The model emits the sorted image
  paths, the evident intent of both.
- **Strategy 4's composite key.** The key is `top + " " + second`. Label
  names contain spaces, so two different label pairs can share one queue
  (`Prioritization.PairKeysCanCollide`). The model keeps that key as
  written.

## Model

| member | source | states |
|---|---|---|
| LabelName.StripDirectory | get_predictions.py:176 | the result is a suffix; the dropped prefix ends in '/' and holds no newline; the result holds no '/' before its first newline; so the cut is at the last '/' before the first newline; a one-line path leaves no '/' |
| LabelName.StripDirectoryMultiline | get_predictions.py:176 | "a/b\nc/d" keeps "b\nc/d": a '/' after the first newline is not a cut point |
| LabelName.LowerChar | get_predictions.py:177 | an ASCII capital becomes the letter 32 code points down, its lower-case form; every other character is unchanged |
| LabelName.Lower | get_predictions.py:177 | lower-casing keeps the length and lower-cases each character on its own, as LowerChar states; the ASCII-only gap is under "Left out" |
| LabelName.Collapse | get_predictions.py:177 | collapsing never lengthens the string; CollapseIsSquash pins it, and CollapseClean, CollapseKeepsWordChars and CollapseFixesClean state its properties |
| LabelName.CollapseIsSquash | get_predictions.py:177 | collapsing equals an independent two-step description: each character outside [a-z0-9] becomes a space where it stands, then every space that directly follows a space is dropped; so each run of separators becomes one space in its place |
| LabelName.SquashRun | get_predictions.py:177 | a space followed by a run of separators squashes to one space followed by what comes after the run |
| LabelName.CollapseSeparatorExample | get_predictions.py:177 | "a-b" becomes "a b": a separator between letters is kept as a space, not deleted |
| LabelName.CollapseClean | get_predictions.py:177 | collapsing leaves only [a-z0-9] and single spaces; it is empty only for an empty input; it starts with a space exactly when the input starts with a character outside [a-z0-9] |
| LabelName.CollapseKeepsWordChars | get_predictions.py:177 | collapsing drops, adds and reorders no letter or digit |
| LabelName.CollapseFixesClean | get_predictions.py:177 | a string of [a-z0-9] and single spaces is left unchanged |
| LabelName.Normalize | get_predictions.py:176-177 | a label name is no longer than its directory path, and it is the stripped path lower-cased, with its separators spaced out and squashed (the description CollapseIsSquash proves equal to collapsing); NormalizeClean, NormalizeIdempotent and NormalizeKeepsWordChars state its properties |
| LabelName.NormalizeClean | get_predictions.py:176-177 | a label name holds only [a-z0-9] and single spaces, and no '/' |
| LabelName.NormalizeIdempotent | get_predictions.py:176-177 | normalizing a label name again gives the same name |
| LabelName.NormalizeKeepsWordChars | get_predictions.py:176-177 | the letters and digits of the lower-cased last path component survive in order |
| LabelName.NormalizeExample | get_predictions.py:176-177 | "a/B-" becomes "b ": the directory goes, letters are lower-cased, a trailing separator run is kept as one space |
| Driver.RStrip | get_predictions.py:191 | rstrip keeps a prefix of the path; RStripTrims states which one |
| Driver.RStripTrims | get_predictions.py:191 | rstrip keeps a prefix that does not end in whitespace and drops only whitespace |
| Driver.Predictions | get_predictions.py:125-126 | a .jpg/.jpeg path gets the classifier's map; any other path gets a list in which the scan finds nothing |
| Driver.Observe | get_predictions.py:180-194 | the image path is a prefix of directory + "/" + file name; a .jpg/.jpeg path carries the classifier's map; any other path has no defined ratio |
| Driver.Observed | get_predictions.py:187-191 | a directory gives no more observations than it has entries; ObservedIsSampled pins them to the sampled entries |
| Driver.Sampled | get_predictions.py:187-189 | the kept entries are exactly the directory's sampled entries |
| Driver.ObservedIsSampled | get_predictions.py:187-191 | the observations are the sampled entries, each observed once, in listing order; unsampled entries are skipped |
| Driver.ObservedFrom | get_predictions.py:187-191 | every scored image comes from a sampled entry of the directory |
| Driver.NonImageStopsLabel | get_predictions.py:194-214 | a sampled entry that is not a .jpg/.jpeg file makes its label fail; when the sampled entries before it all have defined ratios, the error names its path |
| Confidence.Step | get_predictions.py:201-211 | one iteration: the top confidence is a running maximum that ends at least as large as the new entry, the second confidence never drops, second <= top is kept, and the top is either kept or the new entry |
| Confidence.Scan | get_predictions.py:197-211 | after the scan, 0 <= second confidence <= top confidence |
| Confidence.SelectTopTwo | get_predictions.py:197-211 | the loop over the four running variables computes the fold of the scan step |
| Confidence.ScanIndices | get_predictions.py:197-211 | the chosen top is the first-seen maximum, or unset when no confidence is positive; the chosen second is another entry whose confidence bounds every entry but the top |
| Confidence.ScanIsTopTwo | get_predictions.py:197-211 | on a map with distinct keys, the scan's top is the first-seen maximum and its second is a different label whose confidence bounds every other label's |
| Confidence.SecondPositiveIff | get_predictions.py:197-211 | the second confidence is positive exactly when two entries have positive confidence |
| Confidence.SecondTieKeepsLater | get_predictions.py:203-208 | when a new top arrives and the old top only ties the second, the old top is not demoted, so the later tied entry stays second |
| Confidence.SecondTieKeepsEarlier | get_predictions.py:209-211 | an entry that only ties the current second does not replace it, so the earlier tied entry stays second |
| Confidence.Ratio | get_predictions.py:214 | the ratio is defined exactly when the second confidence is non-zero; ratio times second is top; it is at least 1 when 0 < second <= top |
| Confidence.RatioDefinedIff | get_predictions.py:197-214 | an image's ratio is defined exactly when two of its confidences are positive, and is then at least 1 |
| Confidence.MakeRecord | get_predictions.py:214-217 | a record exists exactly when the ratio is defined; it carries the image, the scan's top two and their ratio |
| Driver.CountImage | get_predictions.py:194-228 | one sampled image is scored, recorded and counted as the tally step specifies |
| Driver.ScoreImage | get_predictions.py:214-228 | scoring one image succeeds exactly when its record exists, else fails naming the image; on success it appends the record and counts the image once; a top label equal to the directory's label adds one to tp and leaves fn and fp, any other top label leaves tp and adds one to fn and to fp |
| Driver.Tally | get_predictions.py:182-228 | a successful tally counts every scored image, keeps one record each, has tp + fn = count and fp = fn |
| Driver.TallySucceedsIff | get_predictions.py:187-228 | a label's images are all scored exactly when each has a defined ratio |
| Driver.TallyCounts | get_predictions.py:217-226 | true positives are the images whose top label is the directory's label; record i is the record of image i |
| Driver.TallyFailsAtFirst | get_predictions.py:214 | a failed label stops at the first image whose ratio is undefined and names it |
| Driver.TallyFailurePersists | get_predictions.py:187-229 | once an image fails, the rest of the directory does not change the outcome |
| Driver.ScoreLabel | get_predictions.py:179-229 | the inner loop over the directory listing computes the tally of the sampled, stripped images |
| Driver.ScoreDir | get_predictions.py:174-229 | one iteration of the outer loop computes the label's summary under its normalized name |
| Driver.TotalsOf | get_predictions.py:161-167 | when some image was scored, some label was scored too, so macro-F's divisor is non-zero |
| Driver.TotalsStep | get_predictions.py:174-243 | one label's updates to the running sums give the totals of one more summarized label |
| Driver.Summaries | get_predictions.py:174-243 | a successful outer loop has one summary per label directory; SummariesPointwise and SummariesSucceedIff state its meaning |
| Driver.SummariesFailurePersists | get_predictions.py:174-243 | once a label directory fails, the run fails with the same error |
| Driver.ScoreCorpus | get_predictions.py:158-243 | the outer loop computes the running sums, the record list and the printed lines of all summaries, or the first error |
| Driver.Run | get_predictions.py:158-313 | main computes the outcome: the per-label lines, micro-F, macro-F and the chosen order, or the error that stops it |
| Driver.SummariesSucceedIff | get_predictions.py:174-229 | the outer loop gets through exactly when every scored image of every label has a defined ratio |
| Driver.SummariesPointwise | get_predictions.py:174-243 | a successful outer loop holds each label directory's own summary, in listing order |
| Driver.SummaryTally | get_predictions.py:182-228 | a label's counters: count is its scored images, tp its correct ones, fn = fp = count - tp |
| Driver.SummaryLine | get_predictions.py:232-240 | a label's F-score is the fraction of its images with the label as top prediction |
| Driver.SummaryCounts | get_predictions.py:222-229 | total_images is the number of scored images, and the summed tp the number of correct ones |
| Driver.TallyImages | get_predictions.py:217-219 | a label's records name its scored images in order |
| Driver.SummaryImages | get_predictions.py:219 | all_predictions holds one record per scored image, in scoring order |
| Driver.Evaluation | get_predictions.py:174-313 | a report has one F-score line per label directory, and an error of the outer loop is the run's error; the Evaluation lemmas below state its meaning |
| Driver.Outcome | get_predictions.py:158-313 | a report has one F-score line per directory of the image root |
| Driver.EvaluationSucceedsIff | get_predictions.py:214-246 | the run reports exactly when every scored image has a defined ratio and some image was scored |
| Driver.EvaluationLines | get_predictions.py:232-240 | one line per label directory, in listing order, with the label name and an F-score equal to the label's accuracy |
| Driver.EvaluationAccuracy | get_predictions.py:242-247 | micro-F is correct images over scored images; macro-F is in [0, 1] |
| Driver.FSumIsAccuracySum | get_predictions.py:243 | macrofscores is the sum of the labels' accuracies |
| Driver.EvaluationMacroF | get_predictions.py:243-247 | macro-F is the sum of the labels' accuracies over the number of label directories, empty directories included |
| Driver.EvaluationOrder | get_predictions.py:254-313 | the emitted order is a permutation of the scored images |
| Metrics.HarmonicMeanOfRates | get_predictions.py:236-238 | 2pr/(p+r) equals 2tp / (2tp + fn + fp) |
| Metrics.FScore | get_predictions.py:233-238 | the F-score is in [0, 1]; it is positive exactly when tp > 0; it is then 2tp / (2tp + fn + fp) |
| Metrics.FScoreExample | get_predictions.py:233-238 | tp = 3, fn = 1, fp = 1 gives 0.75 |
| Metrics.FScoreWithEqualMisses | get_predictions.py:222-238 | with fn = fp = count - tp, the F-score is tp / count, and F-score times count is tp |
| Metrics.SumsBounded | get_predictions.py:242-243 | with F-scores in [0, 1], microfscores is between 0 and total_images and macrofscores between 0 and total_labels |
| Metrics.MicroF | get_predictions.py:246 | micro-F is defined exactly when an image was scored; times total_images it gives microfscores; it is in [0, 1] |
| Metrics.MacroF | get_predictions.py:247 | macro-F is defined exactly when there is a label; times total_labels it gives macrofscores; it is in [0, 1] |
| Metrics.MicroMacroExample | get_predictions.py:242-247 | labels (0.8, 8 images) and (0.5, 2 images) give micro-F 0.74 and macro-F 0.65 |
| Metrics.WeightedSumIsTruePositives | get_predictions.py:222-242 | with misses charged equally, microfscores is the total of true positives |
| Metrics.MicroFIsAccuracy | get_predictions.py:222-246 | with misses charged equally, micro-F is total true positives over total images |
| Sorting.InsertSorted | get_predictions.py:259 | inserting into a sorted list keeps it sorted |
| Sorting.InsertPosition | get_predictions.py:259 | an insertion places the record at one position and keeps the others in order |
| Sorting.SortBy | get_predictions.py:259-265 | the sort keeps the length; SortBySorted, SortByPermutes and SortByStable state its meaning |
| Sorting.SortBySorted | get_predictions.py:259-265 | the sort's output is in ascending key order |
| Sorting.SortByPermutes | get_predictions.py:259-265 | the sort's output is a permutation of its input |
| Sorting.SortByPermutesImages | get_predictions.py:259-261 | the sort emits every image exactly once |
| Sorting.SortByStable | get_predictions.py:259-265 | records with equal keys keep their original relative order |
| Sorting.LeastConfidentExample | get_predictions.py:259 | top confidences 0.9, 0.3, 0.6 (in that relation) come out as 0.3, 0.6, 0.9 |
| Grouping.IndexOf | get_predictions.py:276 | the lookup finds the first position of the key, or reports it absent |
| Grouping.Place | get_predictions.py:276-278 | placing an id keeps keys and queues in step |
| Grouping.PlaceKeys | get_predictions.py:276-277 | placing an id keeps the keys distinct; the keys afterwards are the old keys plus the placed key |
| Grouping.PlaceNew | get_predictions.py:276-278 | a new key gets a queue [id] after the existing ones |
| Grouping.PlaceKnown | get_predictions.py:278 | a known key's queue grows at the back and nothing else changes |
| Grouping.PlaceAddsId | get_predictions.py:276-278 | placing an id adds that id, and nothing else, to the contents of the queues |
| Grouping.GroupBy | get_predictions.py:273-278 | the dictionary keeps keys and queues in step; GroupByContents and GroupByPermutation state its meaning |
| Grouping.GroupByContents | get_predictions.py:273-278 | keys come in first-seen order and each queue holds exactly that key's ids, in order |
| Grouping.GroupByPermutation | get_predictions.py:273-278 | the queues hold every id exactly once |
| Grouping.BuildGroups | get_predictions.py:273-278 | the loop builds the dictionary of queues of the items |
| Grouping.GroupByExample | get_predictions.py:273-278 | top labels A, A, B, A, B, C give queues A: 1 2 4, B: 3 5, C: 6 |
| Interleaving.PassShrinks | get_predictions.py:283-289 | a pass pops something exactly when some queue is non-empty, and removes as many ids as it emits |
| Interleaving.HeadsTailsPermutation | get_predictions.py:283-289 | the ids a pass emits plus the ids it leaves are exactly the ids the queues held |
| Interleaving.Pass | get_predictions.py:283-289 | one pass pops the front of every non-empty queue in key order and reports whether it popped |
| Interleaving.Drain | get_predictions.py:281-289 | the keep_going loop emits the interleaving of the queues |
| Interleaving.Interleave | get_predictions.py:281-289 | the interleaving emits as many ids as the queues hold; InterleaveIsRounds and InterleavePermutation state its meaning |
| Interleaving.InterleaveIsRounds | get_predictions.py:281-289 | the interleaving is round 0, then round 1, …, where round k is the k-th id of every queue long enough, in key order |
| Interleaving.InterleavePermutation | get_predictions.py:281-289 | the interleaving emits every queued id exactly once |
| Interleaving.InterleaveExample | get_predictions.py:281-289 | queues 1 2 4 / 3 5 / 6 come out as 1 3 6 2 5 4 |
| Prioritization.TopKeyed | get_predictions.py:274-278 | the queued ids are the records' images, in record order |
| Prioritization.PairKeyed | get_predictions.py:298-302 | the queued ids are the records' images, in record order |
| Prioritization.PairKey | get_predictions.py:299 | no contract of its own: the key is the top label, a space and the second label; PairKeysCanCollide shows what that allows |
| Prioritization.PairKeysCanCollide | get_predictions.py:299 | two different label pairs can share one composite key |
| Prioritization.RoundRobin | get_predictions.py:273-289 | grouping then draining emits the interleaving of the grouped queues, a permutation of the ids |
| Prioritization.Order | get_predictions.py:254-313 | no contract of its own; OrderPermutes says every strategy emits each record's image exactly once, and the sorting strategies' meaning is in SortBySorted, SortByPermutes and SortByStable, the round-robin strategies' in GroupByContents and InterleaveIsRounds |
| Prioritization.OrderPermutes | get_predictions.py:254-313 | every strategy emits each record's image exactly once |
| Prioritization.Prioritize | get_predictions.py:254-313 | the selected strategy's order, a permutation of the records' images |

## Left out

- Command-line flags, checks that the labels file and graph exist, and
  loading the TensorFlow graph and labels are left out. The image root
  listing is an input (`Driver.LabelDir`), in listing order.
- The per-image existence check (`tf.gfile.Exists`, which logs a fatal
  error for a missing file) is left out: every listed entry is taken to
  exist.
- Every entry of the image root is taken to be a directory. The program
  calls `os.listdir` on each entry, which raises on a plain file; the
  model has no such entry.
- The classifier is an input. Each directory entry carries the
  label-to-confidence map `run_graph` would return for it. Which labels
  are in the map (`num_top_predictions`) and how the classifier computes
  the confidences are not modelled.
- `random.random() > 0.05` is an input: each entry carries the sampler's
  decision.
- The `print` calls are left out. The per-label F-score lines, micro-F,
  macro-F and the emitted order are the fields of `Driver.Report`, not
  text.
- Confidence.Ratio: with exactly one positive confidence, the program
  divides a numpy float32 by the float `0.0`. That gives `inf` with a
  warning, and the record keeps ratio `inf`. The model has no infinite
  ratio and treats this case, like the raising no-positive case, as
  `UndefinedRatio`, which stops the run.
- Driver.TallySucceedsIff: requires two positive confidences per image;
  the program carries on with one, with ratio `inf`.
- Driver.EvaluationSucceedsIff: requires two positive confidences per
  scored image; the program carries on with one, with ratio `inf`.
- Confidences are exact reals, not float32 values. Python's float
  division, numpy's `inf`/`nan` on a zero divisor and rounding are not
  modelled. A zero second confidence stops the run, as `Confidence.Ratio`
  above describes.
- LabelName.Lower: lower-cases ASCII letters only. Python's `str.lower`
  also maps some non-ASCII characters (the Kelvin sign, for one) onto
  ASCII letters.
- `running_accuracy` is never read, so it is left out.
- Dictionary iteration order is insertion order: the classifier's map
  comes as a sequence, and the queues' dictionary keeps keys in
  first-seen order.
- When the run stops on an undefined ratio, the program has already
  printed the records and F-scores before it. Only the error is modelled.
- The strategies run one at a time, on the records in scoring order.
  Combining strategy 3 or 4 with a preceding sort from strategy 1 or 2 is
  not modelled as a separate strategy.
- Python's `list.sort` is modelled as a stable insertion sort on sequences,
  not in place. The sort is a library call, so only its result is modelled.
