/** The evaluation run of get_predictions.py's main: for every label
    directory under the image root, score each sampled image, keep the
    label's counters and F-score, then report micro-F and macro-F and emit
    the scored images in the order of the selected strategy. The file system,
    the 5% sampler and the classifier are inputs: each directory entry comes
    with its sampling decision and the label-to-confidence map the
    classifier returns for it. */
module Driver {
  import opened Results
  import opened LabelName
  import opened Confidence
  import opened Metrics
  import opened Sorting
  import opened Grouping
  import opened Prioritization

  /** A directory entry: its file name, whether the sampler kept it, and
      the label-to-confidence map the classifier gives for it. */
  datatype ImageFile = ImageFile(name: string, sampled: bool, scores: ScoreMap)

  /** A sub-directory of the image root: one ground-truth label. */
  datatype LabelDir = LabelDir(name: string, files: seq<ImageFile>)

  /** The two ways the run stops early: a ZeroDivisionError. */
  datatype RunError =
    | UndefinedRatio(image: string)   // top / second with a zero second confidence
    | EmptyCorpus                     // micro-F with no scored image

  // =====================================================================
  // Paths
  // =====================================================================

  /** The characters Python's str.isspace accepts. */
  predicate IsSpace(c: char) {
    var n := c as int;
    || 9 <= n <= 13 || 28 <= n <= 32 || n == 0x85 || n == 0xA0 || n == 0x1680
    || 0x2000 <= n <= 0x200A || n == 0x2028 || n == 0x2029 || n == 0x202F
    || n == 0x205F || n == 0x3000
  }

  /** `str.rstrip()`: drops the trailing whitespace. */
  function RStrip(s: string): (r: string)
    ensures r <= s
  {
    if s != [] && IsSpace(s[|s| - 1]) then RStrip(s[..|s| - 1]) else s
  }

  /** RStrip keeps the longest prefix that does not end in whitespace. */
  lemma {:induction false} RStripTrims(s: string)
    ensures RStrip(s) <= s
    ensures RStrip(s) == [] || !IsSpace(RStrip(s)[|RStrip(s)| - 1])
    ensures forall i :: |RStrip(s)| <= i < |s| ==> IsSpace(s[i])
  {
    if s != [] && IsSpace(s[|s| - 1]) {
      RStripTrims(s[..|s| - 1]);
    }
  }

  predicate EndsWith(s: string, suffix: string) {
    |s| >= |suffix| && s[|s| - |suffix|..] == suffix
  }

  predicate IsImagePath(path: string) {
    EndsWith(path, ".jpg") || EndsWith(path, ".jpeg")
  }

  /** Only .jpg and .jpeg files are sent to the classifier; any other file
      gets an empty prediction list, in which the scan finds nothing. */
  function Predictions(path: string, scores: ScoreMap): (r: ScoreMap)
    ensures IsImagePath(path) ==> r == scores
    ensures !IsImagePath(path) ==> Scan(r) == Unset
  {
    if IsImagePath(path) then scores else []
  }

  // =====================================================================
  // One label directory
  // =====================================================================

  /** A scored image: its stripped path and its predictions. */
  datatype Observation = Observation(image: string, predictions: ScoreMap)

  /** An entry's path is the directory path, a '/' and the file name, with
      trailing whitespace stripped; a path that is not a .jpg or .jpeg file
      has no defined ratio. */
  function Observe(labelDir: string, f: ImageFile): (o: Observation)
    ensures o.image <= labelDir + "/" + f.name
    ensures IsImagePath(o.image) ==> o.predictions == f.scores
    ensures !IsImagePath(o.image) ==> !Defined(o)
  {
    var image := RStrip(labelDir + "/" + f.name);
    RStripTrims(labelDir + "/" + f.name);
    Observation(image, Predictions(image, f.scores))
  }

  /** The sampled entries of a directory, in listing order. */
  function Observed(labelDir: string, files: seq<ImageFile>): (obs: seq<Observation>)
    ensures |obs| <= |files|
  {
    if files == [] then []
    else
      var last := files[|files| - 1];
      Observed(labelDir, files[..|files| - 1]) + (if last.sampled then [Observe(labelDir, last)] else [])
  }

  /** The entries the sampler kept, in listing order. */
  function Sampled(files: seq<ImageFile>): (r: seq<ImageFile>)
    ensures forall f :: f in r ==> f.sampled && f in files
    ensures forall f :: f in files && f.sampled ==> f in r
  {
    if files == [] then []
    else
      var last := files[|files| - 1];
      assert forall f :: f in files <==> f in files[..|files| - 1] || f == last by {
        assert files == files[..|files| - 1] + [last];
      }
      Sampled(files[..|files| - 1]) + (if last.sampled then [last] else [])
  }

  /** The label's ranking records and counters. */
  datatype LabelTally = LabelTally(records: seq<RankingRecord>, tp: nat, fn: nat, fp: nat, count: nat)

  /** Scoring one image: its record, then a true positive when its top label
      is the directory's label, else a false negative and a false positive. */
  function ScoreImage(name: string, t: LabelTally, o: Observation): (r: Result<LabelTally, RunError>)
    ensures r.Success? <==> MakeRecord(o.image, o.predictions).Some?
    ensures r.Failure? ==> r.error == UndefinedRatio(o.image)
    ensures r.Success? ==> && r.value.records == t.records + [MakeRecord(o.image, o.predictions).value]
                           && r.value.count == t.count + 1
    ensures r.Success? && MakeRecord(o.image, o.predictions).value.top == name ==>
              r.value.tp == t.tp + 1 && r.value.fn == t.fn && r.value.fp == t.fp
    ensures r.Success? && MakeRecord(o.image, o.predictions).value.top != name ==>
              r.value.tp == t.tp && r.value.fn == t.fn + 1 && r.value.fp == t.fp + 1
  {
    match MakeRecord(o.image, o.predictions)
    case None => Failure(UndefinedRatio(o.image))
    case Some(r) =>
      var t' := t.(records := t.records + [r], count := t.count + 1);
      if r.top == name then Success(t'.(tp := t.tp + 1))
      else Success(t'.(fn := t.fn + 1, fp := t.fp + 1))
  }

  /** Scores one more image unless the run has already stopped. */
  function TallyNext(name: string, r: Result<LabelTally, RunError>, o: Observation): Result<LabelTally, RunError> {
    if r.Failure? then r else ScoreImage(name, r.value, o)
  }

  /** Scoring the observations in order, stopping at the first failure. */
  function Tally(name: string, obs: seq<Observation>): (r: Result<LabelTally, RunError>)
    ensures r.Success? ==> && r.value.count == |obs| == |r.value.records|
                           && r.value.tp + r.value.fn == r.value.count
                           && r.value.fp == r.value.fn
  {
    if obs == [] then Success(LabelTally([], 0, 0, 0, 0))
    else TallyNext(name, Tally(name, obs[..|obs| - 1]), obs[|obs| - 1])
  }

  ghost predicate Defined(o: Observation) {
    Scan(o.predictions).secondConf > 0.0
  }

  /** How many observations have the label as their top prediction. */
  function Correct(name: string, obs: seq<Observation>): nat {
    if obs == [] then 0
    else Correct(name, obs[..|obs| - 1]) + (if Scan(obs[|obs| - 1].predictions).top == name then 1 else 0)
  }

  lemma TallySnoc(name: string, obs: seq<Observation>, o: Observation)
    ensures Tally(name, obs + [o]) == TallyNext(name, Tally(name, obs), o)
  {
    assert (obs + [o])[..|obs|] == obs;
  }

  /** A label's tally succeeds exactly when every scored image has a
      defined ratio. */
  lemma {:induction false} TallySucceedsIff(name: string, obs: seq<Observation>)
    ensures Tally(name, obs).Success? <==> forall i :: 0 <= i < |obs| ==> Defined(obs[i])
  {
    if obs != [] {
      var n := |obs| - 1;
      TallySucceedsIff(name, obs[..n]);
      assert forall j :: 0 <= j < n ==> obs[j] == obs[..n][j];
    }
  }

  /** A successful tally counts the images whose top label is the
      directory's label as true positives and keeps each image's record,
      in order. */
  lemma {:induction false} TallyCounts(name: string, obs: seq<Observation>)
    requires Tally(name, obs).Success?
    ensures Tally(name, obs).value.tp == Correct(name, obs)
    ensures forall i :: 0 <= i < |obs| ==>
              Some(Tally(name, obs).value.records[i]) == MakeRecord(obs[i].image, obs[i].predictions)
  {
    if obs != [] {
      var n := |obs| - 1;
      var prev := Tally(name, obs[..n]);
      TallyCounts(name, obs[..n]);
      var rs := Tally(name, obs).value.records;
      assert rs == prev.value.records + [MakeRecord(obs[n].image, obs[n].predictions).value];
      forall i | 0 <= i < |obs|
        ensures Some(rs[i]) == MakeRecord(obs[i].image, obs[i].predictions)
      {
        if i < n {
          assert obs[i] == obs[..n][i];
        }
      }
    }
  }

  /** A failed tally reports the first image whose ratio is undefined. */
  lemma {:induction false} TallyFailsAtFirst(name: string, obs: seq<Observation>)
    requires Tally(name, obs).Failure?
    ensures exists i :: && 0 <= i < |obs| && !Defined(obs[i])
                        && (forall j :: 0 <= j < i ==> Defined(obs[j]))
                        && Tally(name, obs).error == UndefinedRatio(obs[i].image)
  {
    var n := |obs| - 1;
    var prev := Tally(name, obs[..n]);
    if prev.Failure? {
      TallyFailsAtFirst(name, obs[..n]);
      var i :| && 0 <= i < n && !Defined(obs[..n][i])
               && (forall j :: 0 <= j < i ==> Defined(obs[..n][j]))
               && prev.error == UndefinedRatio(obs[..n][i].image);
      assert forall j :: 0 <= j <= i ==> obs[j] == obs[..n][j];
    } else {
      TallySucceedsIff(name, obs[..n]);
      assert forall j :: 0 <= j < n ==> obs[j] == obs[..n][j];
      assert !Defined(obs[n]);
    }
  }

  lemma ObservedStep(labelDir: string, files: seq<ImageFile>, i: nat)
    requires i < |files|
    ensures Observed(labelDir, files[..i + 1])
            == Observed(labelDir, files[..i]) + (if files[i].sampled then [Observe(labelDir, files[i])] else [])
  {
    assert files[..i + 1][..i] == files[..i];
  }

  /** An entry the sampler did not keep is not observed. */
  lemma SkipStep(labelDir: string, files: seq<ImageFile>, i: nat)
    requires i < |files| && !files[i].sampled
    ensures Observed(labelDir, files[..i + 1]) == Observed(labelDir, files[..i])
  {
    ObservedStep(labelDir, files, i);
    assert Observed(labelDir, files[..i]) + [] == Observed(labelDir, files[..i]);
  }

  /** Every observation comes from a sampled entry of the directory. */
  lemma {:induction false} ObservedFrom(labelDir: string, files: seq<ImageFile>)
    ensures forall x :: x in Observed(labelDir, files) ==>
              exists j :: 0 <= j < |files| && files[j].sampled && x == Observe(labelDir, files[j])
  {
    if files != [] {
      var n := |files| - 1;
      ObservedFrom(labelDir, files[..n]);
      forall x | x in Observed(labelDir, files)
        ensures exists j :: 0 <= j < |files| && files[j].sampled && x == Observe(labelDir, files[j])
      {
        if x in Observed(labelDir, files[..n]) {
          var j :| 0 <= j < n && files[..n][j].sampled && x == Observe(labelDir, files[..n][j]);
          assert files[j] == files[..n][j];
        } else {
          assert files[n].sampled && x == Observe(labelDir, files[n]);
        }
      }
    }
  }

  /** The observations are exactly the sampled entries, each observed once,
      in listing order; unsampled entries are skipped. */
  lemma {:induction false} ObservedIsSampled(labelDir: string, files: seq<ImageFile>)
    ensures |Observed(labelDir, files)| == |Sampled(files)|
    ensures forall i :: 0 <= i < |Sampled(files)| ==>
              Observed(labelDir, files)[i] == Observe(labelDir, Sampled(files)[i])
  {
    if files != [] {
      var n := |files| - 1;
      ObservedIsSampled(labelDir, files[..n]);
      var obs, ss := Observed(labelDir, files[..n]), Sampled(files[..n]);
      if files[n].sampled {
        assert Observed(labelDir, files) == obs + [Observe(labelDir, files[n])];
        assert Sampled(files) == ss + [files[n]];
      } else {
        assert Observed(labelDir, files) == obs;
        assert Sampled(files) == ss;
      }
    }
  }

  /** A sampled entry that is not a .jpg or .jpeg file stops its label: with
      an empty prediction list the ratio divides by zero. When every sampled
      entry before it has a defined ratio, the error names its path. */
  lemma NonImageStopsLabel(name: string, labelDir: string, files: seq<ImageFile>, i: nat)
    requires i < |files| && files[i].sampled && !IsImagePath(Observe(labelDir, files[i]).image)
    ensures Tally(name, Observed(labelDir, files)).Failure?
    ensures (forall j :: 0 <= j < i && files[j].sampled ==> Defined(Observe(labelDir, files[j])))
            ==> Tally(name, Observed(labelDir, files)) == Failure(UndefinedRatio(Observe(labelDir, files[i]).image))
  {
    var o := Observe(labelDir, files[i]);
    var prefix := Observed(labelDir, files[..i]);
    ObservedStep(labelDir, files, i);
    TallySnoc(name, prefix, o);
    TallyFailurePersists(name, labelDir, files, i + 1);
    if forall j :: 0 <= j < i && files[j].sampled ==> Defined(Observe(labelDir, files[j])) {
      ObservedFrom(labelDir, files[..i]);
      forall k | 0 <= k < |prefix|
        ensures Defined(prefix[k])
      {
        assert prefix[k] in prefix;
        var j :| 0 <= j < i && files[..i][j].sampled && prefix[k] == Observe(labelDir, files[..i][j]);
        assert files[..i][j] == files[j];
      }
      TallySucceedsIff(name, prefix);
    }
  }

  /** Once a prefix of the directory fails, the whole directory fails the
      same way. */
  lemma {:induction false} TallyFailurePersists(name: string, labelDir: string, files: seq<ImageFile>, n: nat)
    requires n <= |files|
    requires Tally(name, Observed(labelDir, files[..n])).Failure?
    ensures Tally(name, Observed(labelDir, files)) == Tally(name, Observed(labelDir, files[..n]))
  {
    if n < |files| {
      var m := |files| - 1;
      assert files[..m][..n] == files[..n];
      TallyFailurePersists(name, labelDir, files[..m], n);
      if files[m].sampled {
        assert Observed(labelDir, files) == Observed(labelDir, files[..m]) + [Observe(labelDir, files[m])];
        TallySnoc(name, Observed(labelDir, files[..m]), Observe(labelDir, files[m]));
      } else {
        assert Observed(labelDir, files) == Observed(labelDir, files[..m]);
      }
    } else {
      assert files[..n] == files;
    }
  }

  /** The body of the inner loop for one sampled image: the top-2 scan,
      the ratio, the record and the counters. */
  method CountImage(name: string, o: Observation, records: seq<RankingRecord>, tp: nat, fn: nat, fp: nat, count: nat)
    returns (res: Result<LabelTally, RunError>)
    ensures res == ScoreImage(name, LabelTally(records, tp, fn, fp, count), o)
  {
    var t := SelectTopTwo(o.predictions);
    var ratio := Ratio(t);
    if ratio.None? {
      return Failure(UndefinedRatio(o.image));
    }
    var records', tp', fn', fp' := records + [RankingRecord(o.image, t.top, t.topConf, t.second, t.secondConf, ratio.value)], tp, fn, fp;
    if t.top == name {
      tp' := tp' + 1;
    } else {
      fn' := fn' + 1;
      fp' := fp' + 1;
    }
    res := Success(LabelTally(records', tp', fn', fp', count + 1));
  }

  /** The inner loop of main over one label directory: every sampled entry
      is stripped, classified, reduced to its top two labels and ratio, and
      counted; an undefined ratio stops the run. */
  method ScoreLabel(name: string, labelDir: string, files: seq<ImageFile>) returns (res: Result<LabelTally, RunError>)
    ensures res == Tally(name, Observed(labelDir, files))
  {
    var count, tp, fn, fp := 0, 0, 0, 0;
    var records: seq<RankingRecord> := [];
    ghost var obs: seq<Observation> := [];
    for i := 0 to |files|
      invariant obs == Observed(labelDir, files[..i])
      invariant Tally(name, obs) == Success(LabelTally(records, tp, fn, fp, count))
    {
      if files[i].sampled {
        var o := Observe(labelDir, files[i]);
        ObservedStep(labelDir, files, i);
        TallySnoc(name, obs, o);
        var next := CountImage(name, o, records, tp, fn, fp, count);
        if next.Failure? {
          TallyFailurePersists(name, labelDir, files, i + 1);
          return next;
        }
        records, tp, fn, fp, count := next.value.records, next.value.tp, next.value.fn, next.value.fp, next.value.count;
        obs := obs + [o];
      } else {
        SkipStep(labelDir, files, i);
      }
    }
    assert files[..|files|] == files;
    res := Success(LabelTally(records, tp, fn, fp, count));
  }

  // =====================================================================
  // The whole run
  // =====================================================================

  function DirPath(root: string, d: LabelDir): string {
    root + "/" + d.name
  }

  /** What the outer loop takes from one label directory: its label name
      and its scored images. */
  datatype LabelInput = LabelInput(name: string, obs: seq<Observation>)

  function InputOf(root: string, d: LabelDir): LabelInput {
    LabelInput(Normalize(DirPath(root, d)), Observed(DirPath(root, d), d.files))
  }

  datatype LabelSummary = LabelSummary(name: string, tally: LabelTally)

  /** One label's summary, or the error that stopped it. */
  function Summary(input: LabelInput): Result<LabelSummary, RunError> {
    var t := Tally(input.name, input.obs);
    if t.Failure? then Failure(t.error) else Success(LabelSummary(input.name, t.value))
  }

  /** Summarizes one more label unless the run has already stopped. */
  function Extend(r: Result<seq<LabelSummary>, RunError>, input: LabelInput): Result<seq<LabelSummary>, RunError> {
    if r.Failure? then r
    else
      var s := Summary(input);
      if s.Failure? then Failure(s.error) else Success(r.value + [s.value])
  }

  /** The inputs of the outer loop, one per label directory. */
  function Inputs(root: string, dirs: seq<LabelDir>): seq<LabelInput> {
    seq(|dirs|, k requires 0 <= k < |dirs| => InputOf(root, dirs[k]))
  }

  /** The outer loop over any sequence of label inputs. */
  function Summaries(ins: seq<LabelInput>): (r: Result<seq<LabelSummary>, RunError>)
    ensures r.Success? ==> |r.value| == |ins|
  {
    if ins == [] then Success([]) else Extend(Summaries(ins[..|ins| - 1]), ins[|ins| - 1])
  }

  /** The body of the outer loop of main for one label directory: the
      label name from the directory path, then the inner loop. */
  method ScoreDir(root: string, d: LabelDir) returns (res: Result<LabelSummary, RunError>)
    ensures res == Summary(InputOf(root, d))
  {
    var labelDir := root + "/" + d.name;
    var name := Normalize(labelDir);
    var tally := ScoreLabel(name, labelDir, d.files);
    if tally.Failure? {
      return Failure(tally.error);
    }
    res := Success(LabelSummary(name, tally.value));
  }

  function LabelScoreOf(s: LabelSummary): LabelScore {
    LabelScore(FScore(s.tally.tp, s.tally.fn, s.tally.fp), s.tally.count)
  }

  function Scores(ss: seq<LabelSummary>): (ls: seq<LabelScore>)
    ensures |ls| == |ss|
  {
    if ss == [] then [] else Scores(ss[..|ss| - 1]) + [LabelScoreOf(ss[|ss| - 1])]
  }

  /** The printed "label f-score" lines. */
  function Lines(ss: seq<LabelSummary>): (lines: seq<(string, real)>)
    ensures |lines| == |ss|
  {
    if ss == [] then [] else Lines(ss[..|ss| - 1]) + [(ss[|ss| - 1].name, LabelScoreOf(ss[|ss| - 1]).fscore)]
  }

  /** `all_predictions`: every label's records, label after label. */
  function AllRecords(ss: seq<LabelSummary>): seq<RankingRecord> {
    if ss == [] then [] else AllRecords(ss[..|ss| - 1]) + ss[|ss| - 1].tally.records
  }

  /** The running variables of main after the outer loop. */
  datatype Totals = Totals(microfscores: real, macrofscores: real, totalImages: nat, totalLabels: nat,
                           allPredictions: seq<RankingRecord>, lines: seq<(string, real)>)

  /** Their values once the labels `ss` have been summarized. */
  function TotalsOf(ss: seq<LabelSummary>): (r: Totals)
    ensures r.totalImages > 0 ==> r.totalLabels > 0
  {
    Totals(WeightedSum(Scores(ss)), FSum(Scores(ss)), TotalCount(Scores(ss)), |ss|, AllRecords(ss), Lines(ss))
  }

  /** What one more label adds to the running variables of main. */
  lemma TotalsStep(ss: seq<LabelSummary>, before: Totals, name: string, t: LabelTally, fscore: real, after: Totals)
    requires before == TotalsOf(ss) && fscore == FScore(t.tp, t.fn, t.fp)
    requires after.microfscores == before.microfscores + fscore * t.count as real
    requires after.macrofscores == before.macrofscores + fscore
    requires after.totalImages == before.totalImages + t.count
    requires after.totalLabels == before.totalLabels + 1
    requires after.allPredictions == before.allPredictions + t.records
    requires after.lines == before.lines + [(name, fscore)]
    ensures TotalsOf(ss + [LabelSummary(name, t)]) == after
  {
    var s := LabelSummary(name, t);
    assert (ss + [s])[..|ss|] == ss;
    var ls, l := Scores(ss), LabelScoreOf(s);
    assert Scores(ss + [s]) == ls + [l];
    assert (ls + [l])[..|ls|] == ls;
  }

  /** What the run reports: the per-label F-scores, micro-F, macro-F and
      the prioritized image paths. */
  datatype Report = Report(labelFScores: seq<(string, real)>, microF: real, macroF: real, order: seq<string>)

  /** The run over the inputs of its label directories. */
  function Outcome(root: string, dirs: seq<LabelDir>, strategy: Strategy): (r: Result<Report, RunError>)
    ensures r.Success? ==> |r.value.labelFScores| == |dirs|
  {
    Evaluation(Inputs(root, dirs), strategy)
  }

  /** What main reports for the given label inputs, or the error that
      stopped it. */
  function Evaluation(ins: seq<LabelInput>, strategy: Strategy): (r: Result<Report, RunError>)
    ensures r.Success? ==> Summaries(ins).Success? && |r.value.labelFScores| == |ins|
    ensures Summaries(ins).Failure? ==> r == Failure(Summaries(ins).error)
  {
    match Summaries(ins)
    case Failure(e) => Failure(e)
    case Success(ss) =>
      var ls := Scores(ss);
      if TotalCount(ls) == 0 then Failure(EmptyCorpus)
      else
        assert ls != [];
        Success(Report(Lines(ss), MicroF(ls).value, MacroF(ls).value, Order(AllRecords(ss), strategy)))
  }

  lemma SummariesStep(ins: seq<LabelInput>, i: nat)
    requires i < |ins|
    ensures Summaries(ins[..i + 1]) == Extend(Summaries(ins[..i]), ins[i])
  {
    assert ins[..i + 1][..i] == ins[..i];
  }

  /** Once stopped, the outer loop stays stopped with the same error. */
  lemma {:induction false} SummariesFailurePersists(ins: seq<LabelInput>, n: nat)
    requires n <= |ins| && Summaries(ins[..n]).Failure?
    ensures Summaries(ins) == Summaries(ins[..n])
    decreases |ins| - n
  {
    if n < |ins| {
      SummariesStep(ins, n);
      SummariesFailurePersists(ins, n + 1);
    } else {
      assert ins[..n] == ins;
    }
  }

  /** The outer loop of main: every label directory in listing order is
      scored and its F-score added to the running sums; the first undefined
      ratio stops the run. */
  method ScoreCorpus(root: string, dirs: seq<LabelDir>) returns (res: Result<Totals, RunError>)
    ensures var r := Summaries(Inputs(root, dirs));
            && (r.Failure? ==> res == Failure(r.error))
            && (r.Success? ==> res == Success(TotalsOf(r.value)))
  {
    var microfscores, macrofscores := 0.0, 0.0;
    var totalImages: nat, totalLabels: nat := 0, 0;
    var allPredictions: seq<RankingRecord> := [];
    var lines: seq<(string, real)> := [];
    ghost var ins := Inputs(root, dirs);
    ghost var ss: seq<LabelSummary> := [];
    for i := 0 to |dirs|
      invariant Summaries(ins[..i]) == Success(ss)
      invariant Totals(microfscores, macrofscores, totalImages, totalLabels, allPredictions, lines) == TotalsOf(ss)
    {
      ghost var before := Totals(microfscores, macrofscores, totalImages, totalLabels, allPredictions, lines);
      totalLabels := totalLabels + 1;
      var summary := ScoreDir(root, dirs[i]);
      SummariesStep(ins, i);
      if summary.Failure? {
        SummariesFailurePersists(ins, i + 1);
        return Failure(summary.error);
      }
      var name, t := summary.value.name, summary.value.tally;
      var fscore := FScore(t.tp, t.fn, t.fp);
      microfscores := microfscores + fscore * t.count as real;
      macrofscores := macrofscores + fscore;
      totalImages := totalImages + t.count;
      allPredictions := allPredictions + t.records;
      lines := lines + [(name, fscore)];
      TotalsStep(ss, before, name, t, fscore,
                 Totals(microfscores, macrofscores, totalImages, totalLabels, allPredictions, lines));
      ss := ss + [LabelSummary(name, t)];
    }
    assert ins[..|dirs|] == ins;
    res := Success(Totals(microfscores, macrofscores, totalImages, totalLabels, allPredictions, lines));
  }

  /** main: the outer loop, then micro-F and macro-F from the running sums
      and the selected prioritization of every scored image. */
  method Run(root: string, dirs: seq<LabelDir>, strategy: Strategy) returns (res: Result<Report, RunError>)
    ensures res == Outcome(root, dirs, strategy)
  {
    var totals := ScoreCorpus(root, dirs);
    if totals.Failure? {
      return Failure(totals.error);
    }
    var t := totals.value;
    if t.totalImages == 0 {
      return Failure(EmptyCorpus);
    }
    var microf := t.microfscores / t.totalImages as real;
    var macrof := t.macrofscores / t.totalLabels as real;
    var order := Prioritize(t.allPredictions, strategy);
    res := Success(Report(t.lines, microf, macrof, order));
  }

  // =====================================================================
  // What the report means
  // =====================================================================

  ghost predicate AllDefined(obs: seq<Observation>) {
    forall i :: 0 <= i < |obs| ==> Defined(obs[i])
  }

  /** The outer loop gets through its inputs exactly when every scored image
      of every label has a defined ratio. */
  lemma {:induction false} SummariesSucceedIff(ins: seq<LabelInput>)
    ensures Summaries(ins).Success? <==> forall k :: 0 <= k < |ins| ==> AllDefined(ins[k].obs)
  {
    if ins != [] {
      var n := |ins| - 1;
      SummariesSucceedIff(ins[..n]);
      TallySucceedsIff(ins[n].name, ins[n].obs);
      assert forall k :: 0 <= k < n ==> ins[..n][k] == ins[k];
    }
  }

  /** `ss` holds the summary of each of `ins`, in order. */
  ghost predicate SummarizedBy(ins: seq<LabelInput>, ss: seq<LabelSummary>) {
    |ss| == |ins| && forall k :: 0 <= k < |ins| ==> Summary(ins[k]) == Success(ss[k])
  }

  /** A successful outer loop holds every label's own summary. */
  lemma {:induction false} SummariesPointwise(ins: seq<LabelInput>)
    requires Summaries(ins).Success?
    ensures SummarizedBy(ins, Summaries(ins).value)
  {
    if ins != [] {
      var n := |ins| - 1;
      var prev := Summaries(ins[..n]);
      assert Summaries(ins) == Extend(prev, ins[n]);
      SummariesPointwise(ins[..n]);
      SummarizedBySnoc(ins, prev.value, Summary(ins[n]).value);
    }
  }

  lemma SummarizedBySnoc(ins: seq<LabelInput>, ss: seq<LabelSummary>, s: LabelSummary)
    requires ins != [] && SummarizedBy(ins[..|ins| - 1], ss)
    requires Summary(ins[|ins| - 1]) == Success(s)
    ensures SummarizedBy(ins, ss + [s])
  {
    var n := |ins| - 1;
    forall k | 0 <= k < |ins|
      ensures Summary(ins[k]) == Success((ss + [s])[k])
    {
      if k < n {
        assert ins[..n][k] == ins[k];
      }
    }
  }

  lemma SummarizedByPrefix(ins: seq<LabelInput>, ss: seq<LabelSummary>)
    requires SummarizedBy(ins, ss) && ins != []
    ensures SummarizedBy(ins[..|ins| - 1], ss[..|ss| - 1])
  {
    var n := |ins| - 1;
    assert forall k :: 0 <= k < n ==> ins[..n][k] == ins[k] && ss[..n][k] == ss[k];
  }

  /** The number of images the run scores. */
  ghost function Scored(ins: seq<LabelInput>): nat {
    if ins == [] then 0 else Scored(ins[..|ins| - 1]) + |ins[|ins| - 1].obs|
  }

  /** How many of them have their own label as top prediction. */
  ghost function CorrectCount(ins: seq<LabelInput>): nat {
    if ins == [] then 0 else CorrectCount(ins[..|ins| - 1]) + Correct(ins[|ins| - 1].name, ins[|ins| - 1].obs)
  }

  function ObservedImages(obs: seq<Observation>): seq<string> {
    seq(|obs|, i requires 0 <= i < |obs| => obs[i].image)
  }

  /** The paths of the scored images, label after label. */
  ghost function ScoredImages(ins: seq<LabelInput>): seq<string> {
    if ins == [] then [] else ScoredImages(ins[..|ins| - 1]) + ObservedImages(ins[|ins| - 1].obs)
  }

  function TruePositives(ss: seq<LabelSummary>): seq<nat> {
    seq(|ss|, k requires 0 <= k < |ss| => ss[k].tally.tp)
  }

  lemma {:induction false} ScoresAt(ss: seq<LabelSummary>)
    ensures |Lines(ss)| == |ss|
    ensures forall k :: 0 <= k < |ss| ==> Scores(ss)[k] == LabelScoreOf(ss[k])
    ensures forall k :: 0 <= k < |ss| ==> Lines(ss)[k] == (ss[k].name, LabelScoreOf(ss[k]).fscore)
  {
    if ss != [] {
      ScoresAt(ss[..|ss| - 1]);
    }
  }

  /** A label's line: its name, and an F-score equal to the fraction of its
      images whose top prediction is the label itself. */
  lemma SummaryLine(input: LabelInput, s: LabelSummary)
    requires Summary(input) == Success(s)
    ensures s.name == input.name
    ensures LabelScoreOf(s).fscore == Accuracy(input)
  {
    SummaryTally(input, s);
    FScoreWithEqualMisses(s.tally.tp, s.tally.count);
  }

  /** The fraction of a label's images whose top prediction is the label
      itself; zero for a label without images. */
  ghost function Accuracy(input: LabelInput): real {
    if |input.obs| == 0 then 0.0 else Correct(input.name, input.obs) as real / |input.obs| as real
  }

  /** A label's summary holds its own tally: every image counted, the
      correct ones as true positives, every miss on both other counters. */
  lemma SummaryTally(input: LabelInput, s: LabelSummary)
    requires Summary(input) == Success(s)
    ensures s.name == input.name && s.tally.count == |input.obs|
    ensures s.tally.tp == Correct(input.name, input.obs)
    ensures s.tally.fn == s.tally.fp == s.tally.count - s.tally.tp
  {
    TallyCounts(input.name, input.obs);
  }

  /** Every summarized label charges each miss once as a false negative and
      once as a false positive. */
  lemma {:induction false} SummariesMissEqually(ins: seq<LabelInput>, ss: seq<LabelSummary>)
    requires SummarizedBy(ins, ss)
    ensures ScoredWithEqualMisses(Scores(ss), TruePositives(ss))
  {
    var ls, tps := Scores(ss), TruePositives(ss);
    assert |tps| == |ls| == |ss|;
    forall k | 0 <= k < |ls|
      ensures tps[k] <= ls[k].count
    {
      MissesEquallyAt(ins, ss, k);
    }
    forall k | 0 <= k < |ls|
      ensures ls[k].fscore == FScore(tps[k], ls[k].count - tps[k], ls[k].count - tps[k])
    {
      MissesEquallyAt(ins, ss, k);
    }
  }

  lemma {:induction false} MissesEquallyAt(ins: seq<LabelInput>, ss: seq<LabelSummary>, k: nat)
    requires k < |ins| && k < |ss| && Summary(ins[k]) == Success(ss[k])
    ensures var l, tp := Scores(ss)[k], TruePositives(ss)[k];
            tp <= l.count && l.fscore == FScore(tp, l.count - tp, l.count - tp)
  {
    ScoreAt(ss, k);
    SummaryTally(ins[k], ss[k]);
    var t := ss[k].tally;
    SameFScore(t.tp, t.fn, t.fp, t.tp, t.count - t.tp, t.count - t.tp);
  }

  lemma ScoreAt(ss: seq<LabelSummary>, k: nat)
    requires k < |ss|
    ensures Scores(ss)[k] == LabelScoreOf(ss[k])
  {
    ScoresAt(ss);
  }

  /** A solver hint, proved without a body: FScore of equal arguments. */
  lemma SameFScore(tp: nat, fn: nat, fp: nat, tp': nat, fn': nat, fp': nat)
    requires tp == tp' && fn == fn' && fp == fp'
    ensures FScore(tp, fn, fp) == FScore(tp', fn', fp')
  {
  }

  /** The image count of the summaries is the number of scored images, and
      their true positives are the images whose top label is their own
      label. */
  lemma {:induction false} SummaryCounts(ins: seq<LabelInput>, ss: seq<LabelSummary>)
    requires SummarizedBy(ins, ss)
    ensures TotalCount(Scores(ss)) == Scored(ins)
    ensures SumNat(TruePositives(ss)) == CorrectCount(ins)
  {
    SummaryTotal(ins, ss);
    SummaryCorrect(ins, ss);
  }

  lemma {:induction false} SummaryTotal(ins: seq<LabelInput>, ss: seq<LabelSummary>)
    requires SummarizedBy(ins, ss)
    ensures TotalCount(Scores(ss)) == Scored(ins)
  {
    if ins != [] {
      var n := |ins| - 1;
      SummarizedByPrefix(ins, ss);
      SummaryTotal(ins[..n], ss[..n]);
      SummaryTally(ins[n], ss[n]);
      var ls := Scores(ss[..n]);
      assert (ls + [LabelScoreOf(ss[n])])[..n] == ls;
    }
  }

  lemma {:induction false} SummaryCorrect(ins: seq<LabelInput>, ss: seq<LabelSummary>)
    requires SummarizedBy(ins, ss)
    ensures SumNat(TruePositives(ss)) == CorrectCount(ins)
  {
    if ins != [] {
      var n := |ins| - 1;
      SummarizedByPrefix(ins, ss);
      SummaryCorrect(ins[..n], ss[..n]);
      SummaryTally(ins[n], ss[n]);
      assert TruePositives(ss)[..n] == TruePositives(ss[..n]);
    }
  }

  /** A label's records name its scored images, in order. */
  lemma TallyImages(name: string, obs: seq<Observation>)
    requires Tally(name, obs).Success?
    ensures Images(Tally(name, obs).value.records) == ObservedImages(obs)
  {
    TallyCounts(name, obs);
  }

  /** `all_predictions` holds one record per scored image, in scoring order. */
  lemma {:induction false} SummaryImages(ins: seq<LabelInput>, ss: seq<LabelSummary>)
    requires SummarizedBy(ins, ss)
    ensures Images(AllRecords(ss)) == ScoredImages(ins)
  {
    if ins != [] {
      var n := |ins| - 1;
      SummarizedByPrefix(ins, ss);
      SummaryImages(ins[..n], ss[..n]);
      assert Summary(ins[n]) == Success(ss[n]);
      TallyImages(ins[n].name, ins[n].obs);
      ImagesAppend(AllRecords(ss[..n]), ss[n].tally.records);
    }
  }

  /** The run reports rather than stops exactly when every scored image has
      a defined ratio and at least one image was scored. */
  lemma {:induction false} EvaluationSucceedsIff(ins: seq<LabelInput>, strategy: Strategy)
    ensures Evaluation(ins, strategy).Success?
            <==> (forall k :: 0 <= k < |ins| ==> AllDefined(ins[k].obs)) && Scored(ins) > 0
  {
    SummariesSucceedIff(ins);
    if Summaries(ins).Success? {
      SummariesPointwise(ins);
      SummaryCounts(ins, Summaries(ins).value);
    }
  }

  /** A report has one line per label directory, in listing order, with the
      label name and an F-score equal to the label's accuracy: the fraction
      of its images whose top prediction is the label itself. */
  lemma EvaluationLines(ins: seq<LabelInput>, strategy: Strategy)
    requires Evaluation(ins, strategy).Success?
    ensures var lines := Evaluation(ins, strategy).value.labelFScores;
            && |lines| == |ins|
            && forall k :: 0 <= k < |ins| ==>
                 && lines[k].0 == ins[k].name
                 && lines[k].1 == Accuracy(ins[k])
  {
    SummariesPointwise(ins);
    var ss := Summaries(ins).value;
    assert Evaluation(ins, strategy).value.labelFScores == Lines(ss);
    forall k | 0 <= k < |ins|
      ensures Lines(ss)[k].0 == ins[k].name
      ensures Lines(ss)[k].1 == Accuracy(ins[k])
    {
      LineAt(ins, ss, k);
    }
  }

  lemma {:induction false} LineAt(ins: seq<LabelInput>, ss: seq<LabelSummary>, k: nat)
    requires k < |ins| && k < |ss| && Summary(ins[k]) == Success(ss[k])
    ensures |Lines(ss)| == |ss|
    ensures Lines(ss)[k].0 == ins[k].name
    ensures Lines(ss)[k].1 == Accuracy(ins[k])
  {
    LinesAt(ss, k);
    SummaryLine(ins[k], ss[k]);
  }

  lemma LinesAt(ss: seq<LabelSummary>, k: nat)
    requires k < |ss|
    ensures |Lines(ss)| == |ss|
    ensures Lines(ss)[k] == (ss[k].name, LabelScoreOf(ss[k]).fscore)
  {
    ScoresAt(ss);
  }

  /** The sum of the labels' accuracies. */
  ghost function AccuracySum(ins: seq<LabelInput>): real {
    if ins == [] then 0.0 else AccuracySum(ins[..|ins| - 1]) + Accuracy(ins[|ins| - 1])
  }

  /** `macrofscores` is the sum of the labels' accuracies. */
  lemma {:induction false} FSumIsAccuracySum(ins: seq<LabelInput>, ss: seq<LabelSummary>)
    requires SummarizedBy(ins, ss)
    ensures FSum(Scores(ss)) == AccuracySum(ins)
  {
    if ins != [] {
      var n := |ins| - 1;
      SummarizedByPrefix(ins, ss);
      FSumIsAccuracySum(ins[..n], ss[..n]);
      SummaryLine(ins[n], ss[n]);
      var ls := Scores(ss[..n]);
      assert (ls + [LabelScoreOf(ss[n])])[..n] == ls;
    }
  }

  /** Macro-F is the mean of the labels' accuracies over every label
      directory, those without a scored image included. */
  lemma {:induction false} EvaluationMacroF(ins: seq<LabelInput>, strategy: Strategy)
    requires Evaluation(ins, strategy).Success?
    ensures |ins| > 0 && Evaluation(ins, strategy).value.macroF == AccuracySum(ins) / |ins| as real
  {
    SummariesPointwise(ins);
    var ss := Summaries(ins).value;
    FSumIsAccuracySum(ins, ss);
    var ls := Scores(ss);
    assert Evaluation(ins, strategy).value.macroF == FSum(ls) / |ls| as real;
  }

  /** Micro-F is the overall accuracy of the top prediction, and macro-F a
      mean of F-scores in [0, 1]. */
  lemma {:induction false} EvaluationAccuracy(ins: seq<LabelInput>, strategy: Strategy)
    requires Evaluation(ins, strategy).Success?
    ensures var report := Evaluation(ins, strategy).value;
            && Scored(ins) > 0
            && report.microF == CorrectCount(ins) as real / Scored(ins) as real
            && 0.0 <= report.macroF <= 1.0
  {
    SummariesPointwise(ins);
    var ss := Summaries(ins).value;
    SummariesMissEqually(ins, ss);
    SummaryCounts(ins, ss);
    MicroFIsAccuracy(Scores(ss), TruePositives(ss));
    ScoresAt(ss);
    assert ScoresInRange(Scores(ss));
  }

  /** Whatever the strategy, the emitted order lists every scored image
      exactly once. */
  lemma {:induction false} EvaluationOrder(ins: seq<LabelInput>, strategy: Strategy)
    requires Evaluation(ins, strategy).Success?
    ensures multiset(Evaluation(ins, strategy).value.order) == multiset(ScoredImages(ins))
  {
    SummariesPointwise(ins);
    SummaryImages(ins, Summaries(ins).value);
    OrderPermutes(AllRecords(Summaries(ins).value), strategy);
  }
}
