/** The per-job logic of the worker: routing a plot job by its `type` and a
    method job by its `iterations`, naming the output objects after the
    `job_id`, building success responses, and turning a raised exception
    into an error response. What the storage, the analysis launchers and the
    R plotters do is an input (`Effects`). */
module Handlers {
  import opened Values

  /** An exception raised while a job is handled. `Known` stands for the
      seven exception classes the worker catches first (reading a file,
      parsing meta or counts, a threshold value, all counts filtered, an
      empty result, a plot); `id` is the exception's `str()`, and
      `description` and `hint` are its optional attributes (`None` when the
      attribute is absent or `None`). `Unknown` is any other exception. */
  datatype Raised =
    | Known(id: string, description: Option<string>, hint: Option<string>)
    | Unknown

  /** What one external step does: complete, or raise. */
  datatype Step = Done | Raises(error: Raised)

  /** What the collaborators outside this model do while one job is handled.
      `readMeta`, `readCounts`: reading the meta and counts tables from
      storage (method jobs); `subsampler`: coercing the subsampling
      parameters and building the subsampler (method jobs that subsample);
      `staging`: copying the plot inputs from storage into temporary files
      (plot jobs); `compute`: the analysis launcher or the R plotter,
      including the numeric coercion of their parameters; `produced`: the
      names of the files the plotter wrote; `upload`: writing the outputs to
      storage. */
  datatype Effects = Effects(
    readMeta: Step,
    readCounts: Step,
    subsampler: Step,
    staging: Step,
    compute: Step,
    produced: set<string>,
    upload: Step)

  /** A response published on the result queue. A success names its output
      objects in storage; a failure carries an error id and a message. */
  datatype Response =
    | Success(jobId: Json, files: map<string, string>)
    | Failure(jobId: Json, errorId: string, message: string)

  /** What a handler does: return a response, or raise. */
  datatype Outcome = Returned(response: Response) | Threw(error: Raised)

  /** The exception the plot handlers raise when the plotter wrote no output.
      Its class is not part of this model: it is taken to render as the
      message it is given, with no description and no hint. */
  function PlotException(message: string): Raised {
    Known(message, None, None)
  }

  const MissingPlotMessage := "Could not generate output file for plot of type dot_plot"

  // ---------------------------------------------------------------------
  // Storage keys

  const PngSuffix := ".png"
  const TxtSuffix := ".txt"
  const DotPlotPrefix := "plot__"
  const CountPlotPrefix := "plot_count__"
  const CountLogPlotPrefix := "plot_count_log__"
  const PvaluesPrefix := "pvalues_simple_"
  const MeansPrefix := "means_simple_"
  const SignificantMeansSimplePrefix := "significant_means_simple_"
  const SignificantMeansPrefix := "significant_means_"
  const DeconvolutedPrefix := "deconvoluted_simple_"

  /** The storage key `<prefix><job_id><suffix>`, as `'...{}...'.format(job_id)` writes it. */
  function OutputKey(prefix: string, jobId: Json, suffix: string): string {
    prefix + PyStr(jobId) + suffix
  }

  /** The job id rendering inside a storage key of the given shape, if the key has that shape. */
  function KeyJobId(prefix: string, suffix: string, key: string): Option<string> {
    if |prefix| + |suffix| <= |key| && key[..|prefix|] == prefix && key[|key| - |suffix|..] == suffix
    then Some(key[|prefix|..|key| - |suffix|])
    else None
  }

  /** Reading the job id back out of a storage key gives the `str()` of the
      job id it was named after. */
  lemma KeyRoundTrip(prefix: string, jobId: Json, suffix: string)
    ensures KeyJobId(prefix, suffix, OutputKey(prefix, jobId, suffix)) == Some(PyStr(jobId))
  {
  }

  /** Conversely, a key from which a job id can be read is the key named
      after it. */
  lemma KeyJobIdNamesKey(prefix: string, suffix: string, key: string, id: string)
    requires KeyJobId(prefix, suffix, key) == Some(id)
    ensures key == prefix + id + suffix
  {
  }

  /** Jobs whose ids render differently write to different storage keys. */
  lemma OutputKeyInjective(prefix: string, a: Json, b: Json, suffix: string)
    requires OutputKey(prefix, a, suffix) == OutputKey(prefix, b, suffix)
    ensures PyStr(a) == PyStr(b)
  {
    KeyRoundTrip(prefix, a, suffix);
    KeyRoundTrip(prefix, b, suffix);
  }

  /** The objects a statistical analysis writes. */
  function StatisticalFiles(jobId: Json): map<string, string> {
    map["pvalues" := OutputKey(PvaluesPrefix, jobId, TxtSuffix),
        "means" := OutputKey(MeansPrefix, jobId, TxtSuffix),
        "significant_means" := OutputKey(SignificantMeansSimplePrefix, jobId, TxtSuffix),
        "deconvoluted" := OutputKey(DeconvolutedPrefix, jobId, TxtSuffix)]
  }

  /** The objects a non-statistical analysis writes: no p-values, and the
      significant means without `_simple`. */
  function NonStatisticalFiles(jobId: Json): map<string, string> {
    map["means" := OutputKey(MeansPrefix, jobId, TxtSuffix),
        "significant_means" := OutputKey(SignificantMeansPrefix, jobId, TxtSuffix),
        "deconvoluted" := OutputKey(DeconvolutedPrefix, jobId, TxtSuffix)]
  }

  /** Within one response, distinct outputs go to distinct storage keys, so
      no upload overwrites another. */
  lemma OutputKeysDistinct(jobId: Json)
    ensures var f := StatisticalFiles(jobId);
      forall a, b :: a in f && b in f && a != b ==> f[a] != f[b]
    ensures var f := NonStatisticalFiles(jobId);
      forall a, b :: a in f && b in f && a != b ==> f[a] != f[b]
    ensures OutputKey(CountPlotPrefix, jobId, PngSuffix) != OutputKey(CountLogPlotPrefix, jobId, PngSuffix)
  {
  }

  // ---------------------------------------------------------------------
  // Plot jobs

  /** `os.path.splitext(key)`, which names the suffix of a temporary file,
      accepts a string only: a key that is absent (`None`) or not a string
      raises a TypeError, which is none of the known exceptions. */
  predicate SplittablePath(key: Json) {
    key.JStr?
  }

  /** A dot plot: split the suffixes of the means and p-values keys, stage
      the inputs, run the plotter, check that it wrote
      `plot__<job_id>.png`, upload it, and answer with its key. */
  function DotPlotResults(jobId: Json, means: Json, pvalues: Json, effects: Effects): (o: Outcome)
    ensures o.Returned? <==>
      SplittablePath(means) && SplittablePath(pvalues) &&
      effects.staging.Done? && effects.compute.Done? &&
      OutputKey(DotPlotPrefix, jobId, PngSuffix) in effects.produced && effects.upload.Done?
    ensures o.Returned? ==>
      o.response == Success(jobId, map["plot" := OutputKey(DotPlotPrefix, jobId, PngSuffix)])
    ensures !SplittablePath(means) || !SplittablePath(pvalues) ==> o == Threw(Unknown)
    ensures (SplittablePath(means) && SplittablePath(pvalues) &&
             effects.staging.Done? && effects.compute.Done? &&
             OutputKey(DotPlotPrefix, jobId, PngSuffix) !in effects.produced) ==>
      o == Threw(PlotException(MissingPlotMessage))
  {
    var outputName := OutputKey(DotPlotPrefix, jobId, PngSuffix);
    if !SplittablePath(means) || !SplittablePath(pvalues) then Threw(Unknown)
    else if effects.staging.Raises? then Threw(effects.staging.error)
    else if effects.compute.Raises? then Threw(effects.compute.error)
    else if outputName !in effects.produced then Threw(PlotException(MissingPlotMessage))
    else if effects.upload.Raises? then Threw(effects.upload.error)
    else Returned(Success(jobId, map["plot" := outputName]))
  }

  /** The heatmaps: split the suffix of the p-values key, stage the inputs,
      run the plotter; both `plot_count__<job_id>.png` and
      `plot_count_log__<job_id>.png` must have been written. The message of
      the exception raised otherwise names the dot plot, as written. */
  function HeatmapsPlotResults(jobId: Json, pvalues: Json, effects: Effects): (o: Outcome)
    ensures o.Returned? <==>
      SplittablePath(pvalues) && effects.staging.Done? && effects.compute.Done? &&
      OutputKey(CountPlotPrefix, jobId, PngSuffix) in effects.produced &&
      OutputKey(CountLogPlotPrefix, jobId, PngSuffix) in effects.produced && effects.upload.Done?
    ensures o.Returned? ==>
      o.response == Success(jobId, map["count_plot" := OutputKey(CountPlotPrefix, jobId, PngSuffix),
                                       "count_log_plot" := OutputKey(CountLogPlotPrefix, jobId, PngSuffix)])
    ensures !SplittablePath(pvalues) ==> o == Threw(Unknown)
    ensures (SplittablePath(pvalues) && effects.staging.Done? && effects.compute.Done? &&
             (OutputKey(CountPlotPrefix, jobId, PngSuffix) !in effects.produced ||
              OutputKey(CountLogPlotPrefix, jobId, PngSuffix) !in effects.produced)) ==>
      o == Threw(PlotException(MissingPlotMessage))
  {
    var countName := OutputKey(CountPlotPrefix, jobId, PngSuffix);
    var countLogName := OutputKey(CountLogPlotPrefix, jobId, PngSuffix);
    if !SplittablePath(pvalues) then Threw(Unknown)
    else if effects.staging.Raises? then Threw(effects.staging.error)
    else if effects.compute.Raises? then Threw(effects.compute.error)
    else if countName !in effects.produced || countLogName !in effects.produced then
      Threw(PlotException(MissingPlotMessage))
    else if effects.upload.Raises? then Threw(effects.upload.error)
    else Returned(Success(jobId, map["count_plot" := countName, "count_log_plot" := countLogName]))
  }

  /** The first failing step decides what a plot raises: the suffix split,
      then staging, then the plotter, then the check for the written
      plots, then the upload. */
  lemma PlotFirstError(jobId: Json, means: Json, pvalues: Json, effects: Effects)
    ensures var o := DotPlotResults(jobId, means, pvalues, effects);
      var ready := SplittablePath(means) && SplittablePath(pvalues);
      (ready && effects.staging.Raises? ==> o == Threw(effects.staging.error)) &&
      (ready && effects.staging.Done? && effects.compute.Raises? ==> o == Threw(effects.compute.error)) &&
      ((ready && effects.staging.Done? && effects.compute.Done? &&
        OutputKey(DotPlotPrefix, jobId, PngSuffix) in effects.produced &&
        effects.upload.Raises?) ==> o == Threw(effects.upload.error))
    ensures var o := HeatmapsPlotResults(jobId, pvalues, effects);
      var ready := SplittablePath(pvalues);
      (ready && effects.staging.Raises? ==> o == Threw(effects.staging.error)) &&
      (ready && effects.staging.Done? && effects.compute.Raises? ==> o == Threw(effects.compute.error)) &&
      ((ready && effects.staging.Done? && effects.compute.Done? &&
        OutputKey(CountPlotPrefix, jobId, PngSuffix) in effects.produced &&
        OutputKey(CountLogPlotPrefix, jobId, PngSuffix) in effects.produced &&
        effects.upload.Raises?) ==> o == Threw(effects.upload.error))
  {
  }

  const UnknownPlotTypePrefix := "Given plot type does not exist: "

  /** A plot job: read `job_id`, then route on `type`. */
  function ProcessPlot(fields: map<string, Json>, effects: Effects): (o: Outcome)
    ensures "job_id" !in fields ==> o == Threw(Unknown)
    ensures o.Returned? ==> "job_id" in fields && o.response.jobId == fields["job_id"]
  {
    if "job_id" !in fields then Threw(Unknown)
    else
      var jobId := fields["job_id"];
      var plotType := Get(fields, "type", JNull);
      if plotType == JStr("dot_plot") then
        DotPlotResults(jobId, Get(fields, "file_means", JNull), Get(fields, "file_pvalues", JNull), effects)
      else if plotType == JStr("heatmaps_plot") then
        HeatmapsPlotResults(jobId, Get(fields, "file_pvalues", JNull), effects)
      else Returned(Failure(jobId, "UnknownPlotType", UnknownPlotTypePrefix + PyStr(plotType)))
  }

  /** The plot routing: `dot_plot` and `heatmaps_plot` go to their handlers;
      any other `type`, or none, is answered with an `UnknownPlotType`
      failure whose message ends with the given type. Conversely, a plot job
      is answered with a failure only in that case. */
  lemma PlotRouting(fields: map<string, Json>, effects: Effects)
    requires "job_id" in fields
    ensures var o := ProcessPlot(fields, effects);
      var jobId := fields["job_id"];
      var plotType := Get(fields, "type", JNull);
      var pvalues := Get(fields, "file_pvalues", JNull);
      (plotType == JStr("dot_plot") ==> o == DotPlotResults(jobId, Get(fields, "file_means", JNull), pvalues, effects)) &&
      (plotType == JStr("heatmaps_plot") ==> o == HeatmapsPlotResults(jobId, pvalues, effects)) &&
      ((o.Returned? && o.response.Failure?) <==>
         plotType != JStr("dot_plot") && plotType != JStr("heatmaps_plot")) &&
      (o.Returned? && o.response.Failure? ==>
         o.response.errorId == "UnknownPlotType" &&
         |PyStr(plotType)| <= |o.response.message| &&
         o.response.message[|o.response.message| - |PyStr(plotType)|..] == PyStr(plotType))
  {
  }

  // ---------------------------------------------------------------------
  // Method jobs

  /** The statistical analysis: launch it, then upload its four tables. */
  function StatisticalAnalysis(jobId: Json, fields: map<string, Json>, effects: Effects): (o: Outcome)
    ensures o.Returned? ==> o.response == Success(jobId, StatisticalFiles(jobId))
    ensures o.Returned? <==>
      "threshold" in fields && "result_precision" in fields && effects.compute.Done? && effects.upload.Done?
  {
    if "threshold" !in fields || "result_precision" !in fields then Threw(Unknown)
    else if effects.compute.Raises? then Threw(effects.compute.error)
    else if effects.upload.Raises? then Threw(effects.upload.error)
    else Returned(Success(jobId, StatisticalFiles(jobId)))
  }

  /** The non-statistical analysis: launch it, then upload its three tables. */
  function NonStatisticalAnalysis(jobId: Json, fields: map<string, Json>, effects: Effects): (o: Outcome)
    ensures o.Returned? ==> o.response == Success(jobId, NonStatisticalFiles(jobId))
    ensures o.Returned? <==>
      "threshold" in fields && "result_precision" in fields && effects.compute.Done? && effects.upload.Done?
  {
    if "threshold" !in fields || "result_precision" !in fields then Threw(Unknown)
    else if effects.compute.Raises? then Threw(effects.compute.error)
    else if effects.upload.Raises? then Threw(effects.upload.error)
    else Returned(Success(jobId, NonStatisticalFiles(jobId)))
  }

  /** What an analysis raises: a KeyError when `threshold` or
      `result_precision` is missing, otherwise the launch's exception, and
      then the upload's. */
  lemma AnalysisFirstError(jobId: Json, fields: map<string, Json>, effects: Effects)
    ensures var present := "threshold" in fields && "result_precision" in fields;
      var error := if !present then Threw(Unknown)
                   else if effects.compute.Raises? then Threw(effects.compute.error)
                   else if effects.upload.Raises? then Threw(effects.upload.error)
                   else Threw(Unknown);
      (!present || effects.compute.Raises? || effects.upload.Raises?) ==>
        StatisticalAnalysis(jobId, fields, effects) == error &&
        NonStatisticalAnalysis(jobId, fields, effects) == error
  {
  }

  /** Subsampling is asked for when `subsampling` is present and truthy. */
  predicate Subsamples(fields: map<string, Json>) {
    Truthy(Get(fields, "subsampling", JBool(false)))
  }

  /** A method job has its `job_id`, and its meta and counts tables have
      been read. */
  predicate TablesRead(fields: map<string, Json>, effects: Effects) {
    "job_id" in fields && "file_meta" in fields && effects.readMeta.Done? &&
    "file_counts" in fields && effects.readCounts.Done?
  }

  /** A method job: read `job_id`, read the meta and counts tables, build
      the subsampler if asked for, then route on `iterations`. A missing
      field is a KeyError, which is none of the known exceptions. */
  function ProcessMethod(fields: map<string, Json>, effects: Effects): (o: Outcome)
    ensures "job_id" !in fields ==> o == Threw(Unknown)
    ensures o.Returned? ==> "job_id" in fields && o.response.Success? && o.response.jobId == fields["job_id"]
  {
    if "job_id" !in fields then Threw(Unknown)
    else
      var jobId := fields["job_id"];
      if "file_meta" !in fields then Threw(Unknown)
      else if effects.readMeta.Raises? then Threw(effects.readMeta.error)
      else if "file_counts" !in fields then Threw(Unknown)
      else if effects.readCounts.Raises? then Threw(effects.readCounts.error)
      else if Subsamples(fields) && ("log" !in fields || "num_pc" !in fields) then Threw(Unknown)
      else if Subsamples(fields) && effects.subsampler.Raises? then Threw(effects.subsampler.error)
      else if "iterations" !in fields then Threw(Unknown)
      else if Truthy(fields["iterations"]) then StatisticalAnalysis(jobId, fields, effects)
      else NonStatisticalAnalysis(jobId, fields, effects)
  }

  /** The first missing field or failing step decides what a method job
      raises: fields and steps are taken in the order `file_meta`, reading
      the meta table, `file_counts`, reading the counts table, `log` and
      `num_pc` and the subsampler when subsampling, then `iterations`. A
      missing field is a KeyError, none of the known exceptions; a failing
      step raises its own exception. */
  lemma MethodFirstError(fields: map<string, Json>, effects: Effects)
    requires "job_id" in fields
    ensures "file_meta" !in fields ==> ProcessMethod(fields, effects) == Threw(Unknown)
    ensures "file_meta" in fields && effects.readMeta.Raises? ==>
      ProcessMethod(fields, effects) == Threw(effects.readMeta.error)
    ensures "file_meta" in fields && effects.readMeta.Done? && "file_counts" !in fields ==>
      ProcessMethod(fields, effects) == Threw(Unknown)
    ensures ("file_meta" in fields && effects.readMeta.Done? && "file_counts" in fields &&
      effects.readCounts.Raises?) ==> ProcessMethod(fields, effects) == Threw(effects.readCounts.error)
    ensures TablesRead(fields, effects) && Subsamples(fields) && ("log" !in fields || "num_pc" !in fields) ==>
      ProcessMethod(fields, effects) == Threw(Unknown)
    ensures (TablesRead(fields, effects) && Subsamples(fields) && "log" in fields && "num_pc" in fields &&
      effects.subsampler.Raises?) ==> ProcessMethod(fields, effects) == Threw(effects.subsampler.error)
    ensures (TablesRead(fields, effects) &&
             (Subsamples(fields) ==> "log" in fields && "num_pc" in fields && effects.subsampler.Done?)) ==>
      ProcessMethod(fields, effects) ==
        (if "iterations" !in fields then Threw(Unknown)
         else if Truthy(fields["iterations"]) then StatisticalAnalysis(fields["job_id"], fields, effects)
         else NonStatisticalAnalysis(fields["job_id"], fields, effects))
  {
  }

  /** The method routing: a truthy `iterations` selects the statistical
      analysis and its four outputs, including the p-values; a zero, false
      or empty one selects the non-statistical analysis and its three
      outputs. A method job that completes names the p-values exactly when
      its `iterations` is truthy. It completes exactly when every field it
      reads is present and every step completes; a missing field is a
      KeyError. */
  lemma MethodRouting(fields: map<string, Json>, effects: Effects)
    requires "job_id" in fields
    ensures var o := ProcessMethod(fields, effects);
      o.Returned? ==>
        "iterations" in fields &&
        o.response.files == (if Truthy(fields["iterations"]) then StatisticalFiles(fields["job_id"])
                             else NonStatisticalFiles(fields["job_id"])) &&
        ("pvalues" in o.response.files <==> Truthy(fields["iterations"]))
    ensures var o := ProcessMethod(fields, effects);
      ((forall f :: f in ["file_meta", "file_counts", "iterations", "threshold", "result_precision"] ==> f in fields) &&
      (Subsamples(fields) ==> "log" in fields && "num_pc" in fields && effects.subsampler.Done?) &&
      effects.readMeta.Done? && effects.readCounts.Done? && effects.compute.Done? && effects.upload.Done?)
      <==> o.Returned?
  {
  }

  // ---------------------------------------------------------------------
  // Error responses

  /** A part of an error message: `" <text>."`, or nothing when the
      attribute is absent or empty. */
  function MessagePart(part: Option<string>): string {
    if part.Some? && part.value != "" then " " + part.value + "." else ""
  }

  /** The message of a known exception: its description, then its hint. */
  function ErrorMessage(description: Option<string>, hint: Option<string>): string {
    MessagePart(description) + MessagePart(hint)
  }

  /** The failure response published for a job whose handler raised. */
  function ErrorResponse(jobId: Json, e: Raised): (r: Response)
    ensures r.Failure? && r.jobId == jobId
    ensures e.Unknown? ==> r.errorId == "unknown_error" && r.message == ""
    ensures e.Known? ==> r.errorId == e.id && r.message == ErrorMessage(e.description, e.hint)
  {
    match e
    case Known(id, description, hint) => Failure(jobId, id, ErrorMessage(description, hint))
    case Unknown => Failure(jobId, "unknown_error", "")
  }

  /** The message of a known exception is empty exactly when it has neither a
      description nor a hint; it starts with `" <description>."` when it has a
      description and ends with `" <hint>."` when it has a hint, and is the
      two joined when it has both; and an absent part and an empty part are
      the same. */
  lemma ErrorMessageShape(description: Option<string>, hint: Option<string>)
    ensures var m := ErrorMessage(description, hint);
      var hasDescription := description.Some? && description.value != "";
      var hasHint := hint.Some? && hint.value != "";
      (m == "" <==> !hasDescription && !hasHint) &&
      (hasDescription ==> |description.value| + 2 <= |m| && m[..|description.value| + 2] == " " + description.value + ".") &&
      (hasHint ==> |hint.value| + 2 <= |m| && m[|m| - |hint.value| - 2..] == " " + hint.value + ".") &&
      (!hasDescription ==> m == MessagePart(hint)) &&
      (!hasHint ==> m == MessagePart(description)) &&
      (hasDescription && hasHint ==> m == " " + description.value + "." + " " + hint.value + ".")
  {
    var d, h := MessagePart(description), MessagePart(hint);
    assert ErrorMessage(description, hint) == d + h;
    assert (d + h)[..|d|] == d;
    assert (d + h)[|d + h| - |h|..] == h;
  }
}
