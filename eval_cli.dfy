/** The decision logic of the `otx eval` command: the label-schema check,
    the choice of the task implementation from the weight file's suffix,
    the default weight and performance paths, and the performance record
    the command saves. */
module EvalCli {
  import opened Wrappers
  import opened Strings

  /** `check_label_schemas` on the label names of the two schemas: the names
      are compared pairwise over the shorter list. */
  predicate SchemasAgree(a: seq<string>, b: seq<string>) {
    forall i :: 0 <= i < |a| && i < |b| ==> a[i] == b[i]
  }

  /** `check_label_schemas`: `RuntimeError` at the first differing pair. */
  method CheckLabelSchemas(a: seq<string>, b: seq<string>) returns (r: Outcome)
    ensures r.Pass? <==> SchemasAgree(a, b)
    ensures r.Fail? ==> r.error == RuntimeError
  {
    var n := if |a| <= |b| then |a| else |b|;
    for i := 0 to n
      invariant forall j :: 0 <= j < i ==> a[j] == b[j]
    {
      if a[i] != b[i] {
        return Fail(RuntimeError);
      }
    }
    return Pass;
  }

  /** Labels beyond the end of the shorter schema never make the check fail,
      and the check does not depend on the order of the two schemas. */
  lemma SchemasAgreeTrailing(a: seq<string>, b: seq<string>, extra: seq<string>)
    requires |a| >= |b|
    ensures SchemasAgree(a + extra, b) <==> SchemasAgree(a, b)
    ensures SchemasAgree(a, b) <==> SchemasAgree(b, a)
  {
    if SchemasAgree(a, b) {
      forall i | 0 <= i < |a + extra| && i < |b|
        ensures (a + extra)[i] == b[i]
      {
        assert (a + extra)[i] == a[i];
      }
    }
    if SchemasAgree(a + extra, b) {
      forall i | 0 <= i < |a| && i < |b|
        ensures a[i] == b[i]
      {
        assert (a + extra)[i] == a[i];
      }
    }
  }

  /** The task implementation the command loads. */
  datatype Entrypoint = OpenVino | Nncf | Base

  /** `.bin`, `.xml` or `.zip`: an exported model. */
  predicate IsExported(weights: string) {
    EndsWith(weights, ".bin") || EndsWith(weights, ".xml") || EndsWith(weights, ".zip")
  }

  /** The entrypoint chosen from the weight file's suffix; `.pth` files go
      to NNCF when `isCheckpointNncf` says so. Any other suffix raises
      `ValueError`. */
  function SelectEntrypoint(weights: string, isCheckpointNncf: string -> bool): (r: Result<Entrypoint>)
    ensures r == Ok(OpenVino) <==> IsExported(weights)
    ensures r == Ok(Nncf) <==> !IsExported(weights) && EndsWith(weights, ".pth") && isCheckpointNncf(weights)
    ensures r == Ok(Base) <==> !IsExported(weights) && EndsWith(weights, ".pth") && !isCheckpointNncf(weights)
    ensures r.Err? <==> !IsExported(weights) && !EndsWith(weights, ".pth")
    ensures r.Err? ==> r.error == ValueError
  {
    if IsExported(weights) then Ok(OpenVino)
    else if EndsWith(weights, ".pth") then
      if isCheckpointNncf(weights) then Ok(Nncf) else Ok(Base)
    else Err(ValueError)
  }

  /** The suffix alone decides between an exported model and a checkpoint:
      `stem.bin`, `stem.xml` and `stem.zip` load the OpenVINO entrypoint,
      `stem.pth` the NNCF or the base one. */
  lemma EntrypointOfSuffix(stem: string, isCheckpointNncf: string -> bool)
    ensures SelectEntrypoint(stem + ".bin", isCheckpointNncf) == Ok(OpenVino)
    ensures SelectEntrypoint(stem + ".xml", isCheckpointNncf) == Ok(OpenVino)
    ensures SelectEntrypoint(stem + ".zip", isCheckpointNncf) == Ok(OpenVino)
    ensures SelectEntrypoint(stem + ".pth", isCheckpointNncf).Ok?
    ensures SelectEntrypoint(stem + ".pth", isCheckpointNncf).value != OpenVino
  {
    EndsWithAppend(stem, ".bin");
    EndsWithAppend(stem, ".xml");
    EndsWithAppend(stem, ".zip");
    var w := stem + ".pth";
    EndsWithAppend(stem, ".pth");
    if EndsWith(w, ".bin") { SameLengthSuffixes(w, ".bin", ".pth"); }
    if EndsWith(w, ".xml") { SameLengthSuffixes(w, ".xml", ".pth"); }
    if EndsWith(w, ".zip") { SameLengthSuffixes(w, ".zip", ".pth"); }
  }

  /** Where a workspace keeps its trained weights. */
  const WorkspaceWeights := "models/weights.pth"

  /** `args.load_weights` once `main` has applied its default: an unset
      (`None` or empty) value becomes the workspace's `models/weights.pth`
      when there is a workspace. */
  function DefaultWeights(given: Option<string>, workspaceRoot: Option<string>): (r: Option<string>)
    ensures given.Some? && given.value != "" ==> r == given
    ensures (given.None? || given.value == "") && workspaceRoot.None? ==> r == given
    ensures (given.None? || given.value == "") && workspaceRoot.Some? ==>
              r == Some(workspaceRoot.value + "/" + WorkspaceWeights)
              && StartsWith(r.value, workspaceRoot.value + "/") && EndsWith(r.value, WorkspaceWeights)
  {
    if (given.None? || given.value == "") && workspaceRoot.Some? then
      var w := workspaceRoot.value + "/" + WorkspaceWeights;
      StartsWithAppend(workspaceRoot.value + "/", WorkspaceWeights);
      EndsWithAppend(workspaceRoot.value + "/", WorkspaceWeights);
      Some(w)
    else given
  }

  /** The weights a workspace supplies always select a checkpoint entrypoint. */
  lemma WorkspaceWeightsLoad(workspaceRoot: string, isCheckpointNncf: string -> bool)
    ensures var w := DefaultWeights(None, Some(workspaceRoot));
            w.Some? && SelectEntrypoint(w.value, isCheckpointNncf).Ok?
            && SelectEntrypoint(w.value, isCheckpointNncf).value != OpenVino
  {
    var stem := workspaceRoot + "/models/weights";
    assert workspaceRoot + "/" + WorkspaceWeights == stem + ".pth";
    EntrypointOfSuffix(stem, isCheckpointNncf);
  }

  /** The file name of the saved performance. */
  const PerformanceFile := "performance.json"

  /** The directory part of a path, with its final `/` (empty for a bare file name). */
  function Dir(path: string): (d: string)
    ensures StartsWith(path, d)
    ensures d == "" || d[|d| - 1] == '/'
    ensures forall j :: |d| <= j < |path| ==> path[j] != '/'
  {
    match LastIndexOf(path, '/')
    case None => ""
    case Some(i) => path[..i + 1]
  }

  /** `str(Path(weights).parent / "performance.json")`. */
  function PerformancePath(weights: string): string
  {
    Dir(weights) + PerformanceFile
  }

  /** The default performance file sits in the directory of the weights:
      the two paths differ only in their last component. */
  lemma PerformanceBesideWeights(weights: string)
    ensures exists name :: weights == Dir(weights) + name && '/' !in name
    ensures PerformancePath(weights) == Dir(weights) + PerformanceFile
  {
    var d := Dir(weights);
    var name := weights[|d|..];
    assert weights == d + name;
    assert forall j :: 0 <= j < |name| ==> name[j] == weights[|d| + j];
  }

  /** `args.save_performance` once `main` has applied its default after the
      evaluation: unset (`None` or empty) becomes the file beside the weights. */
  function DefaultPerformance(given: Option<string>, weights: string): (r: string)
    ensures given.Some? && given.value != "" ==> r == given.value
    ensures given.None? || given.value == "" ==> r == PerformancePath(weights)
  {
    if given.Some? && given.value != "" then given.value else PerformancePath(weights)
  }

  /** `"anomaly" in args.template if args.template else False`. */
  predicate IsAnomalyTask(template: Option<string>) {
    template.Some? && template.value != "" && Contains(template.value, "anomaly")
  }

  /** The score a task's evaluation reports: `performance.score`. */
  datatype Score = Score(name: string, value: real)

  /** What a successful run returns and writes. */
  datatype Evaluated = Evaluated(
    retcode: int,                  // `retcode`
    template: string,              // `template.name`
    entrypoint: Entrypoint,        // the task implementation used
    updateDataYaml: bool,          // passed to `configure_data_config`
    record: map<string, real>,     // the JSON written
    savedTo: string)               // where it is written

  /** `{performance.score.name: performance.score.value}`. */
  function PerformanceRecord(score: Score): (r: map<string, real>)
    ensures |r.Keys| == 1 && score.name in r && r[score.name] == score.value
  {
    map[score.name := score.value]
  }

  /** The command-line arguments `main` reads and updates. */
  class Args {
    var template: Option<string>
    var loadWeights: Option<string>
    var savePerformance: Option<string>

    constructor (template: Option<string>, loadWeights: Option<string>, savePerformance: Option<string>)
      ensures this.template == template && this.loadWeights == loadWeights && this.savePerformance == savePerformance
    {
      this.template := template;
      this.loadWeights := loadWeights;
      this.savePerformance := savePerformance;
    }
  }

  /** `main`: `workspaceRoot` is the workspace when `check_workspace()`
      holds, `isCheckpointNncf` stands for `is_checkpoint_nncf`, and
      `performance` for what `task.evaluate` leaves in the result set. */
  method Run(args: Args, workspaceRoot: Option<string>, isCheckpointNncf: string -> bool,
              templateName: string, performance: Option<Score>)
    returns (r: Result<Evaluated>)
    modifies args
    ensures args.template == old(args.template)
    ensures args.loadWeights == DefaultWeights(old(args.loadWeights), workspaceRoot)
    ensures args.loadWeights.None? ==> r == Err(AttributeError) && args.savePerformance == old(args.savePerformance)
    ensures args.loadWeights.Some? ==>
              match SelectEntrypoint(args.loadWeights.value, isCheckpointNncf)
              case Err(e) => r == Err(e) && args.savePerformance == old(args.savePerformance)
              case Ok(entrypoint) =>
                if performance.None? then r == Err(AssertionError) && args.savePerformance == old(args.savePerformance)
                else
                  && args.savePerformance == Some(DefaultPerformance(old(args.savePerformance), args.loadWeights.value))
                  && r == Ok(Evaluated(0, templateName, entrypoint, !IsAnomalyTask(args.template),
                                       PerformanceRecord(performance.value), args.savePerformance.value))
  {
    if (args.loadWeights.None? || args.loadWeights.value == "") && workspaceRoot.Some? {
      args.loadWeights := Some(workspaceRoot.value + "/" + WorkspaceWeights);
    }
    if args.loadWeights.None? {
      return Err(AttributeError);
    }
    var entrypoint := SelectEntrypoint(args.loadWeights.value, isCheckpointNncf);
    if entrypoint.Err? {
      return Err(entrypoint.error);
    }
    var isAnomaly := IsAnomalyTask(args.template);
    var updateDataYaml := !isAnomaly;
    if performance.None? {
      return Err(AssertionError);
    }
    if args.savePerformance.None? || args.savePerformance.value == "" {
      args.savePerformance := Some(PerformancePath(args.loadWeights.value));
    }
    r := Ok(Evaluated(0, templateName, entrypoint.value, updateDataYaml,
                      PerformanceRecord(performance.value), args.savePerformance.value));
  }
}
