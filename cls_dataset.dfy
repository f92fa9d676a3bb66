/** The classification datasets of the model-preparation algorithms:
    `MPAClsDataset` (one label per image) and its multilabel subclass
    `MPAMultilabelClsDataset` (a one-hot row per annotated image). Both
    index the task labels, build the image pipelines, collect the
    ground-truth labels from the dataset items and evaluate predictions,
    adding a per-class top-1 accuracy on request. */
module ClsDataset {
  import opened Wrappers
  import opened Dicts
  import opened Strings

  /** A task label: `label.id` (the integer `int(label.id_)` yields) and `label.name`. */
  datatype Label = Label(id: int, name: string)

  /** An annotation, seen through `get_labels()`. */
  datatype Annotation = Annotation(labels: seq<Label>)

  /** A dataset item, seen through `get_annotations()`. */
  datatype Item = Item(annotations: seq<Annotation>)

  /** A pipeline step configuration `dict(type=kind, **options)`. */
  datatype StepCfg = StepCfg(kind: string, options: map<string, string>)

  /** The step every pipeline starts with. */
  const LoadImage := StepCfg("LoadImageFromOTEDataset", map[])

  /** The `pipeline` keyword: a dict of step lists per stage, one step list,
      or anything else. */
  datatype PipelineCfg =
    | PipelineDict(stages: Dict<string, seq<StepCfg>>)
    | PipelineList(steps: seq<StepCfg>)
    | PipelineOther

  /** A built pipeline: one composed step list per stage, or a single one.
      `build_from_cfg` and `Compose` are kept as the step configurations. */
  datatype Pipeline = PerStage(composed: map<string, seq<StepCfg>>) | Single(steps: seq<StepCfg>)

  /** The `old`/`new` image index lists. */
  datatype OldNew = OldNew(oldIndices: seq<int>, newIndices: seq<int>)

  /** One entry of `gt_labels`: no label (`None`), a class id, or a one-hot row. */
  datatype GtLabel = Unlabelled | ClassId(id: int) | OneHot(row: seq<int>)

  /** A metric value; `NaN` is numpy's result for an accuracy or a mean over nothing. */
  datatype Score = Num(value: real) | NaN

  /** A value in a `metric_options` dict. */
  datatype OptionValue = Ints(ints: seq<int>) | RealOpt(r: real) | TextOpt(text: string)

  type MetricOptions = map<string, OptionValue>

  /** A Python list of metric names that callers share with `evaluate`. */
  class StrList {
    var items: seq<string>

    constructor (items: seq<string>)
      ensures this.items == items
    {
      this.items := items;
    }
  }

  /** The `metric` argument: one name, or a caller's list of names. */
  datatype Metric = MetricName(name: string) | MetricList(list: StrList)

  // ---------------------------------------------------------------------
  // Label bookkeeping

  /** `{label.id: i for i, label in enumerate(labels)}`: each id maps to its
      position, and to the last one when an id repeats. */
  function LabelIndex(labels: seq<Label>): (m: map<int, nat>)
    ensures forall k :: k in m <==> exists i :: 0 <= i < |labels| && labels[i].id == k
    ensures forall k :: k in m ==> m[k] < |labels| && labels[m[k]].id == k
    ensures forall k :: k in m ==> forall j :: m[k] < j < |labels| ==> labels[j].id != k
  {
    if labels == [] then map[]
    else
      var init := labels[..|labels| - 1];
      var last := labels[|labels| - 1];
      var m0 := LabelIndex(init);
      assert labels == init + [last];
      LabelIndexSnoc(init, last, m0);
      m0[last.id := |init|]
  }

  /** The index of `init + [l]` is that of `init` with `l`'s id moved to the end. */
  lemma LabelIndexSnoc(init: seq<Label>, l: Label, m0: map<int, nat>)
    requires forall k :: k in m0 <==> exists i :: 0 <= i < |init| && init[i].id == k
    requires forall k :: k in m0 ==> m0[k] < |init| && init[m0[k]].id == k
    requires forall k :: k in m0 ==> forall j :: m0[k] < j < |init| ==> init[j].id != k
    ensures var labels, m := init + [l], m0[l.id := |init|];
            && (forall k :: k in m <==> exists i :: 0 <= i < |labels| && labels[i].id == k)
            && (forall k :: k in m ==> m[k] < |labels| && labels[m[k]].id == k)
            && (forall k :: k in m ==> forall j :: m[k] < j < |labels| ==> labels[j].id != k)
  {
    var labels, m := init + [l], m0[l.id := |init|];
    forall k | k in m
      ensures m[k] < |labels| && labels[m[k]].id == k
      ensures forall j :: m[k] < j < |labels| ==> labels[j].id != k
    {
      if k != l.id {
        assert labels[m0[k]] == init[m0[k]];
        forall j | m[k] < j < |labels|
          ensures labels[j].id != k
        {
          if j < |init| {
            assert labels[j] == init[j];
          }
        }
      }
    }
    forall k | exists i :: 0 <= i < |labels| && labels[i].id == k
      ensures k in m
    {
      var i :| 0 <= i < |labels| && labels[i].id == k;
      if i < |init| {
        assert init[i].id == k;
      }
    }
  }

  /** `list(label.name for label in labels)`. */
  function ClassNames(labels: seq<Label>): (names: seq<string>)
    ensures |names| == |labels| && forall i :: 0 <= i < |labels| ==> names[i] == labels[i].name
  {
    seq(|labels|, i requires 0 <= i < |labels| => labels[i].name)
  }

  /** The default `old`/`new` index lists, replaced by the given ones. */
  function ImageIndices(oldNew: Option<OldNew>): (r: map<string, seq<int>>)
    ensures r.Keys == {"old", "new"}
    ensures oldNew.None? ==> r["old"] == [] && r["new"] == []
    ensures oldNew.Some? ==> r["old"] == oldNew.value.oldIndices && r["new"] == oldNew.value.newIndices
  {
    match oldNew
    case None => map["old" := [], "new" := []]
    case Some(on) => map["old" := on.oldIndices, "new" := on.newIndices]
  }

  /** The dict-pipeline loop of `__init__`: each stage's steps composed
      after `LoadImageFromOTEDataset`. */
  method BuildStages(stages: Dict<string, seq<StepCfg>>) returns (built: map<string, seq<StepCfg>>)
    requires stages.Valid()
    ensures built.Keys == stages.vals.Keys
    ensures forall k :: k in built ==> |built[k]| > 0 && built[k][0] == LoadImage && built[k][1..] == stages.vals[k]
  {
    built := map[];
    for i := 0 to |stages.keys|
      invariant built.Keys == Elems(stages.keys[..i])
      invariant forall k :: k in built ==> k in stages.vals && built[k] == [LoadImage] + stages.vals[k]
    {
      var k := stages.keys[i];
      assert stages.keys[..i + 1] == stages.keys[..i] + [k];
      built := built[k := [LoadImage] + stages.vals[k]];
    }
    assert stages.keys[..|stages.keys|] == stages.keys;
  }

  // ---------------------------------------------------------------------
  // Ground-truth labels

  /** The rule `load_annotations` applies to one item: `Ok(None)` skips it. */
  type GtRule = Item -> Result<Option<GtLabel>>

  /** `int(item.get_annotations()[0].get_labels()[0].id_)`, or `None` for an
      item without annotations; an annotation without labels raises. */
  function FirstLabel(item: Item): Result<Option<int>>
  {
    if item.annotations == [] then Ok(None)
    else if item.annotations[0].labels == [] then Err(IndexError)
    else Ok(Some(item.annotations[0].labels[0].id))
  }

  /** Single-label rule: every item gives an entry, `None` when unannotated. */
  function SingleGt(item: Item): Result<Option<GtLabel>>
  {
    match FirstLabel(item)
    case Err(e) => Err(e)
    case Ok(None) => Ok(Some(Unlabelled))
    case Ok(Some(id)) => Ok(Some(ClassId(id)))
  }

  /** `onehot = np.zeros(n); onehot[label] = 1`: numpy counts a negative
      index from the end and raises `IndexError` outside `[-n, n)`. */
  function OneHotRow(n: nat, id: int): (r: Result<seq<int>>)
    ensures r.Ok? <==> -(n as int) <= id < n
    ensures r.Err? ==> r.error == IndexError
    ensures r.Ok? ==> |r.value| == n && forall j :: 0 <= j < n ==> r.value[j] == if j == id % n then 1 else 0
  {
    if -(n as int) <= id < n then
      var at := if id < 0 then id + n else id;
      WrapIndex(n, id);
      Ok(seq(n, j => if j == at then 1 else 0))
    else Err(IndexError)
  }

  /** Python's `row[id]` for `-n <= id < n` indexes position `id % n`. */
  lemma WrapIndex(n: nat, id: int)
    requires -(n as int) <= id < n
    ensures id % n == if id < 0 then id + n else id
  {
    if id < 0 {
      assert id + n == id - (-1) * n;
    }
  }

  /** Multilabel rule: an unannotated item is skipped, an annotated one
      gives a one-hot row over the `n` classes. */
  function MultiGt(n: nat, item: Item): Result<Option<GtLabel>>
  {
    match FirstLabel(item)
    case Err(e) => Err(e)
    case Ok(None) => Ok(None)
    case Ok(Some(id)) =>
      match OneHotRow(n, id)
      case Err(e) => Err(e)
      case Ok(row) => Ok(Some(OneHot(row)))
  }

  /** The rule of the dataset class: the multilabel one over `n` classes, or the single-label one. */
  function Rule(multilabel: bool, n: nat): GtRule
  {
    if multilabel then item => MultiGt(n, item) else SingleGt
  }

  /** The loop of `load_annotations`: the entries of `items` in order. */
  function Collect(items: seq<Item>, rule: GtRule): Result<seq<GtLabel>>
  {
    if items == [] then Ok([])
    else
      match Collect(items[..|items| - 1], rule)
      case Err(e) => Err(e)
      case Ok(gts) =>
        match rule(items[|items| - 1])
        case Err(e) => Err(e)
        case Ok(None) => Ok(gts)
        case Ok(Some(g)) => Ok(gts + [g])
  }

  /** An error raised part way through the loop ends it. */
  lemma {:induction false} CollectErrPersists(items: seq<Item>, rule: GtRule, j: nat)
    requires j <= |items| && Collect(items[..j], rule).Err?
    ensures Collect(items, rule).Err? && Collect(items, rule).error == Collect(items[..j], rule).error
    decreases |items|
  {
    if j < |items| {
      assert items[..|items| - 1][..j] == items[..j];
      CollectErrPersists(items[..|items| - 1], rule, j);
    } else {
      assert items[..j] == items;
    }
  }

  /** Single-label `load_annotations` succeeds unless an annotated item's
      first annotation has no label; it then gives one entry per item, in
      order: no label for an unannotated item, else its first label's id. */
  lemma {:induction false} SingleLabels(items: seq<Item>)
    ensures Collect(items, SingleGt).Ok? <==>
            forall i :: 0 <= i < |items| ==> items[i].annotations == [] || items[i].annotations[0].labels != []
    ensures Collect(items, SingleGt).Err? ==> Collect(items, SingleGt).error == IndexError
    ensures Collect(items, SingleGt).Ok? ==>
              var gts := Collect(items, SingleGt).value;
              && |gts| == |items|
              && forall i :: 0 <= i < |items| ==>
                   gts[i] == if items[i].annotations == [] then Unlabelled
                             else ClassId(items[i].annotations[0].labels[0].id)
  {
    if items != [] {
      var init := items[..|items| - 1];
      SingleLabels(init);
      assert forall i :: 0 <= i < |init| ==> init[i] == items[i];
    }
  }

  /** Whether `get_annotations()` is non-empty. */
  predicate Annotated(item: Item) {
    item.annotations != []
  }

  /** Multilabel `load_annotations` succeeds when every item does, and then
      gives exactly one row per annotated item, in order (so possibly fewer
      rows than items): the one-hot row of its first label's id. */
  lemma MultiLabels(items: seq<Item>, n: nat)
    ensures Collect(items, Rule(true, n)).Ok? <==> forall i :: 0 <= i < |items| ==> MultiGt(n, items[i]).Ok?
    ensures Collect(items, Rule(true, n)).Err? ==> Collect(items, Rule(true, n)).error == IndexError
    ensures Collect(items, Rule(true, n)).Ok? ==>
              var gts := Collect(items, Rule(true, n)).value;
              var annotated := FilterSeq(items, Annotated);
              && |gts| == |annotated| <= |items|
              && forall k :: 0 <= k < |gts| ==> MultiGt(n, annotated[k]) == Ok(Some(gts[k]))
  {
    var rule := Rule(true, n);
    forall x
      ensures rule(x) == MultiGt(n, x)
      ensures rule(x).Ok? ==> (rule(x).value.Some? <==> Annotated(x))
      ensures rule(x).Err? ==> rule(x).error == IndexError
    {
    }
    CollectSucceeds(items, rule, IndexError);
    CollectKept(items, rule, Annotated);
    FilterSeqLength(items, Annotated);
  }

  /** Collecting succeeds iff the rule succeeds on every item, and fails
      with the rule's error otherwise. */
  lemma {:induction false} CollectSucceeds(items: seq<Item>, rule: GtRule, e: Exc)
    requires forall x :: rule(x).Err? ==> rule(x).error == e
    ensures Collect(items, rule).Ok? <==> forall i :: 0 <= i < |items| ==> rule(items[i]).Ok?
    ensures Collect(items, rule).Err? ==> Collect(items, rule).error == e
  {
    if items != [] {
      var init := items[..|items| - 1];
      CollectSucceeds(init, rule, e);
      assert forall i :: 0 <= i < |init| ==> init[i] == items[i];
    }
  }

  /** A successful collection holds one result per kept item, in order:
      the rule's value on that item. */
  lemma {:induction false} CollectKept(items: seq<Item>, rule: GtRule, keep: Item -> bool)
    requires forall x :: rule(x).Ok? ==> (rule(x).value.Some? <==> keep(x))
    ensures Collect(items, rule).Ok? ==>
              var gts := Collect(items, rule).value;
              var kept := FilterSeq(items, keep);
              && |gts| == |kept|
              && forall k :: 0 <= k < |gts| ==> rule(kept[k]) == Ok(Some(gts[k]))
  {
    if items != [] && Collect(items, rule).Ok? {
      var init := items[..|items| - 1];
      var last := items[|items| - 1];
      CollectKept(init, rule, keep);
      assert items == init + [last];
      FilterSeqSnoc(init, last, keep);
      var gts0 := Collect(init, rule).value;
      if keep(last) {
        Aligned(rule, FilterSeq(init, keep), gts0, last, rule(last).value.value);
      } else {
        assert Collect(items, rule).value == gts0;
      }
    }
  }

  /** Appending an item and its result keeps the two sequences aligned. */
  lemma Aligned(rule: GtRule, kept: seq<Item>, gts: seq<GtLabel>, x: Item, g: GtLabel)
    requires |gts| == |kept| && forall k :: 0 <= k < |gts| ==> rule(kept[k]) == Ok(Some(gts[k]))
    requires rule(x) == Ok(Some(g))
    ensures forall k :: 0 <= k < |gts| + 1 ==> rule((kept + [x])[k]) == Ok(Some((gts + [g])[k]))
  {
    forall k | 0 <= k < |gts| + 1
      ensures rule((kept + [x])[k]) == Ok(Some((gts + [g])[k]))
    {
      if k < |gts| {
        assert (kept + [x])[k] == kept[k] && (gts + [g])[k] == gts[k];
      }
    }
  }

  /** The multilabel rule raises exactly when an annotated item's first
      annotation has no label or its id is outside `[-n, n)`; an annotated
      item otherwise gives a one-hot row of length `n` with its 1 at the
      wrapped id. */
  lemma MultiGtCases(n: nat, item: Item)
    ensures MultiGt(n, item).Err? <==>
            Annotated(item) && (item.annotations[0].labels == [] || !(-(n as int) <= item.annotations[0].labels[0].id < n))
    ensures MultiGt(n, item) == Ok(None) <==> !Annotated(item)
    ensures MultiGt(n, item).Ok? && Annotated(item) ==>
              var id := item.annotations[0].labels[0].id;
              MultiGt(n, item).value.Some? && MultiGt(n, item).value.value.OneHot?
              && |MultiGt(n, item).value.value.row| == n
              && forall j :: 0 <= j < n ==> MultiGt(n, item).value.value.row[j] == if j == id % n then 1 else 0
  {
  }

  lemma {:induction false} FilterSeqLength<K(!new)>(s: seq<K>, keep: K -> bool)
    ensures |FilterSeq(s, keep)| <= |s|
  {
    if s != [] {
      FilterSeqLength(s[1..], keep);
    }
  }

  // ---------------------------------------------------------------------
  // Per-class top-1 accuracy

  /** The top-1 class of a score row: the last column of
      `argsort(axis=1)`, an index of a largest score (among equal largest
      scores, the last); `None` for an empty row. */
  function Top1(row: seq<real>): (r: Option<nat>)
    ensures r.None? <==> row == []
    ensures r.Some? ==> r.value < |row| && forall j :: 0 <= j < |row| ==> row[j] <= row[r.value]
    ensures r.Some? ==> forall j :: r.value < j < |row| ==> row[j] < row[r.value]
  {
    if row == [] then None
    else
      match Top1(row[..|row| - 1])
      case None => Some(0)
      case Some(m) => if row[|row| - 1] >= row[m] then Some(|row| - 1) else Some(m)
  }

  /** The number of images whose ground truth is class `c`. */
  function Total(gt: seq<GtLabel>, c: nat): nat
  {
    if gt == [] then 0
    else Total(gt[..|gt| - 1], c) + if gt[|gt| - 1] == ClassId(c) then 1 else 0
  }

  /** The number of images whose ground truth is class `c` and whose top-1
      prediction is `c`. */
  function Hits(rows: seq<seq<real>>, gt: seq<GtLabel>, c: nat): nat
    requires |rows| == |gt|
  {
    if gt == [] then 0
    else
      Hits(rows[..|rows| - 1], gt[..|gt| - 1], c)
      + if gt[|gt| - 1] == ClassId(c) && Top1(rows[|rows| - 1]) == Some(c) then 1 else 0
  }

  lemma {:induction false} HitsAtMostTotal(rows: seq<seq<real>>, gt: seq<GtLabel>, c: nat)
    requires |rows| == |gt|
    ensures Hits(rows, gt, c) <= Total(gt, c)
  {
    if gt != [] {
      HitsAtMostTotal(rows[..|rows| - 1], gt[..|gt| - 1], c);
    }
  }

  /** `np.sum(cls_pred) / len(cls_pred)`: the share of class `c`'s images
      predicted as `c`; `NaN` when the class has no image. */
  function Accuracy(rows: seq<seq<real>>, gt: seq<GtLabel>, c: nat): Score
    requires |rows| == |gt|
  {
    if Total(gt, c) == 0 then NaN else Num(Hits(rows, gt, c) as real / Total(gt, c) as real)
  }

  /** An accuracy is `NaN` exactly for a class without images, and otherwise
      a share between 0 and 1. */
  lemma AccuracyBounds(rows: seq<seq<real>>, gt: seq<GtLabel>, c: nat)
    requires |rows| == |gt|
    ensures Accuracy(rows, gt, c).NaN? <==> Total(gt, c) == 0
    ensures Accuracy(rows, gt, c).Num? ==> 0.0 <= Accuracy(rows, gt, c).value <= 1.0
  {
    HitsAtMostTotal(rows, gt, c);
  }

  /** `__class_accuracy` on values: one accuracy per class index; the boolean
      mask over the ground truth raises `IndexError` when it does not match
      the number of result rows. */
  function ClassAccuracies(n: nat, rows: seq<seq<real>>, gt: seq<GtLabel>): Result<seq<Score>>
  {
    if n == 0 then Ok([])
    else if |rows| != |gt| then Err(IndexError)
    else Ok(seq(n, c requires 0 <= c < n => Accuracy(rows, gt, c)))
  }

  function Sum(accs: seq<Score>): real
    requires forall a :: a in accs ==> a.Num?
  {
    if accs == [] then 0.0 else Sum(accs[..|accs| - 1]) + accs[|accs| - 1].value
  }

  /** `np.mean(accuracies)`: `NaN` over no value or when a value is `NaN`. */
  function Mean(accs: seq<Score>): Score
  {
    if accs == [] || NaN in accs then NaN else Num(Sum(accs) / |accs| as real)
  }

  lemma {:induction false} SumBounds(accs: seq<Score>)
    requires forall a :: a in accs ==> a.Num? && 0.0 <= a.value <= 1.0
    ensures 0.0 <= Sum(accs) <= |accs| as real
  {
    if accs != [] {
      assert forall a :: a in accs[..|accs| - 1] ==> a in accs;
      SumBounds(accs[..|accs| - 1]);
      assert accs[|accs| - 1] in accs;
    }
  }

  /** The mean of accuracies between 0 and 1 is between 0 and 1. */
  lemma MeanBounds(accs: seq<Score>)
    requires accs != [] && forall a :: a in accs ==> a.Num? && 0.0 <= a.value <= 1.0
    ensures Mean(accs).Num? && 0.0 <= Mean(accs).value <= 1.0
  {
    SumBounds(accs);
  }

  /** All batches of a result list stacked into one list of rows. */
  function Concat(batches: seq<seq<seq<real>>>): seq<seq<real>>
  {
    if batches == [] then [] else Concat(batches[..|batches| - 1]) + batches[|batches| - 1]
  }

  /** `np.vstack(results)`: `ValueError` for no batch or rows of different widths. */
  function VStack(batches: seq<seq<seq<real>>>): Result<seq<seq<real>>>
  {
    var rows := Concat(batches);
    if batches == [] || exists i :: 0 <= i < |rows| && |rows[i]| != |rows[0]| then Err(ValueError)
    else Ok(rows)
  }

  /** The metric that asks for the per-class accuracy. */
  const ClassAccuracyMetric := "class_accuracy"

  /** The key of the mean accuracy. */
  const MeanAccuracyKey := "mean accuracy"

  /** `{keys[i]: vals[i] for i in range(k)}`: the last pair with a key wins. */
  function Entries<V>(keys: seq<string>, vals: seq<V>, k: nat): map<string, V>
    requires k <= |keys| && k <= |vals|
  {
    if k == 0 then map[] else Entries(keys, vals, k - 1)[keys[k - 1] := vals[k - 1]]
  }

  /** The keys of `Entries` are the first `k` keys, each with the value of
      its last pair. */
  lemma {:induction false} EntriesSpec<V>(keys: seq<string>, vals: seq<V>, k: nat)
    requires k <= |keys| && k <= |vals|
    ensures forall key :: key in Entries(keys, vals, k) <==> key in keys[..k]
    ensures forall i :: 0 <= i < k && (forall j :: i < j < k ==> keys[j] != keys[i]) ==>
                        Entries(keys, vals, k)[keys[i]] == vals[i]
  {
    if k > 0 {
      EntriesSpec(keys, vals, k - 1);
      assert keys[..k] == keys[..k - 1] + [keys[k - 1]];
    }
  }

  /** The keys `'<name> accuracy'`, one per class name. */
  function AccuracyKeys(classes: seq<string>): (keys: seq<string>)
    ensures |keys| == |classes| && forall i :: 0 <= i < |classes| ==> keys[i] == classes[i] + " accuracy"
  {
    seq(|classes|, i requires 0 <= i < |classes| => classes[i] + " accuracy")
  }

  /** Two classes share an accuracy key only when they share a name. */
  lemma AccuracyKeysDistinct(classes: seq<string>, i: nat, j: nat)
    requires i < |classes| && j < |classes| && classes[i] != classes[j]
    ensures AccuracyKeys(classes)[i] != AccuracyKeys(classes)[j]
  {
    AppendInjective(classes[i], " accuracy");
  }

  /** `{f'{c} accuracy': a for c, a in zip(classes, accs)}`. */
  function AccuracyEntries(classes: seq<string>, accs: seq<Score>): map<string, Score>
  {
    var k := if |classes| <= |accs| then |classes| else |accs|;
    Entries(AccuracyKeys(classes), accs, k)
  }

  /** The two `update` calls: the per-class entries, then the mean. */
  function WithAccuracies(base: map<string, Score>, classes: seq<string>, accs: seq<Score>): map<string, Score>
  {
    (base + AccuracyEntries(classes, accs))[MeanAccuracyKey := Mean(accs)]
  }

  /** The entries added for `n` classes with `n` accuracies: one
      `'<name> accuracy'` per class, holding the accuracy of the last class
      with that name (unless it is `'mean accuracy'`), and the mean; the
      other entries of `base` are kept. */
  lemma WithAccuraciesSpec(base: map<string, Score>, classes: seq<string>, accs: seq<Score>)
    requires |accs| == |classes|
    ensures WithAccuracies(base, classes, accs).Keys == base.Keys + Elems(AccuracyKeys(classes)) + {MeanAccuracyKey}
    ensures forall key :: key in base && key !in AccuracyKeys(classes) && key != MeanAccuracyKey ==>
                          WithAccuracies(base, classes, accs)[key] == base[key]
    ensures forall i :: 0 <= i < |classes| && classes[i] + " accuracy" != MeanAccuracyKey
                        && (forall j :: i < j < |classes| ==> classes[j] != classes[i]) ==>
                          WithAccuracies(base, classes, accs)[classes[i] + " accuracy"] == accs[i]
    ensures WithAccuracies(base, classes, accs)[MeanAccuracyKey] == Mean(accs)
  {
    var keys := AccuracyKeys(classes);
    EntriesSpec(keys, accs, |classes|);
    assert keys[..|classes|] == keys;
    forall i | 0 <= i < |classes| && (forall j :: i < j < |classes| ==> classes[j] != classes[i])
      ensures Entries(keys, accs, |classes|)[keys[i]] == accs[i]
    {
      forall j | i < j < |classes|
        ensures keys[j] != keys[i]
      {
        AccuracyKeysDistinct(classes, j, i);
      }
    }
  }

  /** `metrics.remove(x)`: the first occurrence taken out. */
  function RemoveFirst(s: seq<string>, x: string): (r: seq<string>)
    ensures x in s ==> |r| == |s| - 1 && multiset(r) == multiset(s) - multiset{x}
    ensures x !in s ==> r == s
  {
    if s == [] then []
    else
      assert s == [s[0]] + s[1..];
      if s[0] == x then s[1..] else [s[0]] + RemoveFirst(s[1..], x)
  }

  /** The occurrence `remove` takes out is the first one, and everything
      around it stays in order. */
  lemma {:induction false} RemoveFirstAt(s: seq<string>, x: string)
    requires x in s
    ensures exists i :: FirstAt(s, x, i) && RemoveFirst(s, x) == s[..i] + s[i + 1..]
  {
    if s[0] == x {
      assert FirstAt(s, x, 0) && s[1..] == s[..0] + s[1..];
    } else {
      assert s == [s[0]] + s[1..];
      RemoveFirstAt(s[1..], x);
      var t := s[1..];
      var j :| FirstAt(t, x, j) && RemoveFirst(t, x) == t[..j] + t[j + 1..];
      var i := j + 1;
      SliceShift(s, i);
      assert FirstAt(s, x, i);
      assert RemoveFirst(s, x) == [s[0]] + (t[..i - 1] + t[i..]);
    }
  }

  /** Putting the head back in front of a slice with one element cut out. */
  lemma SliceShift<T>(s: seq<T>, i: int)
    requires 0 < i < |s|
    ensures s[..i] == [s[0]] + s[1..][..i - 1]
    ensures [s[0]] + (s[1..][..i - 1] + s[1..][i..]) == s[..i] + s[i + 1..]
  {
    var t := s[1..];
    assert s[..i] == [s[0]] + t[..i - 1];
    assert s[i + 1..] == t[i..];
  }

  /** `i` is where `x` first occurs in `s`. */
  predicate FirstAt(s: seq<string>, x: string, i: int)
  {
    0 <= i < |s| && s[i] == x && x !in s[..i]
  }

  /** `metric_options` defaulted to `{'topk': (1, 5)}`, or `(1,)` under five classes. */
  function SingleLabelOptions(numClasses: nat, options: Option<MetricOptions>): MetricOptions
  {
    if options.None? then map["topk" := Ints(if numClasses >= 5 then [1, 5] else [1])] else options.value
  }

  /** `metric_options` defaulted to `{'thr': 0.5}` when absent or empty. */
  function MultilabelOptions(options: Option<MetricOptions>): MetricOptions
  {
    if options.None? || options.value == map[] then map["thr" := RealOpt(0.5)] else options.value
  }

  /** The metrics the multilabel dataset supports. */
  const AllowedMetrics: seq<string> := [MapMetric] + PerformanceKeys

  const MapMetric := "mAP"

  /** The metrics `average_performance` computes, in the order it returns them. */
  const PerformanceKeys: seq<string> := ["CP", "CR", "CF1", "OP", "OR", "OF1"]

  /** `gt_labels[indices]`: numpy fancy indexing, counting negative indices
      from the end; `IndexError` outside `[-n, n)`. */
  function SelectRows(gt: seq<GtLabel>, indices: seq<int>): (r: Result<seq<GtLabel>>)
    ensures r.Ok? <==> forall j :: 0 <= j < |indices| ==> -|gt| <= indices[j] < |gt|
    ensures r.Err? ==> r.error == IndexError
    ensures r.Ok? ==> |r.value| == |indices|
    ensures r.Ok? ==> forall j :: 0 <= j < |indices| ==> r.value[j] == gt[if indices[j] < 0 then indices[j] + |gt| else indices[j]]
  {
    if indices == [] then Ok([])
    else
      var i := indices[|indices| - 1];
      match SelectRows(gt, indices[..|indices| - 1])
      case Err(e) => Err(e)
      case Ok(sel) =>
        if -|gt| <= i < |gt| then Ok(sel + [gt[if i < 0 then i + |gt| else i]]) else Err(IndexError)
  }

  /** The `zip(keys, values)` loop over the first `k` pairs: each value
      whose key was requested is recorded over `base`. */
  function RecordRequested(base: map<string, real>, keys: seq<string>, values: seq<real>, metrics: seq<string>, k: nat)
    : map<string, real>
    requires k <= |keys| && k <= |values|
  {
    if k == 0 then base
    else
      var r := RecordRequested(base, keys, values, metrics, k - 1);
      if keys[k - 1] in metrics then r[keys[k - 1] := values[k - 1]] else r
  }

  /** The recorded keys are the base's and the requested ones among the
      first `k`; a requested key listed once carries its value. */
  lemma {:induction false} RecordRequestedSpec(base: map<string, real>, keys: seq<string>, values: seq<real>,
                                               metrics: seq<string>, k: nat)
    requires k <= |keys| && k <= |values|
    ensures forall key :: key in RecordRequested(base, keys, values, metrics, k) <==>
                          key in base || (key in keys[..k] && key in metrics)
    ensures forall j :: 0 <= j < k && keys[j] in metrics && (forall i :: j < i < k ==> keys[i] != keys[j]) ==>
                        RecordRequested(base, keys, values, metrics, k)[keys[j]] == values[j]
    ensures forall key :: key in base && key !in keys[..k] ==> RecordRequested(base, keys, values, metrics, k)[key] == base[key]
  {
    if k > 0 {
      RecordRequestedSpec(base, keys, values, metrics, k - 1);
      assert keys[..k] == keys[..k - 1] + [keys[k - 1]];
    }
  }

  /** The metric selection of multilabel `evaluate`, with the metric names
      as parameters: an unsupported metric raises `ValueError`; otherwise
      `mapKey` is recorded if requested, and when anything else is
      requested, each requested key of `perfKeys` zipped with `values`. */
  function Requested(metrics: seq<string>, allowed: seq<string>, mapKey: string, mapValue: real,
                     perfKeys: seq<string>, values: seq<real>): Result<map<string, real>>
  {
    if exists m :: m in metrics && m !in allowed then Err(ValueError)
    else
      var withMap: map<string, real> := if mapKey in metrics then map[mapKey := mapValue] else map[];
      if exists m :: m in metrics && m != mapKey then
        var k := if |values| <= |perfKeys| then |values| else |perfKeys|;
        Ok(RecordRequested(withMap, perfKeys, values, metrics, k))
      else Ok(withMap)
  }

  /** With `allowed` the map key followed by distinct performance keys, the
      selection fails exactly on an unsupported metric; otherwise it records
      the map value if requested and each requested performance value,
      nothing unrequested, and with enough values exactly the requested keys. */
  lemma RequestedSpec(metrics: seq<string>, allowed: seq<string>, mapKey: string, mapValue: real,
                      perfKeys: seq<string>, values: seq<real>)
    requires allowed == [mapKey] + perfKeys && mapKey !in perfKeys
    requires forall i, j :: 0 <= i < j < |perfKeys| ==> perfKeys[i] != perfKeys[j]
    ensures var r := Requested(metrics, allowed, mapKey, mapValue, perfKeys, values);
            && (r.Ok? <==> forall m :: m in metrics ==> m in allowed)
            && (r.Err? ==> r.error == ValueError)
            && (r.Ok? ==>
                  && (mapKey in metrics ==> mapKey in r.value && r.value[mapKey] == mapValue)
                  && (forall j :: 0 <= j < |perfKeys| && j < |values| && perfKeys[j] in metrics ==>
                        perfKeys[j] in r.value && r.value[perfKeys[j]] == values[j])
                  && (forall key :: key in r.value ==> key in metrics)
                  && (|values| >= |perfKeys| ==> r.value.Keys == Elems(metrics)))
  {
    var r := Requested(metrics, allowed, mapKey, mapValue, perfKeys, values);
    if r.Ok? {
      var withMap: map<string, real> := if mapKey in metrics then map[mapKey := mapValue] else map[];
      var k := if |values| <= |perfKeys| then |values| else |perfKeys|;
      RecordRequestedSpec(withMap, perfKeys, values, metrics, k);
      if exists m :: m in metrics && m != mapKey {
        assert r.value == RecordRequested(withMap, perfKeys, values, metrics, k);
        if |values| >= |perfKeys| {
          assert perfKeys[..k] == perfKeys;
          forall m | m in metrics
            ensures m in r.value
          {
            assert m in allowed;
          }
        }
      } else {
        assert r.value == withMap;
      }
    }
  }

  lemma PerformanceKeysDistinct()
    ensures forall i, j :: 0 <= i < j < |PerformanceKeys| ==> PerformanceKeys[i] != PerformanceKeys[j]
    ensures MapMetric !in PerformanceKeys
  {
  }

  // ---------------------------------------------------------------------
  // The dataset

  class ClsDataset {
    /** Whether this is the multilabel subclass. */
    const multilabel: bool
    /** `self.ote_dataset`. */
    const items: seq<Item>
    const labels: seq<Label>
    /** `self.label_idx`. */
    const labelIdx: map<int, nat>
    /** `self.CLASSES`. */
    const classes: seq<string>
    /** `self.img_indices`. */
    const imgIndices: map<string, seq<int>>
    /** `self.pipeline`; unassigned (encoded as `None`) when the `pipeline` keyword is neither a dict nor a list. */
    const pipeline: Option<Pipeline>
    /** `self.num_pipes`; unassigned (encoded as `None`) where `self.pipeline` is. */
    const numPipes: Option<nat>
    /** `self.gt_labels`. */
    var gtLabels: seq<GtLabel>
    /** `self.class_acc`, which starts out false. */
    var classAcc: bool

    /** `__init__` up to the call of `load_annotations`. */
    constructor (multilabel: bool, items: seq<Item>, labels: seq<Label>, oldNew: Option<OldNew>, cfg: PipelineCfg)
      requires cfg.PipelineDict? ==> cfg.stages.Valid()
      ensures this.multilabel == multilabel && this.items == items && this.labels == labels
      ensures labelIdx == LabelIndex(labels) && classes == ClassNames(labels) && NumClasses() == |labels|
      ensures imgIndices == ImageIndices(oldNew)
      ensures cfg.PipelineDict? ==>
                && numPipes == Some(|cfg.stages.keys|)
                && pipeline.Some? && pipeline.value.PerStage?
                && pipeline.value.composed.Keys == cfg.stages.vals.Keys
                && forall k :: k in pipeline.value.composed ==> pipeline.value.composed[k] == [LoadImage] + cfg.stages.vals[k]
      ensures cfg.PipelineList? ==> numPipes == Some(1) && pipeline == Some(Single([LoadImage] + cfg.steps))
      ensures cfg.PipelineOther? ==> numPipes.None? && pipeline.None?
      ensures gtLabels == [] && !classAcc
    {
      this.multilabel := multilabel;
      this.items := items;
      this.labels := labels;
      labelIdx := LabelIndex(labels);
      classes := ClassNames(labels);
      imgIndices := ImageIndices(oldNew);
      match cfg {
        case PipelineDict(stages) =>
          var built := BuildStages(stages);
          assert forall k :: k in built ==> built[k] == [built[k][0]] + built[k][1..];
          pipeline := Some(PerStage(built));
          numPipes := Some(|stages.keys|);
        case PipelineList(steps) =>
          pipeline := Some(Single([LoadImage] + steps));
          numPipes := Some(1);
        case PipelineOther =>
          pipeline := None;
          numPipes := None;
      }
      gtLabels := [];
      classAcc := false;
    }

    /** `self.num_classes`, the number of classes. */
    function NumClasses(): nat
    {
      |classes|
    }

    /** `load_annotations` (the single-label one, or the multilabel
        override): appends the entries of the items to `gt_labels`. */
    method LoadAnnotations() returns (r: Outcome)
      modifies this
      ensures classAcc == old(classAcc)
      ensures var spec := Collect(items, Rule(multilabel, NumClasses()));
              && (r.Pass? <==> spec.Ok?)
              && (spec.Err? ==> r == Fail(spec.error))
              && (spec.Ok? ==> gtLabels == old(gtLabels) + spec.value)
    {
      var rule := Rule(multilabel, NumClasses());
      ghost var start := gtLabels;
      for i := 0 to |items|
        invariant classAcc == old(classAcc)
        invariant Collect(items[..i], rule).Ok? && gtLabels == start + Collect(items[..i], rule).value
      {
        assert items[..i + 1][..i] == items[..i];
        var g := rule(items[i]);
        if g.Err? {
          CollectErrPersists(items, rule, i + 1);
          return Fail(g.error);
        }
        if g.value.Some? {
          gtLabels := gtLabels + [g.value.value];
        }
      }
      assert items[..|items|] == items;
      r := Pass;
    }

    /** `__class_accuracy`: the loop over the class indices. */
    method ClassAccuracy(rows: seq<seq<real>>, gt: seq<GtLabel>) returns (r: Result<seq<Score>>)
      ensures r == ClassAccuracies(NumClasses(), rows, gt)
    {
      var n := NumClasses();
      var accs: seq<Score> := [];
      for c := 0 to n
        invariant |rows| != |gt| ==> c == 0
        invariant |accs| == c && forall j :: 0 <= j < c ==> accs[j] == Accuracy(rows, gt, j)
      {
        if |rows| != |gt| {
          return Err(IndexError);
        }
        accs := accs + [Accuracy(rows, gt, c)];
      }
      if n > 0 {
        assert accs == seq(n, c requires 0 <= c < n => Accuracy(rows, gt, c));
      }
      return Ok(accs);
    }

    /** What `evaluate` returns, given the value of `class_acc` before the
        call, the requested metrics, and the base class's evaluation. */
    function EvaluateResult(flagBefore: bool, metrics: seq<string>, options: Option<MetricOptions>,
                            results: seq<seq<seq<real>>>,
                            baseEvaluate: (seq<string>, MetricOptions) -> Result<map<string, Score>>)
      : Result<map<string, Score>>
      reads this`gtLabels
    {
      var flag := flagBefore || ClassAccuracyMetric in metrics;
      match baseEvaluate(RemoveFirst(metrics, ClassAccuracyMetric), SingleLabelOptions(NumClasses(), options))
      case Err(e) => Err(e)
      case Ok(base) =>
        if !flag then Ok(base)
        else
          match VStack(results)
          case Err(e) => Err(e)
          case Ok(rows) =>
            match ClassAccuracies(NumClasses(), rows, gtLabels)
            case Err(e) => Err(e)
            case Ok(accs) => Ok(WithAccuracies(base, classes, accs))
    }

    /** `evaluate` of the single-label dataset. */
    method Evaluate(metric: Metric, options: Option<MetricOptions>, results: seq<seq<seq<real>>>,
                    baseEvaluate: (seq<string>, MetricOptions) -> Result<map<string, Score>>)
      returns (r: Result<map<string, Score>>)
      modifies this, if metric.MetricList? then {metric.list} else {}
      ensures gtLabels == old(gtLabels)
      ensures classAcc == (old(classAcc) || ClassAccuracyMetric in old(Names(metric)))
      ensures metric.MetricList? ==> metric.list.items == RemoveFirst(old(metric.list.items), ClassAccuracyMetric)
      ensures r == EvaluateResult(old(classAcc), old(Names(metric)), options, results, baseEvaluate)
    {
      var opts := SingleLabelOptions(NumClasses(), options);
      var metrics := if metric.MetricName? then [metric.name] else metric.list.items;
      ghost var requested := metrics;
      ghost var flagBefore := classAcc;
      ghost var expected := EvaluateResult(flagBefore, requested, options, results, baseEvaluate);
      if ClassAccuracyMetric in metrics {
        metrics := RemoveFirst(metrics, ClassAccuracyMetric);
        if metric.MetricList? {
          metric.list.items := metrics;
        }
        classAcc := true;
      }
      assert metrics == RemoveFirst(requested, ClassAccuracyMetric);
      assert classAcc == (flagBefore || ClassAccuracyMetric in requested);
      var base := baseEvaluate(metrics, opts);
      if base.Err? {
        return Err(base.error);
      }
      r := base;
      if classAcc {
        var rows := VStack(results);
        if rows.Err? {
          return Err(rows.error);
        }
        var accs := ClassAccuracy(rows.value, gtLabels);
        if accs.Err? {
          assert expected == Err(accs.error);
          return Err(accs.error);
        }
        r := Ok(WithAccuracies(base.value, classes, accs.value));
      }
      assert r == expected;
    }

    /** `evaluate` of the multilabel dataset (`metric` a name `m` is `[m]`),
        given `mAP`'s value and `average_performance`'s values for the
        options it is passed. Before any metric is looked at, results that
        do not stack raise `ValueError`, an index outside the ground truth
        `IndexError`, and a count of results other than that of the selected
        labels `AssertionError`. */
    function EvaluateMultilabel(metrics: seq<string>, options: Option<MetricOptions>,
                                results: seq<seq<seq<real>>>, indices: Option<seq<int>>,
                                mapValue: real, performance: MetricOptions -> seq<real>)
      : (r: Result<map<string, real>>)
      reads this`gtLabels
      ensures VStack(results).Err? ==> r == Err(ValueError)
      ensures VStack(results).Ok? && indices.Some?
              && (exists j :: 0 <= j < |indices.value| && !(-|gtLabels| <= indices.value[j] < |gtLabels|))
              ==> r == Err(IndexError)
      ensures VStack(results).Ok? && (indices.None? || SelectRows(gtLabels, indices.value).Ok?)
              && |VStack(results).value| != (if indices.None? then |gtLabels| else |indices.value|)
              ==> r == Err(AssertionError)
    {
      match VStack(results)
      case Err(e) => Err(e)
      case Ok(rows) =>
        match (if indices.None? then Ok(gtLabels) else SelectRows(gtLabels, indices.value))
        case Err(e) => Err(e)
        case Ok(gt) =>
          if |gt| != |rows| then Err(AssertionError)
          else Requested(metrics, AllowedMetrics, MapMetric, mapValue, PerformanceKeys,
                         performance(MultilabelOptions(options)))
    }

    /** Without `class_accuracy`, requested now or before, `evaluate` is the
        base class's evaluation with the default top-k. */
    lemma EvaluateWithoutClassAccuracy(metrics: seq<string>, options: Option<MetricOptions>,
                                       results: seq<seq<seq<real>>>,
                                       baseEvaluate: (seq<string>, MetricOptions) -> Result<map<string, Score>>)
      requires ClassAccuracyMetric !in metrics
      ensures EvaluateResult(false, metrics, options, results, baseEvaluate)
              == baseEvaluate(metrics, SingleLabelOptions(NumClasses(), options))
      ensures options.None? ==>
                SingleLabelOptions(NumClasses(), options) == map["topk" := Ints(if NumClasses() >= 5 then [1, 5] else [1])]
    {
    }

    /** With `class_accuracy` requested (now or by an earlier call), a
        successful `evaluate` adds a `'<name> accuracy'` entry per class,
        holding that class's top-1 accuracy (the last class's when names
        repeat), and `'mean accuracy'` holding their mean; the base class's
        other entries are kept. */
    lemma EvaluateClassAccuracy(flagBefore: bool, metrics: seq<string>, options: Option<MetricOptions>,
                                results: seq<seq<seq<real>>>,
                                baseEvaluate: (seq<string>, MetricOptions) -> Result<map<string, Score>>)
      requires flagBefore || ClassAccuracyMetric in metrics
      requires EvaluateResult(flagBefore, metrics, options, results, baseEvaluate).Ok?
      ensures VStack(results).Ok? && (NumClasses() > 0 ==> |VStack(results).value| == |gtLabels|)
      ensures var rows := VStack(results).value;
              var base := baseEvaluate(RemoveFirst(metrics, ClassAccuracyMetric), SingleLabelOptions(NumClasses(), options)).value;
              var r := EvaluateResult(flagBefore, metrics, options, results, baseEvaluate).value;
              && r.Keys == base.Keys + Elems(AccuracyKeys(classes)) + {MeanAccuracyKey}
              && (forall key :: key in base && key !in AccuracyKeys(classes) && key != MeanAccuracyKey ==> r[key] == base[key])
              && (forall i :: 0 <= i < |classes| && classes[i] + " accuracy" != MeanAccuracyKey
                              && (forall j :: i < j < |classes| ==> classes[j] != classes[i]) ==>
                                r[classes[i] + " accuracy"] == Accuracy(rows, gtLabels, i))
              && r[MeanAccuracyKey] == Mean(ClassAccuracies(NumClasses(), rows, gtLabels).value)
    {
      var rows := VStack(results).value;
      var accs := ClassAccuracies(NumClasses(), rows, gtLabels).value;
      assert forall i :: 0 <= i < |classes| ==> accs[i] == Accuracy(rows, gtLabels, i);
      var base := baseEvaluate(RemoveFirst(metrics, ClassAccuracyMetric), SingleLabelOptions(NumClasses(), options)).value;
      WithAccuraciesSpec(base, classes, accs);
    }

    /** When the results stack, the selected ground truth exists and matches
        them in number, multilabel `evaluate` fails exactly on an unsupported
        metric (`ValueError`); otherwise it records `mAP` if requested and
        each requested `average_performance` value, and with all six values
        its keys are exactly the requested metrics. */
    lemma MultilabelEvaluate(metrics: seq<string>, options: Option<MetricOptions>,
                             results: seq<seq<seq<real>>>, indices: Option<seq<int>>,
                             mapValue: real, performance: MetricOptions -> seq<real>)
      requires VStack(results).Ok?
      requires indices.Some? ==> SelectRows(gtLabels, indices.value).Ok?
      requires |VStack(results).value| == if indices.None? then |gtLabels| else |indices.value|
      ensures var r := EvaluateMultilabel(metrics, options, results, indices, mapValue, performance);
              && (r.Ok? <==> forall m :: m in metrics ==> m in AllowedMetrics)
              && (r.Err? ==> r.error == ValueError)
      ensures var r := EvaluateMultilabel(metrics, options, results, indices, mapValue, performance);
              var values := performance(MultilabelOptions(options));
              r.Ok? ==>
                && (MapMetric in metrics ==> MapMetric in r.value && r.value[MapMetric] == mapValue)
                && (forall j :: 0 <= j < |PerformanceKeys| && j < |values| && PerformanceKeys[j] in metrics ==>
                      PerformanceKeys[j] in r.value && r.value[PerformanceKeys[j]] == values[j])
                && (forall key :: key in r.value ==> key in metrics)
                && (|values| >= |PerformanceKeys| ==> r.value.Keys == Elems(metrics))
    {
      PerformanceKeysDistinct();
      RequestedSpec(metrics, AllowedMetrics, MapMetric, mapValue, PerformanceKeys,
                    performance(MultilabelOptions(options)));
    }
  }

  /** The flag `evaluate` tests, as the code reads it: `class_acc` is
      assigned only on the path where `class_accuracy` is requested and
      nowhere in the constructor, so while it was never assigned (`attr` is
      `None`) the read raises `AttributeError`. */
  function ClassAccFlagAsWritten(attr: Option<bool>, metrics: seq<string>): (r: Result<bool>)
    ensures r.Err? <==> attr.None? && ClassAccuracyMetric !in metrics
    ensures r.Err? ==> r.error == AttributeError
    ensures r.Ok? ==> r.value == (ClassAccuracyMetric in metrics || attr.value)
  {
    if ClassAccuracyMetric in metrics then Ok(true)
    else if attr.None? then Err(AttributeError)
    else Ok(attr.value)
  }

  /** The first `evaluate` of a new dataset that asks for `accuracy` alone
      raises, where a flag that starts out false gives the base evaluation
      (`ClsDataset.EvaluateWithoutClassAccuracy`). */
  lemma FirstEvaluateRaises()
    ensures ClassAccFlagAsWritten(None, ["accuracy"]) == Err(AttributeError)
    ensures ClassAccFlagAsWritten(Some(false), ["accuracy"]) == Ok(false)
  {
    assert ClassAccuracyMetric !in ["accuracy"];
  }

  /** The names a `metric` argument stands for. */
  function Names(metric: Metric): seq<string>
    reads if metric.MetricList? then {metric.list} else {}
  {
    if metric.MetricName? then [metric.name] else metric.list.items
  }

  /** `MPAClsDataset(...)` / `MPAMultilabelClsDataset(...)`: `pipeline` is
      the `pipeline` keyword, if given; `oldNew` the `old_new_indices` dict. */
  method Create(multilabel: bool, items: seq<Item>, labels: seq<Label>,
                oldNew: Option<map<string, seq<int>>>, pipeline: Option<PipelineCfg>)
    returns (r: Result<ClsDataset>)
    requires pipeline.Some? && pipeline.value.PipelineDict? ==> pipeline.value.stages.Valid()
    ensures pipeline.None? ==> r == Err(KeyError)
    ensures pipeline.Some? && oldNew.Some? && !("old" in oldNew.value && "new" in oldNew.value) ==> r == Err(KeyError)
    ensures pipeline.Some? && (oldNew.Some? ==> "old" in oldNew.value && "new" in oldNew.value) ==>
              var spec := Collect(items, Rule(multilabel, |labels|));
              && (r.Ok? <==> spec.Ok?)
              && (spec.Err? ==> r == Err(spec.error))
              && (r.Ok? ==>
                    && fresh(r.value)
                    && r.value.multilabel == multilabel && r.value.items == items && r.value.labels == labels
                    && r.value.NumClasses() == |labels|
                    && r.value.gtLabels == spec.value && !r.value.classAcc)
  {
    if pipeline.None? {
      return Err(KeyError);
    }
    var on: Option<OldNew> := None;
    if oldNew.Some? {
      if "old" !in oldNew.value || "new" !in oldNew.value {
        return Err(KeyError);
      }
      on := Some(OldNew(oldNew.value["old"], oldNew.value["new"]));
    }
    var ds := new ClsDataset(multilabel, items, labels, on, pipeline.value);
    var loaded := ds.LoadAnnotations();
    if loaded.Fail? {
      return Err(loaded.error);
    }
    r := Ok(ds);
  }
}
