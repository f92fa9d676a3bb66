# OTX training extensions: verified model of six pieces of glue logic

This project models, in Dafny, the parts of the OpenVINO Training Extensions
(OTX) code base that can be stated exactly once the deep-learning frameworks
around them are treated as opaque:

- **The NNCF monkey-patch registry** (`Patcher`). It keeps an insertion-ordered
  map from `(owner path, function name)` to a stack of `(fn, wrapper)` entries.
  `_initialize` keeps a key's stack or drains it and returns its bottom
  (original) function. Each patch then installs the wrapper on its owner and
  pushes one entry.
- **Anomaly checkpoint key rewriting** (`OTXAnomalyLitModel`). `state_dict`
  drops the `model.model*` keys, records the anomalib class name and moves
  three "extra info" keys under `anomaly_lightning_model.`. `load_state_dict`
  undoes that in place on `ckpt["state_dict"]`. Also modelled: the
  `configure_optimizers` gate and the hook forwarding of `_RouteCallback`.
- **The classification datasets** (`MPAClsDataset`,
  `MPAMultilabelClsDataset`). Covered: the label index, the image index lists
  and the pipelines, ground-truth construction (a class id or a one-hot row),
  per-class top-1 accuracy, and metric selection and validation.
- **The evaluation CLI** (`otx eval`). Covered: the label-schema comparison,
  dispatch on the weight-file suffix, the default weight and performance
  paths, and the saved performance record.
- **The blur segmentation model wrapper**. Covered: its declared parameters,
  its dispatch on the rank of the output layer, and the metadata it writes in
  `postprocess`.
- **`add_domain`**, which qualifies a custom operator name with the OpenVINO
  domain.

Python exceptions are `Err`/`Fail` values carrying the exception class
(`Wrappers.Exc`). A Python `dict` whose order matters is a `Dicts.Dict`: its
keys in insertion order plus a map. A dict that the code mutates in place
through a shared reference is a `Dicts.MutableDict` object. Objects whose
fields the code updates are classes: `Patcher`, `Namespace`,
`AnomalyLitModule`, `ClsDataset`, `BlurSegmentation` and `Args`. Framework
calls are function parameters: the base `evaluate`, `mAP`,
`average_performance`, `is_checkpoint_nncf` and
`create_hard_prediction_from_soft_prediction`.

Files:

- `wrappers.dfy`, `strings.dfy`, `dicts.dfy`: `Option`/`Result`, the Python
  string operations used, and ordered dicts.
- `patcher.dfy`, `anomaly.dfy`, `cls_dataset.dfy`, `eval_cli.dfy`, `blur.dfy`,
  `operations_domain.dfy`: one module per source file.

## Model

| member | source | states |
|---|---|---|
| OperationsDomain.AddDomain | otx/mpa/deploy/utils/operations_domain.py:5-9 | the result starts with `org.openvinotoolkit::`, ends with the operator name, and its length is the domain's length plus 2 plus the name's |
| OperationsDomain.StripAddDomain | otx/mpa/deploy/utils/operations_domain.py:9 | stripping the domain qualifier from `add_domain(n)` gives back `n` |
| OperationsDomain.AddStripDomain | otx/mpa/deploy/utils/operations_domain.py:9 | every qualified name is `add_domain` of its stripped name, so the qualifier prefix is exactly the image of `add_domain` |
| OperationsDomain.AddDomainInjective | otx/mpa/deploy/utils/operations_domain.py:9 | distinct operator names get distinct qualified names |
| OperationsDomain.StripDomain | otx/mpa/deploy/utils/operations_domain.py:5-9 | a name can be stripped iff it starts with the domain qualifier |
| Patcher.ImportPath | otx/algorithms/common/adapters/nncf/patchers/patcher.py:57-59 | a dotted string is the owner path, a dot, and a last component without dots; a string without dots is all function name |
| Patcher.ImportObj | otx/algorithms/common/adapters/nncf/patchers/patcher.py:55-90 | an attribute target resolves to itself; a dotted target resolves to what `ImportOwner` gives for its owner path, paired with its last component, and fails with the same exception; a dotted string without a dot fails with `ValueError` |
| Patcher.ImportOwner | otx/algorithms/common/adapters/nncf/patchers/patcher.py:83-89 | a non-empty path that imports gives its module; otherwise the attribute named by the last component of the module named by the rest; `ValueError` exactly for an empty path or an empty module part, `ModuleNotFoundError` exactly when that module does not import, `AttributeError` exactly when it lacks the attribute |
| Patcher.DottedClassKey | otx/algorithms/common/adapters/nncf/patchers/patcher.py:83-131 | patching `"m.C.f"` for a class `C` of module `m` resolves, through the fallback, to the class and the key `(m.C, f)` its function object gets |
| Patcher.KeyOf | otx/algorithms/common/adapters/nncf/patchers/patcher.py:94-145 | the key keeps the function name; only instances are keyed by identity, and an identity key gives the instance back |
| Patcher.ClassKeysCollide | otx/algorithms/common/adapters/nncf/patchers/patcher.py:130-131 | two classes with the same `__module__` and `__name__` share every key |
| Patcher.DottedModuleKey | otx/algorithms/common/adapters/nncf/patchers/patcher.py:57-95 | patching `"m.f"` for a module `m` that imports uses the registry key `(m, f)` |
| Patcher.ImportPathUnique | otx/algorithms/common/adapters/nncf/patchers/patcher.py:57-59 | a string splits at its last dot in one way only |
| Patcher.InitializeSpec | otx/algorithms/common/adapters/nncf/patchers/patcher.py:153-160 | an unseen key is appended with an empty stack; forced, the key's stack is emptied and its bottom function returned (`None` if it was empty); unforced, the stack is kept and `None` returned; every other key keeps its stack and position |
| Patcher.PatchSpec | otx/algorithms/common/adapters/nncf/patchers/patcher.py:92-151 | a patch pushes exactly one entry on its own key, wrapping the bottom function when forced and the current attribute otherwise; the attribute becomes that wrapper bound to it; other keys, their stacks and the key order are unchanged |
| Patcher.PatchAll | otx/algorithms/common/adapters/nncf/patchers/patcher.py:23-53 | a run of patches keeps the registry well formed and the attribute present |
| Patcher.ForcePatchTwice | otx/algorithms/common/adapters/nncf/patchers/patcher.py:153-160 | force-patching twice equals force-patching once with the later wrapper |
| Patcher.ForcedPatch | otx/algorithms/common/adapters/nncf/patchers/patcher.py:153-160 | a forced patch leaves `ForcedState`: the key, in its old position or appended, holds the single entry (bottom function, wrapper), and the attribute is the wrapper around that bottom function (the current attribute when the stack was empty) |
| Patcher.ForcedTwice | otx/algorithms/common/adapters/nncf/patchers/patcher.py:153-160 | a forced patch of a force-patched attribute wraps the same bottom function, so only the later wrapper remains |
| Patcher.ForcedRun | otx/algorithms/common/adapters/nncf/patchers/patcher.py:153-160 | a non-empty run of forced patches leaves the closed-form state of its last wrapper alone |
| Patcher.ForcePatchesDoNotStack | otx/algorithms/common/adapters/nncf/patchers/patcher.py:153-160 | any non-empty run of forced patches equals the last one alone: wrappers never stack |
| Patcher.UnforcedStep | otx/algorithms/common/adapters/nncf/patchers/patcher.py:96-100 | an unforced patch pushes one more layer: the new entry wraps the attribute as the earlier layers left it |
| Patcher.UnforcedPatchesStack | otx/algorithms/common/adapters/nncf/patchers/patcher.py:96-100 | unforced patches stack: entry `i` holds the attribute as the first `i` wrappers left it, and the attribute nests all wrappers |
| Patcher.UnforcedPatchesFromFresh | otx/algorithms/common/adapters/nncf/patchers/patcher.py:96-100 | from a never-patched attribute, `n` unforced patches give `n` entries, the bottom one holding the original function |
| Patcher.NestSnoc | otx/algorithms/common/adapters/nncf/patchers/patcher.py:99 | one more wrapper is outermost around the earlier nest |
| Patcher.ForcePatchWrapsOriginal | otx/algorithms/common/adapters/nncf/patchers/patcher.py:153-160 | after any history of patches, a forced patch wraps the original pre-patch function and leaves a stack of length 1 |
| Patcher.BottomPreserved | otx/algorithms/common/adapters/nncf/patchers/patcher.py:153-160 | once a stack is non-empty, every later patch keeps its bottom function |
| Patcher.Namespace.constructor | otx/algorithms/common/adapters/nncf/patchers/patcher.py:83-89 | the module table, the class table of each module and the attribute table are those given |
| Patcher.Patcher.constructor | otx/algorithms/common/adapters/nncf/patchers/patcher.py:20-21 | the registry starts empty |
| Patcher.Patcher.Initialize | otx/algorithms/common/adapters/nncf/patchers/patcher.py:153-160 | the `while … pop()` loop leaves the registry and return value given by `InitializeSpec` |
| Patcher.Patcher.PatchModuleFn | otx/algorithms/common/adapters/nncf/patchers/patcher.py:92-100 | key `(module name, fn name)`; registry and attributes become `PatchSpec` of the old ones |
| Patcher.Patcher.PatchClassFn | otx/algorithms/common/adapters/nncf/patchers/patcher.py:102-141 | key `(module + "." + class, fn name)`; registry and attributes become `PatchSpec` of the old ones |
| Patcher.Patcher.PatchInstanceFn | otx/algorithms/common/adapters/nncf/patchers/patcher.py:143-151 | key `(id(obj), fn name)`; registry and attributes become `PatchSpec` of the old ones |
| Patcher.Patcher.Patch | otx/algorithms/common/adapters/nncf/patchers/patcher.py:23-53 | an import failure raises and changes nothing; a missing attribute returns with nothing changed; otherwise the state is `PatchSpec` of the old state |
| AnomalyLitModel.Kept | src/otx/core/model/module/anomaly.py:211-219 | exactly the keys not starting with `model.model` and not extra-info keys survive, with their values |
| AnomalyLitModel.MovedSpec | src/otx/core/model/module/anomaly.py:213-216 | the moved map has `p + e ↦ base[e]` for each listed key present, and nothing else |
| AnomalyLitModel.MovedKeys | src/otx/core/model/module/anomaly.py:213-216 | every moved key is under `anomaly_lightning_model.`, survives the filter, and is neither the class key nor an extra key |
| AnomalyLitModel.SavedStateMoves | src/otx/core/model/module/anomaly.py:207-219 | the saved dict maps `anomaly_lightning_model_class` to the class name, has no `model.model*` key, no top-level extra key, and each present extra key under the prefix with its value |
| AnomalyLitModel.SavedStateKeeps | src/otx/core/model/module/anomaly.py:209-219 | every other kept key keeps its value, and no key appears from nowhere |
| AnomalyLitModel.SavedStateSteps | src/otx/core/model/module/anomaly.py:205-219 | setting the class key, filtering, copying the extras under the prefix and popping them gives `SavedState` |
| AnomalyLitModel.SavedState | src/otx/core/model/module/anomaly.py:205-221 | defines the dict `state_dict` returns; its properties are `Kept`, `MovedSpec`, `SavedStateMoves`, `SavedStateKeeps` and `SavedWellFormed` |
| AnomalyLitModel.AnomalyLitModule.StateDict | src/otx/core/model/module/anomaly.py:205-221 | the filter and the two reorder loops produce `SavedState` of the base state dict |
| AnomalyLitModel.CopyUnder | src/otx/core/model/module/anomaly.py:213-216 | the first reorder loop adds the moved copies to the dict |
| AnomalyLitModel.PopKeys | src/otx/core/model/module/anomaly.py:243-246 | the pop loop removes exactly the listed keys |
| AnomalyLitModel.SubState | src/otx/core/model/module/anomaly.py:228-233 | the extracted sub-state is a well-formed dict, and the only error is the `IndexError` of `split(...)[1]` |
| AnomalyLitModel.Restore | src/otx/core/model/module/anomaly.py:236-240 | restoring keeps every key and value not under the destination prefix, adds only keys under it, and fails only with `IndexError` |
| AnomalyLitModel.ExtractState | src/otx/core/model/module/anomaly.py:228-233 | the extraction loop computes `SubState` |
| AnomalyLitModel.RestoreInPlace | src/otx/core/model/module/anomaly.py:236-240 | the restore loop mutates the checkpoint to `Restore`'s result, or fails with its error |
| AnomalyLitModel.LoadDropsBookkeeping | src/otx/core/model/module/anomaly.py:224-246 | after a load, neither the class key nor any of the four extra keys under the prefix remain |
| AnomalyLitModel.SubStateWellFormed | src/otx/core/model/module/anomaly.py:227-233 | for well-formed keys the sub-state has `X ↦ v` exactly for each `anomaly_lightning_model.X ↦ v` |
| AnomalyLitModel.RestoreWellFormed | src/otx/core/model/module/anomaly.py:236-240 | each `anomaly_lightning_model.model.Y` gains the twin `model.model.Y` with the same value |
| AnomalyLitModel.RestoreCopies | src/otx/core/model/module/anomaly.py:236-240 | when each key under the twin prefix splits at the separator and no key is already under the destination, the loop succeeds and copies each `sep + Y` to `dst + Y` |
| AnomalyLitModel.TwinSplit | src/otx/core/model/module/anomaly.py:238 | for a well-formed twin key, `split('anomaly_lightning_model.model.')[1]` is everything after the prefix |
| AnomalyLitModel.AnomalibKeys | src/otx/core/model/module/anomaly.py:224-227 | popping the class key keeps the dict well formed and the prefixed keys unchanged |
| AnomalyLitModel.LoadWellFormed | src/otx/core/model/module/anomaly.py:223-233 | a well-formed checkpoint loads; the anomalib module is named by the class key and gets `X ↦ v` exactly for each `anomaly_lightning_model.X ↦ v` |
| AnomalyLitModel.LoadSpec | src/otx/core/model/module/anomaly.py:223-248 | defines the outcome of `load_state_dict`: `KeyError` without the class key, `AttributeError` for a non-string name, otherwise `LoadPopped`; its properties are `LoadWellFormed`, `LoadRestoresModel`, `LoadDropsBookkeeping` and `SaveThenLoad` |
| AnomalyLitModel.LoadPopped | src/otx/core/model/module/anomaly.py:225-246 | defines the rest of a load after the class name is popped: the sub-state, the restored checkpoint less the four extra keys, or the first error; stated by `AnomalyLitModule.LoadAfterPop` |
| AnomalyLitModel.LoadRestoresModel | src/otx/core/model/module/anomaly.py:236-240 | after a load every present twin `anomaly_lightning_model.model.Y` has restored `model.model.Y` with its value |
| AnomalyLitModel.RestoredTwin | src/otx/core/model/module/anomaly.py:236-240 | the same for one twin key |
| AnomalyLitModel.MovedWellFormed | src/otx/core/model/module/anomaly.py:213-216 | moved keys are well formed and are not twins |
| AnomalyLitModel.SavedWellFormed | src/otx/core/model/module/anomaly.py:205-219 | saving a well-formed state dict gives a well-formed one |
| AnomalyLitModel.TwinSaved | src/otx/core/model/module/anomaly.py:211 | twin keys survive saving with their values |
| AnomalyLitModel.SaveThenLoad | src/otx/core/model/module/anomaly.py:205-248 | loading what `state_dict` saved succeeds, sets up the anomalib model from the saved class name, and restores every `model.model.Y` whose twin `anomaly_lightning_model.model.Y` was saved |
| AnomalyLitModel.AnomalyLitModule.LoadStateDict | src/otx/core/model/module/anomaly.py:223-248 | missing class key → `KeyError`; non-string name → `AttributeError`; otherwise the loops produce `LoadSpec`: a fresh anomalib module with the sub-state, and the checkpoint rewritten in place |
| AnomalyLitModel.AnomalyLitModule.LoadAfterPop | src/otx/core/model/module/anomaly.py:225-246 | after the class name is popped: a fresh anomalib module of that name holding the extracted sub-state, the twin keys restored and the extra keys popped from the checkpoint in place; or the sub-state's `IndexError`, or the restore loop's `IndexError` (a key under `anomaly_lightning_model.model` with no following dot) |
| AnomalyLitModel.AnomalibModule.constructor | src/otx/core/model/module/anomaly.py:140-146 | the anomalib module is created by class name with an empty state |
| AnomalyLitModel.AnomalyLitModule.constructor | src/otx/core/model/module/anomaly.py:128-138 | the wrapper holds the anomalib module and the optimizer |
| AnomalyLitModel.AnomalyLitModule.ConfigureOptimizers | src/otx/core/model/module/anomaly.py:179-187 | `{"optimizer": self.optimizer}` iff the anomalib model configures optimizers and an optimizer is set, otherwise `None` |
| AnomalyLitModel.RouteCallback.constructor | src/otx/core/model/module/anomaly.py:31-32 | the wrapped callbacks are those given |
| AnomalyLitModel.RouteCallback.CallOnAnomalibModel | src/otx/core/model/module/anomaly.py:34-43 | calls exactly the callbacks defining the hook, in list order, with the anomalib module as `pl_module` and the same keyword arguments |
| AnomalyLitModel.RouteCallback.OnHook | src/otx/core/model/module/anomaly.py:45-119 | each hook calls exactly the callbacks defining it, in list order, under its own name, with the anomalib module as `pl_module` and the keyword arguments it received |
| ClsDataset.LabelIndex | external/model-preparation-algorithm/mpa_tasks/extensions/datasets/mpa_cls_dataset.py:22 | keys are exactly the label ids; each maps to a position holding that id, the last one when ids repeat |
| ClsDataset.ClassNames | external/model-preparation-algorithm/mpa_tasks/extensions/datasets/mpa_cls_dataset.py:23 | the class names, one per label, in label order |
| ClsDataset.ImageIndices | external/model-preparation-algorithm/mpa_tasks/extensions/datasets/mpa_cls_dataset.py:26-31 | keys `old` and `new`, empty unless given, then both taken from the argument |
| ClsDataset.BuildStages | external/model-preparation-algorithm/mpa_tasks/extensions/datasets/mpa_cls_dataset.py:34-38 | one pipeline per stage key, each the stage's steps behind `LoadImageFromOTEDataset` |
| ClsDataset.ClsDataset.constructor | external/model-preparation-algorithm/mpa_tasks/extensions/datasets/mpa_cls_dataset.py:19-43 | label index, classes, image indices as above; `num_pipes` is the stage count for a dict pipeline and 1 for a list one, every pipeline starting with the image loader; no ground truth yet; `class_acc` starts false, which is the corrected behaviour of the Findings row (the source never assigns it here) |
| ClsDataset.OneHotRow | external/model-preparation-algorithm/mpa_tasks/extensions/datasets/mpa_cls_dataset.py:149-150 | a row of `len(CLASSES)` zeros with a single 1 at the label id (numpy's negative-index wrap included), `IndexError` when the id is out of range |
| ClsDataset.Collect | external/model-preparation-algorithm/mpa_tasks/extensions/datasets/mpa_cls_dataset.py:46-53 | defines the loading loop over the items; stated by `CollectErrPersists`, `CollectSucceeds` and `CollectKept` |
| ClsDataset.SingleGt | external/model-preparation-algorithm/mpa_tasks/extensions/datasets/mpa_cls_dataset.py:47-52 | defines the single-label entry: `None` for an unannotated item, else the first label's id, `IndexError` for an annotation without labels; stated by `SingleLabels` |
| ClsDataset.MultiGt | external/model-preparation-algorithm/mpa_tasks/extensions/datasets/mpa_cls_dataset.py:143-152 | defines the multilabel entry: none for an unannotated item, else the one-hot row of the first label; stated by `MultiGtCases` |
| ClsDataset.CollectErrPersists | external/model-preparation-algorithm/mpa_tasks/extensions/datasets/mpa_cls_dataset.py:47-52 | an item that raises makes the whole loading raise |
| ClsDataset.SingleLabels | external/model-preparation-algorithm/mpa_tasks/extensions/datasets/mpa_cls_dataset.py:46-53 | single-label loading gives one entry per item, in order: none for an unannotated item, else the id of the first label of the first annotation |
| ClsDataset.MultiLabels | external/model-preparation-algorithm/mpa_tasks/extensions/datasets/mpa_cls_dataset.py:143-152 | multilabel loading gives one one-hot row per annotated item only, in order, so at most one per item |
| ClsDataset.CollectSucceeds | external/model-preparation-algorithm/mpa_tasks/extensions/datasets/mpa_cls_dataset.py:143-152 | collecting a per-item rule succeeds iff it succeeds on every item, and otherwise fails with the rule's one error |
| ClsDataset.CollectKept | external/model-preparation-algorithm/mpa_tasks/extensions/datasets/mpa_cls_dataset.py:143-152 | a successful collection holds exactly one result per kept item, in order, each the rule's value on that item |
| ClsDataset.MultiGtCases | external/model-preparation-algorithm/mpa_tasks/extensions/datasets/mpa_cls_dataset.py:145-151 | an unannotated item yields no row; an annotated one yields the one-hot row of its first label |
| ClsDataset.ClsDataset.LoadAnnotations | external/model-preparation-algorithm/mpa_tasks/extensions/datasets/mpa_cls_dataset.py:46-53 | the loop appends exactly the entries of `SingleLabels`/`MultiLabels`, or raises their error |
| ClsDataset.Top1 | external/model-preparation-algorithm/mpa_tasks/extensions/datasets/mpa_cls_dataset.py:132 | the predicted class is an index of a maximal score, the last one among equal maximal scores; `None` for an empty row |
| ClsDataset.Accuracy | external/model-preparation-algorithm/mpa_tasks/extensions/datasets/mpa_cls_dataset.py:133-137 | defines one class's top-1 accuracy; `AccuracyBounds` states that it is `NaN` exactly for a class without images and otherwise lies in [0, 1] |
| ClsDataset.ClassAccuracies | external/model-preparation-algorithm/mpa_tasks/extensions/datasets/mpa_cls_dataset.py:130-138 | defines `__class_accuracy`: one accuracy per class, `IndexError` when the mask does not match the results |
| ClsDataset.VStack | external/model-preparation-algorithm/mpa_tasks/extensions/datasets/mpa_cls_dataset.py:122 | defines `np.vstack` on score rows: `ValueError` for no batch or rows of different widths, otherwise the rows in batch order |
| ClsDataset.HitsAtMostTotal | external/model-preparation-algorithm/mpa_tasks/extensions/datasets/mpa_cls_dataset.py:134-136 | correct top-1 predictions of a class are at most the images of that class |
| ClsDataset.AccuracyBounds | external/model-preparation-algorithm/mpa_tasks/extensions/datasets/mpa_cls_dataset.py:134-136 | a class accuracy is NaN exactly when the class has no image, else between 0 and 1 |
| ClsDataset.SumBounds | external/model-preparation-algorithm/mpa_tasks/extensions/datasets/mpa_cls_dataset.py:126 | the sum of accuracies in [0,1] lies between 0 and their count |
| ClsDataset.MeanBounds | external/model-preparation-algorithm/mpa_tasks/extensions/datasets/mpa_cls_dataset.py:126 | the mean of a non-empty list of numeric accuracies in [0,1] is numeric and in [0,1] |
| ClsDataset.ClsDataset.ClassAccuracy | external/model-preparation-algorithm/mpa_tasks/extensions/datasets/mpa_cls_dataset.py:130-138 | the loop yields, per class, hits over images of that class |
| ClsDataset.EntriesSpec | external/model-preparation-algorithm/mpa_tasks/extensions/datasets/mpa_cls_dataset.py:125 | the zipped entries map each key to the value at its last position |
| ClsDataset.AccuracyKeys | external/model-preparation-algorithm/mpa_tasks/extensions/datasets/mpa_cls_dataset.py:125 | the `'<name> accuracy'` key of each class |
| ClsDataset.AccuracyKeysDistinct | external/model-preparation-algorithm/mpa_tasks/extensions/datasets/mpa_cls_dataset.py:125 | distinct class names give distinct accuracy keys |
| ClsDataset.WithAccuraciesSpec | external/model-preparation-algorithm/mpa_tasks/extensions/datasets/mpa_cls_dataset.py:125-126 | the update adds one key per class and `mean accuracy`, keeps the rest |
| ClsDataset.RemoveFirst | external/model-preparation-algorithm/mpa_tasks/extensions/datasets/mpa_cls_dataset.py:115 | `list.remove` of a present name takes out exactly one occurrence of it, leaving the other elements with their multiplicities; an absent name leaves the list unchanged |
| ClsDataset.RemoveFirstAt | external/model-preparation-algorithm/mpa_tasks/extensions/datasets/mpa_cls_dataset.py:115 | the occurrence taken out is the first one, and the elements before and after it stay in order |
| ClsDataset.ClsDataset.Evaluate | external/model-preparation-algorithm/mpa_tasks/extensions/datasets/mpa_cls_dataset.py:85-128 | removes `class_accuracy` from a caller's list in place, sets the sticky flag, and returns `EvaluateResult` |
| ClsDataset.ClsDataset.EvaluateResult | external/model-preparation-algorithm/mpa_tasks/extensions/datasets/mpa_cls_dataset.py:85-128 | defines what `evaluate` returns; stated by `EvaluateWithoutClassAccuracy` and `EvaluateClassAccuracy` |
| ClsDataset.ClsDataset.EvaluateWithoutClassAccuracy | external/model-preparation-algorithm/mpa_tasks/extensions/datasets/mpa_cls_dataset.py:106-128 | with the flag clear and `class_accuracy` not asked for, the result is the base evaluation with `topk` (1,5) for at least five classes, else (1,) |
| ClsDataset.ClsDataset.EvaluateClassAccuracy | external/model-preparation-algorithm/mpa_tasks/extensions/datasets/mpa_cls_dataset.py:114-126 | with the flag set, the base entries are kept and every class gets its accuracy plus the mean accuracy |
| ClsDataset.SelectRows | external/model-preparation-algorithm/mpa_tasks/extensions/datasets/mpa_cls_dataset.py:184-185 | `gt_labels[indices]` picks the indexed rows with numpy's negative wrap, `IndexError` out of range |
| ClsDataset.RecordRequestedSpec | external/model-preparation-algorithm/mpa_tasks/extensions/datasets/mpa_cls_dataset.py:197-203 | exactly the requested performance keys among those zipped are recorded, with their values |
| ClsDataset.PerformanceKeysDistinct | external/model-preparation-algorithm/mpa_tasks/extensions/datasets/mpa_cls_dataset.py:198 | the six performance keys are distinct |
| ClsDataset.ClsDataset.MultilabelEvaluate | external/model-preparation-algorithm/mpa_tasks/extensions/datasets/mpa_cls_dataset.py:173-205 | once the results stack and the selected labels match them in number, `ValueError` iff a metric is outside the seven allowed; otherwise `mAP` and each requested performance value are recorded, nothing unrequested, and exactly the requested keys when all six values exist |
| ClsDataset.ClsDataset.EvaluateMultilabel | external/model-preparation-algorithm/mpa_tasks/extensions/datasets/mpa_cls_dataset.py:154-205 | results that do not stack raise `ValueError`, an index outside the labels `IndexError`, a count of results other than that of the selected labels `AssertionError`, before any metric is checked |
| ClsDataset.RequestedSpec | external/model-preparation-algorithm/mpa_tasks/extensions/datasets/mpa_cls_dataset.py:190-205 | `ValueError` iff a metric is not the map key or a performance key; otherwise the map value and each requested performance value are recorded, no unrequested key, and exactly the requested keys when every performance value exists |
| ClsDataset.ClassAccFlagAsWritten | external/model-preparation-algorithm/mpa_tasks/extensions/datasets/mpa_cls_dataset.py:114-121 | reading `class_acc` before it was ever assigned raises `AttributeError` unless `class_accuracy` is requested |
| ClsDataset.FirstEvaluateRaises | external/model-preparation-algorithm/mpa_tasks/extensions/datasets/mpa_cls_dataset.py:114-121 | a new dataset's first `evaluate(metric='accuracy')` raises as written, and gives the base result with the flag initialised false |
| ClsDataset.Create | external/model-preparation-algorithm/mpa_tasks/extensions/datasets/mpa_cls_dataset.py:19-44 | a missing `pipeline` keyword or missing `old`/`new` raises `KeyError`; otherwise a fresh dataset whose ground truth is that of the loading rule, or the loading error |
| ClsDataset.StrList.constructor | external/model-preparation-algorithm/mpa_tasks/extensions/datasets/mpa_cls_dataset.py:109-112 | a metric list holds the names given |
| EvalCli.CheckLabelSchemas | otx/cli/tools/eval.py:65-75 | raises `RuntimeError` iff two labels at the same position within the shorter schema differ in name |
| EvalCli.SchemasAgreeTrailing | otx/cli/tools/eval.py:71 | trailing extra labels are ignored and the check is symmetric |
| EvalCli.SelectEntrypoint | otx/cli/tools/eval.py:96-104 | `.bin`/`.xml`/`.zip` → OpenVINO; `.pth` → NNCF iff the checkpoint is NNCF, else base; any other suffix → `ValueError` |
| EvalCli.EntrypointOfSuffix | otx/cli/tools/eval.py:96-102 | each suffix selects its entrypoint, and `.pth` never OpenVINO |
| EvalCli.DefaultWeights | otx/cli/tools/eval.py:88-89 | given weights are kept; unset (`None` or empty) weights become exactly `<workspace>/models/weights.pth` when a workspace exists, and stay unset otherwise |
| EvalCli.WorkspaceWeightsLoad | otx/cli/tools/eval.py:88-102 | the default weights always dispatch to a PyTorch entrypoint |
| EvalCli.Dir | otx/cli/tools/eval.py:142 | the parent directory is a prefix ending in `/` (or empty), with no `/` after it |
| EvalCli.PerformanceBesideWeights | otx/cli/tools/eval.py:141-142 | the default performance file is `performance.json` in the weights' directory |
| EvalCli.PerformancePath | otx/cli/tools/eval.py:142 | defines the default performance path, `performance.json` after the weights' directory; stated by `PerformanceBesideWeights` |
| EvalCli.IsAnomalyTask | otx/cli/tools/eval.py:108 | defines `is_anomaly_task`: a template is given and contains `anomaly`; used by `Run` for `update_data_yaml` |
| EvalCli.DefaultPerformance | otx/cli/tools/eval.py:141-142 | a given path is kept, an unset one defaults beside the weights |
| EvalCli.PerformanceRecord | otx/cli/tools/eval.py:143-147 | the record has exactly one entry, score name ↦ score value |
| EvalCli.Args.constructor | otx/cli/tools/eval.py:82 | the parsed template, weights and performance paths |
| EvalCli.Run | otx/cli/tools/eval.py:78-149 | weights default then dispatch; the missing-performance assertion; the performance path default; returns `retcode=0`, the template name, and `update_data_yaml` as the negation of "anomaly" in the template |
| Blur.Parameters | external/mmsegmentation/segmentation_tasks/apis/segmentation/model_wrappers/blur.py:50-62 | the base parameters plus `soft_threshold` and `blur_strength`, the others unchanged |
| Blur.DeclaredParameters | external/mmsegmentation/segmentation_tasks/apis/segmentation/model_wrappers/blur.py:55-58 | `soft_threshold` is a float defaulting to 0.5 in [0,1]; `blur_strength` an int defaulting to 1 in [0,25] |
| Blur.Squeeze | external/mmsegmentation/segmentation_tasks/apis/segmentation/model_wrappers/blur.py:86 | `squeeze` drops every unit axis and keeps each other axis size as often as it occurs |
| Blur.SqueezeOrder | external/mmsegmentation/segmentation_tasks/apis/segmentation/model_wrappers/blur.py:86 | squeezing works axis by axis: the squeezed `x + y` is the squeezed `x` followed by the squeezed `y`, so the kept axes stay in order |
| Blur.ChannelsLast | external/mmsegmentation/segmentation_tasks/apis/segmentation/model_wrappers/blur.py:87 | the transpose `(1, 2, 0)` needs rank 3 (`ValueError` otherwise) and moves the first axis last |
| Blur.First | external/mmsegmentation/segmentation_tasks/apis/segmentation/model_wrappers/blur.py:111 | `[0]` needs a non-empty first axis and drops it |
| Blur.ExplainedMetadataSpec | external/mmsegmentation/segmentation_tasks/apis/segmentation/model_wrappers/blur.py:102-114 | a missing feature vector or saliency map sets both to `None`; with both, the feature vector is kept unchanged and the saliency map is the activation map of its first entry at width `original_shape[1]`, height `original_shape[0]`; no other entry changes |
| Blur.ExplainedMetadata | external/mmsegmentation/segmentation_tasks/apis/segmentation/model_wrappers/blur.py:102-114 | defines the metadata after the explanation branch; stated by `ExplainedMetadataSpec` |
| Blur.BlurSegmentation.constructor | external/mmsegmentation/segmentation_tasks/apis/segmentation/model_wrappers/blur.py:40-48 | the wrapper holds the output shapes and parameters; `out_channels` unset |
| Blur.BlurSegmentation.GetOutputs | external/mmsegmentation/segmentation_tasks/apis/segmentation/model_wrappers/blur.py:67-82 | rank 3 → `out_channels = 0`, rank 4 → `shape[1]`, any other rank raises; the name is always `"output"` |
| Blur.BlurSegmentation.Postprocess | external/mmsegmentation/segmentation_tasks/apis/segmentation/model_wrappers/blur.py:85-116 | the hard prediction resized to (`original_shape[1]`, `original_shape[0]`); metadata updated as `ExplainedMetadataSpec` says, and untouched on every error path |

## Left out

- Reflection in `Patcher` is not modelled: `inspect`, `setattr` on real objects, `partial`/`partialmethod` chains, descriptor binding and the non-string branches of `import_obj`. Owners and functions are abstract values, and `Namespace` holds the import and attribute tables. The `getattr(import_module(parent), last)` fallback of `import_obj` looks the last component up in a class table per module.
- `Patcher.ImportOwner`: a name with a leading dot is a relative import, for which Python raises `TypeError`; the model treats it like any other name that does not import. A module that raises while importing is not modelled.
- `Patcher.KeyOf`: Python reuses an `id()` once its object is gone, so a new instance can find a dead instance's stack; the model takes the id as the instance's identity and does not model object lifetimes.
- `Patcher.ForcePatchWrapsOriginal` covers a history of patches of one owner's attribute. When another owner shares its key (two classes with the same names, as `ClassKeysCollide` shows, or a reused instance id), a forced patch wraps the bottom of the shared stack, which can be the other owner's original.
- The assertions on `getfullargspec` arity in `_patch_*_fn` are not modelled. `Patch` dispatches on the kind of owner instead.
- `AnomalyLitModel.AnomalyLitModule.LoadStateDict`: the checkpoint is the inner `ckpt["state_dict"]` dict, so a checkpoint without `"state_dict"` (a `KeyError`) is not modelled. The contract does not say what the checkpoint holds after a failure partway through: the model only keeps it a well-formed dict.
- `AnomalyLitModel.AnomalibModule.constructor`: `importlib` model loading by name and the anomalib class's own `load_state_dict` are not modelled. The module just stores its name and the sub-state it is given.
- `AnomalyLitModel.SaveThenLoad`: the anomalib class is imported from `anomalib.models.image.<name.lower()>` under `name.title()`; the model records the name that is passed, so it promises the saved name, not the same class. The class is the saved one only when title-casing leaves the name unchanged.
- `configure_callbacks`, `setup`, the step methods, `forward`, `export` and the input/output customisation are framework routing or TODO stubs, and are not modelled.
- Tensors and arrays are abstract. Scores are exact reals, not floats, and the NaN of `0/0` is a separate `Score` value. `Top1` breaks ties towards the last maximal index. NumPy's default `argsort` is not stable, so among equal maximal scores the source may pick another one.
- The mmcls base `evaluate`, `mAP`, `average_performance` and `Compose`/`build_from_cfg` are parameters or opaque step lists. `get_gt_labels` (returns the field) and `__len__` hold no logic to state. `__getitem__` (the early return without a pipeline, the `label_idx` lookups and their `KeyError`, `gt_label` set to `None` without ground truth) is outside the modelled core.
- `ClsDataset.SingleLabels`: `int(label.id_)` is taken as already an integer, so a non-numeric id is not modelled.
- `ClsDataset.ClsDataset.MultilabelEvaluate`: the result has exactly the requested keys only when `average_performance` returns all six values, because `zip` stops at the shorter list. The key order of result dicts is not modelled.
- `AnomalyLitModel.AnomalyLitModule.StateDict`: states the keys and values of the saved dict, not their insertion order; the same holds for `LoadStateDict`.
- `ClsDataset.ClsDataset.EvaluateClassAccuracy`: when class names repeat, only the last class's accuracy is stated under their shared key, as the dict comprehension does.
- `EvalCli.Run`: argument parsing, `ConfigManager`, the dataset adapter, task inference, printing and the JSON file write are not modelled. The workspace is an optional root path. The score is a parameter. `is_checkpoint_nncf` is an opaque predicate.
- `EvalCli.DefaultWeights`: the workspace root and `models/weights.pth` are joined as text with `/`; `pathlib`'s normalisation of the joined path is not modelled.
- `EvalCli.Dir`: `pathlib` normalisation is not modelled. The parent is the text up to the last `/`.
- `Blur.BlurSegmentation.Postprocess`: `cv2.resize`, `get_actmap`, `create_hard_prediction_from_soft_prediction` and the warning are not modelled. An image is a record of its source and size.
- The input-type check decorator on `postprocess` is not modelled.
- `Blur.DeclaredParameters`: `NumericalValue` is a record of its type, default and bounds. The base class's parameters are a map argument.

## Findings

| source | as written | input that shows it | evidently intended | confidence | as-written member | corrected member |
|---|---|---|---|---|---|---|
| external/model-preparation-algorithm/mpa_tasks/extensions/datasets/mpa_cls_dataset.py:114-121 | `self.class_acc` is assigned only when `class_accuracy` is requested and is read unconditionally; `__init__` never sets it and does not call the base constructor | a new dataset, then `evaluate(results, metric='accuracy')`: `AttributeError` | the flag starts false, so evaluating without `class_accuracy` returns the base evaluation | not executed | ClsDataset.ClassAccFlagAsWritten | ClsDataset.ClsDataset.EvaluateWithoutClassAccuracy |
