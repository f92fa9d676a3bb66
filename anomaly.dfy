/** The Lightning module that wraps an anomalib model (`OTXAnomalyLitModel`)
    and the callback that routes Lightning hooks to anomalib's callbacks.

    What is modelled is the bookkeeping around the two models: how the
    checkpoint's state dict is rewritten on save and on load, when an
    optimizer is handed to Lightning, and which callbacks a hook reaches.
    Tensors and the other state-dict values are opaque. */
module AnomalyLitModel {
  import opened Wrappers
  import opened Strings
  import opened Dicts

  /** A state-dict value: a text entry (the class names stored as extra
      information) or any other object (a tensor, a flag). */
  datatype Value = Text(text: string) | Tensor(id: nat)

  type StateDict = Dict<string, Value>

  /** The attribute holding the anomalib model, and the key prefix of its state. */
  const AnomalibAttr: string := "anomaly_lightning_model"
  const Prefix: string := AnomalibAttr + "."
  /** The key under which the anomalib model's class name is saved. */
  const ClassKey: string := AnomalibAttr + "_class"
  /** The torch model is shared: saved under `model.model.` and under
      `anomaly_lightning_model.model.`. */
  const ModelAttr: string := "model"
  const TwinPrefix: string := Prefix + ModelAttr
  const TwinSep: string := TwinPrefix + "."
  const ModelModel: string := "model.model"
  const RestorePrefix: string := ModelModel + "."
  /** Extra information that is moved under the anomalib prefix on save... */
  const ExtraSaveKeys: seq<string> := ["image_threshold_class", "pixel_threshold_class", "normalization_class"]
  /** ...and dropped from under it on load. */
  const ExtraLoadKeys: seq<string> := ExtraSaveKeys + ["_is_fine_tuned"]

  /** Keys kept by the comprehension of `state_dict`. */
  predicate KeptOnSave(k: string) {
    !StartsWith(k, ModelModel)
  }

  /** Keys that `load_state_dict` hands to the anomalib model. */
  predicate IsAnomalibKey(k: string) {
    StartsWith(k, AnomalibAttr)
  }

  /** The characters that tell the constant keys apart. */
  lemma ConstantKeys()
    ensures |AnomalibAttr| == 23 && |Prefix| == 24 && |ClassKey| == 29 && |ModelModel| == 11
    ensures AnomalibAttr[0] == 'a' && ModelModel[0] == 'm' && ModelAttr[0] == 'm'
    ensures Prefix[23] == '.' && ClassKey[23] == '_'
    ensures |TwinPrefix| == 29 && |TwinSep| == 30 && TwinPrefix[24] == 'm' && TwinSep[24] == 'm'
    ensures forall e :: e in ExtraLoadKeys ==> 0 < |e| < 24 && e[0] != 'a' && e[0] != 'm'
  {
  }

  /** A key that starts with `p` agrees with `p` on its first characters. */
  lemma StartsWithChar(k: string, p: string, i: nat)
    requires StartsWith(k, p) && i < |p|
    ensures k[i] == p[i]
  {
    assert k[..|p|][i] == k[i];
  }

  /** The extra-information keys and the class key are not prefixed the way
      model keys are. */
  lemma ExtraKeys(e: string)
    requires e in ExtraLoadKeys || e in ExtraSaveKeys
    ensures |e| < |Prefix| && !StartsWith(e, ModelModel) && !IsAnomalibKey(e) && !StartsWith(e, ModelAttr)
  {
    ConstantKeys();
  }

  lemma ClassKeyFacts()
    ensures !StartsWith(ClassKey, Prefix) && IsAnomalibKey(ClassKey)
    ensures !StartsWith(ClassKey, ModelModel) && !StartsWith(ClassKey, RestorePrefix)
  {
    ConstantKeys();
    if StartsWith(ClassKey, Prefix) { StartsWithChar(ClassKey, Prefix, 23); }
    assert ClassKey[..|AnomalibAttr|] == AnomalibAttr;
    if StartsWith(ClassKey, RestorePrefix) { StartsWithChar(ClassKey, RestorePrefix, 0); }
  }

  /** Every key that starts with `p + x` starts with `p`. */
  lemma StartsWithConcat(k: string, p: string, x: string)
    ensures StartsWith(k, p + x) ==> StartsWith(k, p)
  {
    if StartsWith(k, p + x) {
      assert k[..|p|] == k[..|p + x|][..|p|];
    }
  }

  /** The prefixes of a key under `anomaly_lightning_model.model.`. */
  lemma TwinKey(y: string)
    ensures StartsWith(TwinSep + y, TwinSep) && StartsWith(TwinSep + y, TwinPrefix) && StartsWith(TwinSep + y, Prefix)
  {
    StartsWithAppend(TwinSep, y);
    StartsWithAppend(TwinPrefix, ".");
    StartsWithAppend(Prefix, ModelAttr);
    StartsWithTrans(TwinSep + y, TwinSep, TwinPrefix);
    StartsWithTrans(TwinSep + y, TwinPrefix, Prefix);
  }

  /** A key under the anomalib prefix is not a `model.model` key, nor the class key. */
  lemma PrefixedKey(k: string)
    requires StartsWith(k, Prefix)
    ensures IsAnomalibKey(k) && KeptOnSave(k) && k != ClassKey
  {
    ConstantKeys();
    StartsWithConcat(k, AnomalibAttr, ".");
    StartsWithChar(k, Prefix, 0);
    StartsWithChar(k, Prefix, 23);
  }

  /** A restored `model.model.` key is not an anomalib key. */
  lemma RestoredKey(k: string)
    requires StartsWith(k, RestorePrefix)
    ensures !IsAnomalibKey(k) && !StartsWith(k, Prefix)
  {
    ConstantKeys();
    StartsWithChar(k, RestorePrefix, 0);
    if IsAnomalibKey(k) { StartsWithChar(k, AnomalibAttr, 0); }
    if StartsWith(k, Prefix) { StartsWithChar(k, Prefix, 0); }
  }

  /** The state dict `state_dict` produces from the module's own state
      `base` and the anomalib model's class name. */
  function SavedState(base: map<string, Value>, className: string): map<string, Value>
  {
    (Kept(base) + Moved(Prefix, base, ExtraSaveKeys))[ClassKey := Text(className)]
  }

  /** The entries the comprehension of `state_dict` keeps, less the extra
      information. */
  function Kept(base: map<string, Value>): (m: map<string, Value>)
    ensures forall k :: k in m <==> k in base && KeptOnSave(k) && k !in ExtraSaveKeys
    ensures forall k :: k in m ==> m[k] == base[k]
  {
    map k | k in base && KeptOnSave(k) && k !in ExtraSaveKeys :: base[k]
  }

  /** The entries of `base` named in `ks`, each under prefix `p`. */
  function Moved(p: string, base: map<string, Value>, ks: seq<string>): map<string, Value>
  {
    if ks == [] then map[]
    else
      var e := ks[|ks| - 1];
      var rest := Moved(p, base, ks[..|ks| - 1]);
      if e in base then rest[p + e := base[e]] else rest
  }

  /** Exactly the entries of `base` named in `ks` are moved, each to `p + e`. */
  lemma {:induction false} MovedSpec(p: string, base: map<string, Value>, ks: seq<string>)
    ensures forall e :: e in ks && e in base ==> p + e in Moved(p, base, ks) && Moved(p, base, ks)[p + e] == base[e]
    ensures forall k :: k in Moved(p, base, ks) ==>
              StartsWith(k, p) && k[|p|..] in ks && k[|p|..] in base && Moved(p, base, ks)[k] == base[k[|p|..]]
  {
    if ks != [] {
      var init := ks[..|ks| - 1];
      var e := ks[|ks| - 1];
      MovedSpec(p, base, init);
      assert forall e' :: e' in ks ==> e' in init || e' == e;
      PrependInjective(p, e);
      StartsWithAppend(p, e);
      assert (p + e)[|p|..] == e;
    }
  }

  /** The extra-information keys, as a set. */
  function ExtraSaveSet(): set<string>
  {
    Elems(ExtraSaveKeys)
  }

  /** The keys a save moves the extra information to. */
  function MovedTargets(base: map<string, Value>): set<string>
  {
    Moved(Prefix, base, ExtraSaveKeys).Keys
  }

  /** The moved extra information sits under the anomalib prefix, where
      it cannot clash with the class key, a top-level extra key or a
      `model.model` key. */
  lemma MovedKeys(base: map<string, Value>)
    ensures forall k :: k in MovedTargets(base) ==>
              StartsWith(k, Prefix) && KeptOnSave(k) && k != ClassKey && k !in ExtraSaveKeys
  {
    var moved := Moved(Prefix, base, ExtraSaveKeys);
    MovedSpec(Prefix, base, ExtraSaveKeys);
    forall k | k in moved
      ensures StartsWith(k, Prefix) && KeptOnSave(k) && k != ClassKey && k !in ExtraSaveKeys
    {
      PrefixedKey(k);
      if k in ExtraSaveKeys { ExtraKeys(k); }
    }
  }

  /** A save records the anomalib class name, moves each present
      extra-information entry under the anomalib prefix, and leaves no
      `model.model` key and no top-level extra information behind. */
  lemma SavedStateMoves(base: map<string, Value>, className: string)
    ensures var m := SavedState(base, className);
      && ClassKey in m && m[ClassKey] == Text(className)
      && (forall k :: k in m ==> !StartsWith(k, ModelModel))
      && (forall e :: e in ExtraSaveKeys ==> e !in m)
      && (forall e :: e in ExtraSaveKeys && e in base ==> Prefix + e in m && m[Prefix + e] == base[e])
  {
    var m := SavedState(base, className);
    MovedKeys(base);
    MovedSpec(Prefix, base, ExtraSaveKeys);
    ClassKeyFacts();
    forall e | e in ExtraSaveKeys && e in base
      ensures Prefix + e in m && m[Prefix + e] == base[e]
    {
      PrefixedKey(Prefix + e);
    }
  }

  /** Every other key of the module's state keeps its value, and a save
      adds no key beyond the class key and the moved extra information. */
  lemma SavedStateKeeps(base: map<string, Value>, className: string)
    ensures var m := SavedState(base, className);
      && (forall k :: k in base && KeptOnSave(k) && k !in ExtraSaveKeys && k != ClassKey && k !in MovedTargets(base)
                      ==> k in m && m[k] == base[k])
      && (forall k :: k in m ==> k == ClassKey || k in MovedTargets(base) || (k in base && k !in ExtraSaveKeys))
  {
    var m := SavedState(base, className);
    forall k | k in base && KeptOnSave(k) && k !in ExtraSaveKeys && k != ClassKey && k !in MovedTargets(base)
      ensures k in m && m[k] == base[k]
    {
      assert k in Kept(base);
      assert (Kept(base) + Moved(Prefix, base, ExtraSaveKeys))[k] == base[k];
    }
  }

  /** `[p + k for k in ks]`. */
  function PrefixAll(p: string, ks: seq<string>): (r: seq<string>)
    ensures |r| == |ks| && forall i :: 0 <= i < |ks| ==> r[i] == p + ks[i]
  {
    seq(|ks|, i requires 0 <= i < |ks| => p + ks[i])
  }

  /** The extra-information keys that a load drops. */
  function ExtraTargets(): set<string>
  {
    Elems(PrefixAll(Prefix, ExtraLoadKeys))
  }

  /** The keys of a checkpoint whose layout `load_state_dict` expects: every
      anomalib key other than the class key is `anomaly_lightning_model.X`
      where the prefix does not occur again in `X`, and `X` names the shared
      torch model only as `model.<...>`. */
  predicate WellFormedKey(k: string)
  {
    && StartsWith(k, Prefix)
    && !Contains(k[|Prefix|..], Prefix)
    && (StartsWith(k, TwinPrefix) ==> StartsWith(k, TwinSep))
  }

  ghost predicate WellFormed(d: map<string, Value>)
  {
    forall k :: k in d && IsAnomalibKey(k) && k != ClassKey ==> WellFormedKey(k)
  }

  /** The sub-state loop of `load_state_dict` over the keys `ks`, in order:
      each key selected by `keep` is renamed to `key.split(p)[1]`, which
      raises `IndexError` when `p` does not occur in it. */
  function SubState(p: string, keep: string -> bool, d: StateDict, ks: seq<string>): (r: Result<StateDict>)
    requires |p| > 0
    requires forall k :: k in ks ==> k in d.vals
    ensures r.Ok? ==> r.value.Valid()
    ensures r.Err? ==> r.error == IndexError
  {
    if ks == [] then Ok(Empty())
    else
      match SubState(p, keep, d, ks[..|ks| - 1])
      case Err(e) => Err(e)
      case Ok(sub) =>
        var key := ks[|ks| - 1];
        if !keep(key) then Ok(sub)
        else
          match SplitSecond(key, p)
          case None => Err(IndexError)
          case Some(name) => Ok(sub.Set(name, d.vals[key]))
  }

  /** An error raised part way through the sub-state loop ends it. */
  lemma {:induction false} SubStateErrPersists(p: string, keep: string -> bool, d: StateDict, ks: seq<string>, j: nat)
    requires |p| > 0 && forall k :: k in ks ==> k in d.vals
    requires j <= |ks| && SubState(p, keep, d, ks[..j]).Err?
    ensures SubState(p, keep, d, ks).Err?
    decreases |ks|
  {
    if j < |ks| {
      assert ks[..|ks| - 1][..j] == ks[..j];
      SubStateErrPersists(p, keep, d, ks[..|ks| - 1], j);
    } else {
      assert ks[..j] == ks;
    }
  }

  /** The restoring loop of `load_state_dict` over the keys `ks`, in order:
      each key that starts with `src` is copied to `dst + key.split(sep)[1]`,
      which raises `IndexError` when `sep` does not occur in it. */
  function Restore(src: string, sep: string, dst: string, d: StateDict, ks: seq<string>): (r: Result<StateDict>)
    requires d.Valid() && |sep| > 0
    requires forall k :: k in ks ==> k in d.vals
    ensures r.Ok? ==> r.value.Valid()
    ensures r.Ok? ==> forall k :: k in d.vals ==> k in r.value.vals
    ensures r.Ok? ==> forall k :: k in r.value.vals ==> k in d.vals || StartsWith(k, dst)
    ensures r.Ok? ==> forall k :: k in d.vals && !StartsWith(k, dst) ==> r.value.vals[k] == d.vals[k]
    ensures r.Err? ==> r.error == IndexError
  {
    if ks == [] then Ok(d)
    else
      match Restore(src, sep, dst, d, ks[..|ks| - 1])
      case Err(e) => Err(e)
      case Ok(cur) =>
        var key := ks[|ks| - 1];
        if StartsWith(key, src) then
          match SplitSecond(key, sep)
          case None => Err(IndexError)
          case Some(rest) =>
            StartsWithAppend(dst, rest);
            Ok(cur.Set(dst + rest, cur.vals[key]))
        else Ok(cur)
  }

  /** An error raised part way through the restoring loop ends it. */
  lemma {:induction false} RestoreErrPersists(src: string, sep: string, dst: string, d: StateDict, ks: seq<string>, j: nat)
    requires d.Valid() && |sep| > 0 && forall k :: k in ks ==> k in d.vals
    requires j <= |ks| && Restore(src, sep, dst, d, ks[..j]).Err?
    ensures Restore(src, sep, dst, d, ks).Err?
    decreases |ks|
  {
    if j < |ks| {
      assert ks[..|ks| - 1][..j] == ks[..j];
      RestoreErrPersists(src, sep, dst, d, ks[..|ks| - 1], j);
    } else {
      assert ks[..j] == ks;
    }
  }

  /** What a successful load produces: the class name the anomalib model is
      set up from, the state it is given, and the checkpoint state dict
      afterwards. */
  datatype Loaded = Loaded(anomalibName: string, anomalibState: StateDict, state: map<string, Value>)

  /** The sub-state step of a load, on the checkpoint with the class key popped. */
  function LoadSubState(d1: StateDict): Result<StateDict>
    requires d1.Valid()
  {
    SubState(Prefix, IsAnomalibKey, d1, d1.keys)
  }

  /** The restoring step of a load, over the anomalib keys. */
  function LoadRestore(d1: StateDict): Result<StateDict>
    requires d1.Valid()
  {
    Restore(TwinPrefix, TwinSep, RestorePrefix, d1, FilterSeq(d1.keys, IsAnomalibKey))
  }

  /** `load_state_dict` on values: pop the class name, build the anomalib
      sub-state, restore the `model.model.` keys, drop the extra information. */
  function LoadSpec(d: StateDict): Result<Loaded>
    requires d.Valid()
  {
    if ClassKey !in d.vals then Err(KeyError)
    else
      var name := d.vals[ClassKey];
      if !name.Text? then Err(AttributeError)
      else LoadPopped(name.text, d.Remove(ClassKey))
  }

  /** The rest of a load once the class name `name` is popped from `d1`. */
  function LoadPopped(name: string, d1: StateDict): Result<Loaded>
    requires d1.Valid()
  {
    match LoadSubState(d1)
    case Err(e) => Err(e)
    case Ok(sub) =>
      match LoadRestore(d1)
      case Err(e) => Err(e)
      case Ok(d2) => Ok(Loaded(name, sub, d2.vals - ExtraTargets()))
  }

  /** The steps of a load after the class name is popped, with the prefixes
      as parameters: the sub-state of the keys `keep` selects, renamed by
      `p`; then the restoring loop over those keys; then the `extras`
      dropped. */
  function LoadSteps(p: string, keep: string -> bool, src: string, sep: string, dst: string,
                     extras: seq<string>, name: string, d1: StateDict): Result<Loaded>
    requires d1.Valid() && |p| > 0 && |sep| > 0
  {
    match SubState(p, keep, d1, d1.keys)
    case Err(e) => Err(e)
    case Ok(sub) =>
      match Restore(src, sep, dst, d1, FilterSeq(d1.keys, keep))
      case Err(e) => Err(e)
      case Ok(d2) => Ok(Loaded(name, sub, d2.vals - Elems(extras)))
  }

  /** A successful load leaves neither the class key nor any extra
      information under the anomalib prefix in the checkpoint. */
  lemma LoadDropsBookkeeping(d: StateDict)
    requires d.Valid() && LoadSpec(d).Ok?
    ensures ClassKey !in LoadSpec(d).value.state
    ensures forall e :: e in ExtraLoadKeys ==> Prefix + e !in LoadSpec(d).value.state
  {
    ClassKeyFacts();
    forall e | e in ExtraLoadKeys
      ensures Prefix + e in ExtraTargets()
    {
      var i :| 0 <= i < |ExtraLoadKeys| && ExtraLoadKeys[i] == e;
      assert PrefixAll(Prefix, ExtraLoadKeys)[i] == Prefix + e;
    }
  }

  /** On a well-formed checkpoint the sub-state is the anomalib keys with
      the prefix stripped: `X` maps to the value of `anomaly_lightning_model.X`. */
  lemma {:induction false} SubStateWellFormed(d: StateDict, ks: seq<string>)
    requires forall k :: k in ks ==> k in d.vals && (IsAnomalibKey(k) ==> WellFormedKey(k))
    ensures SubState(Prefix, IsAnomalibKey, d, ks).Ok?
    ensures forall x :: x in SubState(Prefix, IsAnomalibKey, d, ks).value.vals <==> Prefix + x in ks
    ensures forall x :: x in SubState(Prefix, IsAnomalibKey, d, ks).value.vals
                        ==> SubState(Prefix, IsAnomalibKey, d, ks).value.vals[x] == d.vals[Prefix + x]
  {
    if ks != [] {
      var init := ks[..|ks| - 1];
      SubStateWellFormed(d, init);
      var key := ks[|ks| - 1];
      assert key in ks;
      var sub := SubState(Prefix, IsAnomalibKey, d, ks).value;
      if IsAnomalibKey(key) {
        var x := key[|Prefix|..];
        assert key == Prefix + x;
        SplitSecondOfPrefixed(Prefix, x);
        PrependInjective(Prefix, x);
        forall y
          ensures y in sub.vals <==> Prefix + y in ks
        {
          assert Prefix + y in ks <==> Prefix + y in init || Prefix + y == key;
        }
      } else {
        forall y
          ensures y in sub.vals <==> Prefix + y in ks
        {
          assert Prefix + y in ks <==> Prefix + y in init || Prefix + y == key;
          StartsWithAppend(Prefix, y);
          PrefixedKey(Prefix + y);
        }
      }
    }
  }

  /** The restoring loop succeeds when every key it splits has `sep` as a
      prefix and splits at it, and none of its keys is already under `dst`;
      it then copies each `sep + Y` among the keys to `dst + Y`. */
  lemma {:induction false} RestoreCopies(src: string, sep: string, dst: string, d: StateDict, ks: seq<string>)
    requires d.Valid() && |sep| > 0
    requires forall k :: k in ks ==> k in d.vals && !StartsWith(k, dst)
    requires forall k :: k in ks && StartsWith(k, src) ==>
               StartsWith(k, sep) && SplitSecond(k, sep) == Some(k[|sep|..])
    requires forall y :: sep + y in ks ==> StartsWith(sep + y, src)
    ensures Restore(src, sep, dst, d, ks).Ok?
    ensures forall y :: sep + y in ks ==>
              dst + y in Restore(src, sep, dst, d, ks).value.vals
              && Restore(src, sep, dst, d, ks).value.vals[dst + y] == d.vals[sep + y]
  {
    if ks != [] {
      var init := ks[..|ks| - 1];
      RestoreCopies(src, sep, dst, d, init);
      var cur := Restore(src, sep, dst, d, init).value;
      var key := ks[|ks| - 1];
      assert key in ks;
      if StartsWith(key, src) {
        var y := key[|sep|..];
        assert key == sep + y;
        var r := Restore(src, sep, dst, d, ks).value;
        assert r == cur.Set(dst + y, cur.vals[key]);
        PrependInjective(dst, y);
        PrependInjective(sep, y);
        forall z | sep + z in ks
          ensures dst + z in r.vals && r.vals[dst + z] == d.vals[sep + z]
        {
          if sep + z != key {
            assert sep + z in init;
          }
        }
      } else {
        forall y | sep + y in ks
          ensures sep + y in init
        {
        }
      }
    }
  }

  /** On a well-formed checkpoint the restoring loop succeeds and copies
      each `anomaly_lightning_model.model.Y` to `model.model.Y`. */
  lemma RestoreWellFormed(d: StateDict, ks: seq<string>)
    requires d.Valid()
    requires forall k :: k in ks ==> k in d.vals && IsAnomalibKey(k) && WellFormedKey(k)
    ensures Restore(TwinPrefix, TwinSep, RestorePrefix, d, ks).Ok?
    ensures forall y :: TwinSep + y in ks ==>
              RestorePrefix + y in Restore(TwinPrefix, TwinSep, RestorePrefix, d, ks).value.vals
              && Restore(TwinPrefix, TwinSep, RestorePrefix, d, ks).value.vals[RestorePrefix + y] == d.vals[TwinSep + y]
  {
    forall k | k in ks
      ensures !StartsWith(k, RestorePrefix)
      ensures StartsWith(k, TwinPrefix) ==> StartsWith(k, TwinSep) && SplitSecond(k, TwinSep) == Some(k[|TwinSep|..])
    {
      if StartsWith(k, RestorePrefix) { RestoredKey(k); }
      if StartsWith(k, TwinPrefix) {
        TwinSplit(k);
        StartsWithAppend(TwinSep, k[|TwinSep|..]);
      }
    }
    forall y | TwinSep + y in ks
      ensures StartsWith(TwinSep + y, TwinPrefix)
    {
      TwinKey(y);
    }
    ConstantKeys();
    RestoreCopies(TwinPrefix, TwinSep, RestorePrefix, d, ks);
  }

  /** A well-formed key under `anomaly_lightning_model.model` is
      `anomaly_lightning_model.model.Y`, and splitting it recovers `Y`. */
  lemma TwinSplit(key: string)
    requires WellFormedKey(key) && StartsWith(key, TwinPrefix)
    ensures key == TwinSep + key[|TwinSep|..]
    ensures SplitSecond(key, TwinSep) == Some(key[|TwinSep|..])
  {
    var x := key[|Prefix|..];
    var y := key[|TwinSep|..];
    assert key[..|TwinSep|] == TwinSep;
    assert key == TwinSep + y;
    assert x == (ModelAttr + ".") + y;
    NotContainsSuffix(ModelAttr + ".", y, Prefix);
    NotContainsExtension(y, TwinSep, Prefix);
    SplitSecondOfPrefixed(TwinSep, y);
  }

  /** Only keys under the anomalib prefix are dropped as extra information. */
  lemma NotExtraTarget(k: string)
    requires !StartsWith(k, Prefix)
    ensures k !in ExtraTargets()
  {
  }

  /** The anomalib keys of a well-formed checkpoint, once the class key is
      popped, are all well-formed, and they are exactly its prefixed keys. */
  lemma AnomalibKeys(d: StateDict)
    requires d.Valid() && WellFormed(d.vals)
    ensures var d1 := d.Remove(ClassKey);
      var alm := FilterSeq(d1.keys, IsAnomalibKey);
      && d1.Valid()
      && (forall k :: k in alm ==> k in d1.vals && IsAnomalibKey(k) && WellFormedKey(k))
      && (forall k :: k in d1.keys ==> k in d1.vals && (IsAnomalibKey(k) ==> WellFormedKey(k)))
      && (forall x :: Prefix + x in d1.keys <==> Prefix + x in d.vals)
  {
    var d1 := d.Remove(ClassKey);
    forall x
      ensures Prefix + x in d1.keys <==> Prefix + x in d.vals
    {
      StartsWithAppend(Prefix, x);
      PrefixedKey(Prefix + x);
    }
  }

  /** A well-formed checkpoint with a textual class name loads, and the
      anomalib model gets exactly the prefixed entries with the prefix
      stripped. */
  lemma LoadWellFormed(d: StateDict)
    requires d.Valid() && WellFormed(d.vals)
    requires ClassKey in d.vals && d.vals[ClassKey].Text?
    ensures LoadSpec(d).Ok?
    ensures LoadSpec(d).value.anomalibName == d.vals[ClassKey].text
    ensures forall x :: x in LoadSpec(d).value.anomalibState.vals <==> Prefix + x in d.vals
    ensures forall x :: x in LoadSpec(d).value.anomalibState.vals
                        ==> LoadSpec(d).value.anomalibState.vals[x] == d.vals[Prefix + x]
  {
    var d1 := d.Remove(ClassKey);
    var alm := FilterSeq(d1.keys, IsAnomalibKey);
    AnomalibKeys(d);
    SubStateWellFormed(d1, d1.keys);
    RestoreWellFormed(d1, alm);
    var sub := LoadSubState(d1).value;
    forall x | x in sub.vals
      ensures sub.vals[x] == d.vals[Prefix + x]
    {
      StartsWithAppend(Prefix, x);
      PrefixedKey(Prefix + x);
    }
  }

  /** Loading a well-formed checkpoint copies every
      `anomaly_lightning_model.model.Y` back to `model.model.Y`. */
  lemma LoadRestoresModel(d: StateDict)
    requires d.Valid() && WellFormed(d.vals)
    requires ClassKey in d.vals && d.vals[ClassKey].Text?
    ensures LoadSpec(d).Ok?
    ensures forall y :: TwinSep + y in d.vals ==>
              RestorePrefix + y in LoadSpec(d).value.state
              && LoadSpec(d).value.state[RestorePrefix + y] == d.vals[TwinSep + y]
  {
    LoadWellFormed(d);
    forall y | TwinSep + y in d.vals
      ensures RestorePrefix + y in LoadSpec(d).value.state
      ensures LoadSpec(d).value.state[RestorePrefix + y] == d.vals[TwinSep + y]
    {
      RestoredTwin(d, y);
    }
  }

  lemma RestoredTwin(d: StateDict, y: string)
    requires d.Valid() && WellFormed(d.vals)
    requires ClassKey in d.vals && d.vals[ClassKey].Text?
    requires TwinSep + y in d.vals
    ensures LoadSpec(d).Ok?
    ensures RestorePrefix + y in LoadSpec(d).value.state
    ensures LoadSpec(d).value.state[RestorePrefix + y] == d.vals[TwinSep + y]
  {
    LoadWellFormed(d);
    var d1 := d.Remove(ClassKey);
    var alm := FilterSeq(d1.keys, IsAnomalibKey);
    AnomalibKeys(d);
    RestoreWellFormed(d1, alm);
    var d2 := LoadRestore(d1).value;
    assert LoadSpec(d).value.state == d2.vals - ExtraTargets();
    TwinKey(y);
    PrefixedKey(TwinSep + y);
    assert TwinSep + y in alm;
    StartsWithAppend(RestorePrefix, y);
    RestoredKey(RestorePrefix + y);
    NotExtraTarget(RestorePrefix + y);
  }

  /** A moved extra-information key is well-formed and not under
      `anomaly_lightning_model.model`. */
  lemma MovedKeyWellFormed(e: string)
    requires e in ExtraSaveKeys
    ensures WellFormedKey(Prefix + e) && !StartsWith(Prefix + e, TwinPrefix)
  {
    ConstantKeys();
    var k := Prefix + e;
    StartsWithAppend(Prefix, e);
    assert k[|Prefix|..] == e;
    ShortNotContains(e, Prefix);
    if StartsWith(k, TwinPrefix) {
      StartsWithChar(k, TwinPrefix, 24);
    }
  }

  /** A state dict written by `state_dict` has the layout `load_state_dict`
      expects whenever the module's own state has it. */
  lemma SavedWellFormed(base: map<string, Value>, className: string)
    requires WellFormed(base)
    ensures WellFormed(SavedState(base, className))
  {
    var saved := SavedState(base, className);
    SavedStateKeeps(base, className);
    forall k | k in saved && IsAnomalibKey(k) && k != ClassKey
      ensures WellFormedKey(k)
    {
      if k in MovedTargets(base) {
        MovedWellFormed(base, k);
      }
    }
  }

  /** The keys the extra information is moved to are well-formed. */
  lemma MovedWellFormed(base: map<string, Value>, k: string)
    requires k in MovedTargets(base)
    ensures WellFormedKey(k) && !StartsWith(k, TwinPrefix)
  {
    MovedSpec(Prefix, base, ExtraSaveKeys);
    var e := k[|Prefix|..];
    assert k == k[..|Prefix|] + e;
    MovedKeyWellFormed(e);
  }

  /** A key under `anomaly_lightning_model.model.` of the module's own state
      is saved unchanged. */
  lemma TwinSaved(base: map<string, Value>, className: string, y: string)
    requires TwinSep + y in base
    ensures TwinSep + y in SavedState(base, className)
    ensures SavedState(base, className)[TwinSep + y] == base[TwinSep + y]
  {
    var k := TwinSep + y;
    ConstantKeys();
    TwinKey(y);
    PrefixedKey(k);
    SavedStateKeeps(base, className);
    if k in MovedTargets(base) {
      MovedWellFormed(base, k);
    }
  }

  /** Saving and loading again restores the shared torch model's keys: for
      every `anomaly_lightning_model.model.Y` of the module's own state,
      the checkpoint ends up with `model.model.Y` holding its value (the
      value `state_dict` dropped, when the two were tied), and the anomalib
      model is set up from the saved class name. */
  lemma SaveThenLoad(base: map<string, Value>, className: string, saved: StateDict)
    requires WellFormed(base)
    requires saved.Valid() && saved.vals == SavedState(base, className)
    ensures LoadSpec(saved).Ok?
    ensures LoadSpec(saved).value.anomalibName == className
    ensures forall y :: TwinSep + y in base ==>
              RestorePrefix + y in LoadSpec(saved).value.state
              && LoadSpec(saved).value.state[RestorePrefix + y] == base[TwinSep + y]
  {
    SavedWellFormed(base, className);
    SavedStateMoves(base, className);
    LoadRestoresModel(saved);
    LoadWellFormed(saved);
    forall y | TwinSep + y in base
      ensures TwinSep + y in saved.vals && saved.vals[TwinSep + y] == base[TwinSep + y]
    {
      TwinSaved(base, className, y);
    }
  }

  /** One iteration of the copying loop of `state_dict`. */
  lemma MoveStep(p: string, filtered: map<string, Value>, ks: seq<string>, key: string, current: map<string, Value>)
    requires current == filtered + Moved(p, filtered, ks)
    requires |key| < |p|
    ensures key in current <==> key in filtered
    ensures key in filtered ==> current[key] == filtered[key]
                                && current[p + key := filtered[key]] == filtered + Moved(p, filtered, ks + [key])
    ensures key !in filtered ==> current == filtered + Moved(p, filtered, ks + [key])
  {
    var ks' := ks + [key];
    assert ks'[..|ks'| - 1] == ks;
    var rest := Moved(p, filtered, ks);
    assert Moved(p, filtered, ks') == if key in filtered then rest[p + key := filtered[key]] else rest;
    MovedSpec(p, filtered, ks);
    assert key !in rest;
    if key in filtered {
      var v := filtered[key];
      assert current[p + key := v] == filtered + rest[p + key := v];
    }
  }

  /** Moving depends only on the entries named in `ks`. */
  lemma {:induction false} MovedAgree(p: string, m1: map<string, Value>, m2: map<string, Value>, ks: seq<string>)
    requires forall e :: e in ks ==> (e in m1 <==> e in m2) && (e in m1 ==> m1[e] == m2[e])
    ensures Moved(p, m1, ks) == Moved(p, m2, ks)
  {
    if ks != [] {
      MovedAgree(p, m1, m2, ks[..|ks| - 1]);
    }
  }

  /** The three steps of `state_dict` (record the class name and drop the
      `model.model` keys, copy the extra information, pop it) produce
      `SavedState`. */
  lemma SavedStateSteps(base: map<string, Value>, className: string, filtered: map<string, Value>)
    requires forall k :: k in filtered <==> (k in base || k == ClassKey) && KeptOnSave(k)
    requires forall k :: k in filtered ==> filtered[k] == base[ClassKey := Text(className)][k]
    ensures (filtered + Moved(Prefix, filtered, ExtraSaveKeys)) - ExtraSaveSet() == SavedState(base, className)
  {
    forall e | e in ExtraSaveKeys
      ensures (e in filtered <==> e in base) && (e in filtered ==> filtered[e] == base[e])
    {
      ExtraKeys(e);
      ClassKeyFacts();
    }
    MovedAgree(Prefix, filtered, base, ExtraSaveKeys);
    var lhs := (filtered + Moved(Prefix, base, ExtraSaveKeys)) - ExtraSaveSet();
    var rhs := SavedState(base, className);
    forall k
      ensures k in lhs <==> k in rhs
      ensures k in lhs ==> lhs[k] == rhs[k]
    {
      SavedStepAt(base, className, filtered, k);
    }
    MapsEqual(lhs, rhs);
  }

  lemma SavedStepAt(base: map<string, Value>, className: string, filtered: map<string, Value>, k: string)
    requires forall k :: k in filtered <==> (k in base || k == ClassKey) && KeptOnSave(k)
    requires forall k :: k in filtered ==> filtered[k] == base[ClassKey := Text(className)][k]
    ensures var lhs := (filtered + Moved(Prefix, base, ExtraSaveKeys)) - ExtraSaveSet();
      var rhs := SavedState(base, className);
      (k in lhs <==> k in rhs) && (k in lhs ==> lhs[k] == rhs[k])
  {
    var extras := ExtraSaveSet();
    var moved := Moved(Prefix, base, ExtraSaveKeys);
    MovedSpec(Prefix, base, ExtraSaveKeys);
    if k == ClassKey {
      ClassKeyFacts();
      ConstantKeys();
      assert k !in moved;
      assert k !in extras;
    } else if k in moved {
      assert StartsWith(k, Prefix);
      assert k !in extras by {
        if k in extras { ExtraKeys(k); }
      }
    } else {
      assert k in Kept(base) <==> k in base && KeptOnSave(k) && k !in extras;
    }
  }

  /** The copying loop of `state_dict`: `d[p + key] = d[key]` for each
      `key` of `ks` present in `d`. */
  method CopyUnder(d: StateDict, p: string, ks: seq<string>) returns (r: StateDict)
    requires d.Valid()
    requires forall key :: key in ks ==> |key| < |p|
    ensures r.Valid() && r.vals == d.vals + Moved(p, d.vals, ks)
  {
    r := d;
    for i := 0 to |ks|
      invariant r.Valid()
      invariant r.vals == d.vals + Moved(p, d.vals, ks[..i])
    {
      var key := ks[i];
      assert ks[..i + 1] == ks[..i] + [key];
      MoveStep(p, d.vals, ks[..i], key, r.vals);
      if key in r.vals {
        r := r.Set(p + key, r.vals[key]);
      }
    }
    assert ks[..|ks|] == ks;
  }

  /** A popping loop: `d.pop(key)` for each `key` of `ks` present in `d`. */
  method PopKeys(d: StateDict, ks: seq<string>) returns (r: StateDict)
    requires d.Valid()
    ensures r.Valid() && r.vals == d.vals - Elems(ks)
  {
    r := d;
    for i := 0 to |ks|
      invariant r.Valid()
      invariant r.vals == d.vals - Elems(ks[..i])
    {
      var key := ks[i];
      assert ks[..i + 1] == ks[..i] + [key];
      RemoveElemsSnoc(d.vals, ks[..i], key);
      if key in r.vals {
        r := r.Remove(key);
      }
    }
    assert ks[..|ks|] == ks;
  }

  /** The sub-state loop of `load_state_dict`: `{key.split(p)[1]: d[key]
      for key in d if keep(key)}`, built key by key. */
  method ExtractState(d: StateDict, p: string, keep: string -> bool) returns (r: Result<StateDict>)
    requires d.Valid() && |p| > 0
    ensures r == SubState(p, keep, d, d.keys)
  {
    var keys := d.keys;
    var sub := Empty();
    for i := 0 to |keys|
      invariant SubState(p, keep, d, keys[..i]) == Ok(sub)
    {
      var key := keys[i];
      ghost var upto := keys[..i + 1];
      assert upto[..|upto| - 1] == keys[..i] && upto[|upto| - 1] == key;
      if keep(key) {
        var name := SplitSecond(key, p);
        if name.None? {
          assert SubState(p, keep, d, upto).Err?;
          SubStateErrPersists(p, keep, d, keys, i + 1);
          return Err(IndexError);
        }
        sub := sub.Set(name.value, d.vals[key]);
      }
    }
    assert keys[..|keys|] == keys;
    r := Ok(sub);
  }

  /** The restoring loop of `load_state_dict`, on the checkpoint's own dict:
      `d[dst + key.split(sep)[1]] = d[key]` for each `key` of `ks` that
      starts with `src`. An error leaves the entries written so far. */
  method RestoreInPlace(ckpt: MutableDict<string, Value>, src: string, sep: string, dst: string, ks: seq<string>)
    returns (r: Outcome)
    requires ckpt.contents.Valid() && |sep| > 0
    requires forall k :: k in ks ==> k in ckpt.contents.vals
    modifies ckpt
    ensures ckpt.contents.Valid()
    ensures var spec := Restore(src, sep, dst, old(ckpt.contents), ks);
            && (r.Pass? <==> spec.Ok?)
            && (spec.Err? ==> r == Fail(spec.error))
            && (spec.Ok? ==> ckpt.contents == spec.value)
  {
    ghost var d := ckpt.contents;
    for i := 0 to |ks|
      invariant Restore(src, sep, dst, d, ks[..i]) == Ok(ckpt.contents)
    {
      var key := ks[i];
      assert ks[..i + 1][..i] == ks[..i];
      if StartsWith(key, src) {
        var rest := SplitSecond(key, sep);
        if rest.None? {
          RestoreErrPersists(src, sep, dst, d, ks, i + 1);
          return Fail(IndexError);
        }
        ckpt.contents := ckpt.contents.Set(dst + rest.value, ckpt.contents.vals[key]);
      }
    }
    assert ks[..|ks|] == ks;
    r := Pass;
  }

  /** An optimizer configured for the OTX module. */
  datatype Optimizer = Optimizer(id: nat)

  /** The anomalib Lightning model held by the OTX module. */
  class AnomalibModule {
    /** `__class__.__name__`. */
    const className: string
    /** The state dict last loaded into it. */
    var state: StateDict

    constructor (className: string)
      ensures this.className == className && state == Empty()
    {
      this.className := className;
      state := Empty();
    }
  }

  class AnomalyLitModule {
    /** `self.anomaly_lightning_model`. */
    var anomalib: AnomalibModule
    /** `self.optimizer`; `None` when no optimizer is configured. */
    var optimizer: Option<Optimizer>
    /** The checkpoint state last handed to the base class's `load_state_dict`. */
    var loaded: StateDict

    constructor (anomalib: AnomalibModule, optimizer: Option<Optimizer>)
      ensures this.anomalib == anomalib && this.optimizer == optimizer && loaded == Empty()
    {
      this.anomalib := anomalib;
      this.optimizer := optimizer;
      loaded := Empty();
    }

    /** `configure_optimizers`: the optimizer is handed to Lightning only
        when the anomalib model configures optimizers itself (its own
        `configure_optimizers()` is truthy) and one is configured here. */
    function ConfigureOptimizers(anomalibConfigures: bool): (r: Option<map<string, Optimizer>>)
      reads this
      ensures r.Some? <==> anomalibConfigures && optimizer.Some?
      ensures r.Some? ==> r.value.Keys == {"optimizer"} && r.value["optimizer"] == optimizer.value
    {
      if anomalibConfigures && optimizer.Some? then Some(map["optimizer" := optimizer.value]) else None
    }

    /** `state_dict`, given the base class's state dict `base`. */
    method StateDict(base: StateDict) returns (sd: StateDict)
      requires base.Valid()
      ensures sd.Valid() && sd.vals == SavedState(base.vals, anomalib.className)
    {
      var d := base.Set(ClassKey, Text(anomalib.className));
      d := d.Filter(KeptOnSave);
      SavedStateSteps(base.vals, anomalib.className, d.vals);
      forall key | key in ExtraSaveKeys ensures |key| < |Prefix| {
        ExtraKeys(key);
      }
      var moved := CopyUnder(d, Prefix, ExtraSaveKeys);
      sd := PopKeys(moved, ExtraSaveKeys);
    }

    /** `load_state_dict`: rewrites the checkpoint's state dict in place,
        sets up a new anomalib model named by the popped class name and
        loads the prefixed entries into it, then hands the checkpoint to the
        base class. */
    method LoadStateDict(ckpt: MutableDict<string, Value>) returns (r: Outcome)
      requires ckpt.contents.Valid()
      modifies this, ckpt
      ensures ckpt.contents.Valid()
      ensures var spec := LoadSpec(old(ckpt.contents));
              && (r.Pass? <==> spec.Ok?)
              && (spec.Err? ==> r == Fail(spec.error))
              && (spec.Ok? ==>
                    && fresh(anomalib)
                    && anomalib.className == spec.value.anomalibName
                    && anomalib.state == spec.value.anomalibState
                    && ckpt.contents.vals == spec.value.state
                    && loaded == ckpt.contents)
    {
      if ClassKey !in ckpt.contents.vals {
        return Fail(KeyError);
      }
      var name := ckpt.contents.vals[ClassKey];
      ckpt.contents := ckpt.contents.Remove(ClassKey);
      if !name.Text? {
        return Fail(AttributeError);
      }
      ghost var d1 := ckpt.contents;
      assert LoadSpec(old(ckpt.contents)) == LoadPopped(name.text, d1);
      assert LoadPopped(name.text, d1)
             == LoadSteps(Prefix, IsAnomalibKey, TwinPrefix, TwinSep, RestorePrefix,
                          PrefixAll(Prefix, ExtraLoadKeys), name.text, d1);
      r := LoadAfterPop(ckpt, name.text, Prefix, IsAnomalibKey, TwinPrefix, TwinSep, RestorePrefix,
                      PrefixAll(Prefix, ExtraLoadKeys));
    }

    /** The rest of `load_state_dict` once the class name is popped, with
        the prefixes as parameters. */
    method LoadAfterPop(ckpt: MutableDict<string, Value>, name: string, p: string, keep: string -> bool,
                      src: string, sep: string, dst: string, extras: seq<string>)
      returns (r: Outcome)
      requires ckpt.contents.Valid() && |p| > 0 && |sep| > 0
      modifies this, ckpt
      ensures ckpt.contents.Valid()
      ensures var spec := LoadSteps(p, keep, src, sep, dst, extras, name, old(ckpt.contents));
              && (r.Pass? <==> spec.Ok?)
              && (spec.Err? ==> r == Fail(spec.error))
              && (spec.Ok? ==>
                    && fresh(anomalib)
                    && anomalib.className == spec.value.anomalibName
                    && anomalib.state == spec.value.anomalibState
                    && ckpt.contents.vals == spec.value.state
                    && loaded == ckpt.contents)
    {
      anomalib := new AnomalibModule(name);
      var keys := FilterSeq(ckpt.contents.keys, keep);
      var sub := ExtractState(ckpt.contents, p, keep);
      if sub.Err? {
        return Fail(sub.error);
      }
      anomalib.state := sub.value;
      r := RestoreInPlace(ckpt, src, sep, dst, keys);
      if r.Fail? {
        return;
      }
      ckpt.contents := PopKeys(ckpt.contents, extras);
      loaded := ckpt.contents;
      r := Pass;
    }
  }

  /** A Lightning callback, as far as routing goes: its identity and the
      names of the hooks it defines. */
  datatype Callback = Callback(id: nat, hooks: set<string>)

  /** A keyword argument value (trainer, outputs, batch, ...). */
  datatype Arg = Arg(id: nat)

  /** One forwarded hook call: `callback.<hook>(pl_module=..., **kwargs)`. */
  datatype HookCall = HookCall(callback: Callback, hook: string, plModule: AnomalibModule, kwargs: map<string, Arg>)

  /** The Lightning hooks `_RouteCallback` forwards. */
  datatype Hook =
    | Setup
    | OnValidationEpochStart | OnValidationBatchEnd | OnValidationEpochEnd
    | OnTestStart | OnTestEpochStart | OnTestBatchEnd | OnTestEpochEnd
    | OnPredictBatchEnd

  function HookName(h: Hook): string
  {
    match h
    case Setup => "setup"
    case OnValidationEpochStart => "on_validation_epoch_start"
    case OnValidationBatchEnd => "on_validation_batch_end"
    case OnValidationEpochEnd => "on_validation_epoch_end"
    case OnTestStart => "on_test_start"
    case OnTestEpochStart => "on_test_epoch_start"
    case OnTestBatchEnd => "on_test_batch_end"
    case OnTestEpochEnd => "on_test_epoch_end"
    case OnPredictBatchEnd => "on_predict_batch_end"
  }

  /** The keyword arguments each hook passes on besides `pl_module`. */
  function HookKwargs(h: Hook): set<string>
  {
    match h
    case Setup => {"trainer", "stage"}
    case OnValidationBatchEnd | OnTestBatchEnd | OnPredictBatchEnd =>
      {"trainer", "outputs", "batch", "batch_idx", "dataloader_idx"}
    case _ => {"trainer"}
  }

  /** `_RouteCallback`: forwards Lightning hooks to anomalib's callbacks. */
  class RouteCallback {
    const callbacks: seq<Callback>

    constructor (callbacks: seq<Callback>)
      ensures this.callbacks == callbacks
    {
      this.callbacks := callbacks;
    }

    /** `_call_on_anomalib_model`: calls `hookName` on exactly the callbacks
        that define it, in list order, passing the anomalib model as
        `pl_module`. */
    method CallOnAnomalibModel(hookName: string, plModule: AnomalyLitModule, kwargs: map<string, Arg>)
      returns (calls: seq<HookCall>)
      ensures var defining := FilterSeq(callbacks, (c: Callback) => hookName in c.hooks);
              && |calls| == |defining|
              && forall i :: 0 <= i < |calls| ==> calls[i] == HookCall(defining[i], hookName, plModule.anomalib, kwargs)
    {
      var anomalibModule := plModule.anomalib;
      calls := [];
      for i := 0 to |callbacks|
        invariant var defining := FilterSeq(callbacks[..i], (c: Callback) => hookName in c.hooks);
                  && |calls| == |defining|
                  && forall j :: 0 <= j < |calls| ==> calls[j] == HookCall(defining[j], hookName, anomalibModule, kwargs)
      {
        var callback := callbacks[i];
        FilterSeqSnoc(callbacks[..i], callback, (c: Callback) => hookName in c.hooks);
        assert callbacks[..i + 1] == callbacks[..i] + [callback];
        if hookName in callback.hooks {
          calls := calls + [HookCall(callback, hookName, anomalibModule, kwargs)];
        }
      }
      assert callbacks[..|callbacks|] == callbacks;
    }

    /** The hook methods (`setup`, `on_validation_epoch_start`, ...): each
        routes under its own name with the arguments it received. */
    method OnHook(h: Hook, plModule: AnomalyLitModule, kwargs: map<string, Arg>) returns (calls: seq<HookCall>)
      requires kwargs.Keys == HookKwargs(h)
      ensures var defining := FilterSeq(callbacks, (c: Callback) => HookName(h) in c.hooks);
              && |calls| == |defining|
              && forall i :: 0 <= i < |calls| ==> calls[i] == HookCall(defining[i], HookName(h), plModule.anomalib, kwargs)
      ensures forall c :: c in calls ==> c.hook == HookName(h) && HookName(h) in c.callback.hooks
                                         && c.callback in callbacks && c.plModule == plModule.anomalib
      ensures forall c :: c in callbacks && HookName(h) in c.hooks ==> exists call :: call in calls && call.callback == c
    {
      calls := CallOnAnomalibModel(HookName(h), plModule, kwargs);
      var defining := FilterSeq(callbacks, (c: Callback) => HookName(h) in c.hooks);
      forall call | call in calls
        ensures call.hook == HookName(h) && HookName(h) in call.callback.hooks
        ensures call.callback in callbacks && call.plModule == plModule.anomalib
      {
        var i :| 0 <= i < |calls| && calls[i] == call;
        assert defining[i] in defining;
      }
      forall c | c in callbacks && HookName(h) in c.hooks
        ensures exists call :: call in calls && call.callback == c
      {
        var i :| 0 <= i < |defining| && defining[i] == c;
        assert calls[i] in calls;
      }
    }
  }
}
