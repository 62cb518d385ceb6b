/** The per-leaf dictionary of convert.py's `param_dictionary`: which flags a
    leaf layer gets in the exported manifest (`is_leaf`, `has_weight`,
    `has_bias`, `has_<key>`) and where its tensors are stored. */
module ParamDicts {

  datatype Option<T> = None | Some(value: T)

  /** `hasattr(module, name)` and `module.name != None` together: an attribute
      may be missing, present but None, or present. */
  datatype Attr = Absent | NoneValue | Present

  /** A torch module as `param_dictionary` sees it: its weight and bias
      attributes and the keys of its `state_dict()`, in order. */
  datatype TorchModule = TorchModule(weight: Attr, bias: Attr, stateKeys: seq<string>)

  /** One record of the model summary, in pre-order. */
  datatype LayerInfo = LayerInfo(
    depth: int,
    className: string,
    varName: string,
    isLeafLayer: bool,
    numParams: int,
    leftoverParams: int,
    layerId: int,
    torchModule: TorchModule)

  /** A directory path, one component per `os.path.join`: the root model's
      `<class>_<id>` directory, then one directory per variable name. */
  datatype Segment = RootDir(className: string, layerId: int) | Dir(name: string)
  type Path = seq<Segment>

  /** A dictionary value: an integer, a string, or the path of a csv file
      `<stem>_<layerId>.csv` in directory `dir`. */
  datatype Value = Num(n: int) | Text(s: string) | Csv(dir: Path, stem: string, layerId: int)

  /** A Python dict, as the mapping it holds; the insertion order of its
      keys is not modelled. */
  type Dict = map<string, Value>

  /** `{}`. */
  const EmptyDict: Dict := map[]

  /** `d.get(k)`. */
  function Get(d: Dict, k: string): Option<Value> {
    if k in d then Some(d[k]) else None
  }

  /** `d[k] = v`. */
  function Put(d: Dict, k: string, v: Value): Dict {
    d[k := v]
  }

  // ---------------------------------------------------------------------------
  // Specification of param_dictionary

  function HasKey(k: string): string { "has_" + k }
  function CsvKey(k: string): string { k + "_csv" }

  /** State-dict keys that get their own entries: all but weight and bias. */
  predicate Extra(k: string) { k != "weight" && k != "bias" }

  const RecordKeys: seq<string> := ["is_leaf", "depth", "var_name", "trainable_param"]
  const WeightKeys: seq<string> := ["has_weight", "weight_offset", "weight_csv"]
  const BiasKeys: seq<string> := ["has_bias", "bias_csv"]

  /** The keys param_dictionary sets itself, independent of the state dict. */
  const FixedKeys: seq<string> := RecordKeys + WeightKeys + BiasKeys

  /** The entries copied from the summary record. */
  function RecordPart(info: LayerInfo): Dict {
    Put(Put(Put(Put(EmptyDict, "is_leaf", Num(1)), "depth", Num(info.depth)),
            "var_name", Text(info.varName)), "trainable_param", Num(info.leftoverParams))
  }

  /** The weight entries: a flag and a csv path, or a zero flag, a zero
      offset and the text None. */
  function WeightPart(d: Dict, info: LayerInfo, dir: Path): Dict {
    if info.torchModule.weight.Present? then
      Put(Put(d, "has_weight", Num(1)), "weight_csv", Csv(dir, "weight", info.layerId))
    else
      Put(Put(Put(d, "has_weight", Num(0)), "weight_offset", Num(0)), "weight_csv", Text("None"))
  }

  /** The bias entries, the same way but without an offset. */
  function BiasPart(d: Dict, info: LayerInfo, dir: Path): Dict {
    if info.torchModule.bias.Present? then
      Put(Put(d, "has_bias", Num(1)), "bias_csv", Csv(dir, "bias", info.layerId))
    else
      Put(Put(d, "has_bias", Num(0)), "bias_csv", Text("None"))
  }

  /** Everything filled before the loop over the state dict. */
  function FixedPart(info: LayerInfo, dir: Path): Dict {
    BiasPart(WeightPart(RecordPart(info), info, dir), info, dir)
  }

  /** The loop over the first n state-dict keys. */
  function StateFold(d: Dict, keys: seq<string>, n: nat, dir: Path, id: int): Dict
    requires n <= |keys|
  {
    if n == 0 then d
    else
      var p := StateFold(d, keys, n - 1, dir, id);
      var k := keys[n - 1];
      if Extra(k) then Put(Put(p, HasKey(k), Num(1)), CsvKey(k), Csv(dir, k, id)) else p
  }

  /** The dictionary param_dictionary returns for a leaf record whose csv
      files go to directory `dir`. */
  function LeafDict(info: LayerInfo, dir: Path): Dict {
    StateFold(FixedPart(info, dir), info.torchModule.stateKeys, |info.torchModule.stateKeys|, dir, info.layerId)
  }

  /** `param_dictionary(layer_info, base_path)`; writing the csv files is
      not part of this model, only the paths they would be written to. */
  method ParamDictionary(info: LayerInfo, dir: Path) returns (d: Dict)
    ensures d == LeafDict(info, dir)
  {
    d := EmptyDict;
    d := Put(d, "is_leaf", Num(1));
    d := Put(d, "depth", Num(info.depth));
    d := Put(d, "var_name", Text(info.varName));
    d := Put(d, "trainable_param", Num(info.leftoverParams));
    if info.torchModule.weight.Present? {
      d := Put(d, "has_weight", Num(1));
      d := Put(d, "weight_csv", Csv(dir, "weight", info.layerId));
    } else {
      d := Put(d, "has_weight", Num(0));
      d := Put(d, "weight_offset", Num(0));
      d := Put(d, "weight_csv", Text("None"));
    }
    if info.torchModule.bias.Present? {
      d := Put(d, "has_bias", Num(1));
      d := Put(d, "bias_csv", Csv(dir, "bias", info.layerId));
    } else {
      d := Put(d, "has_bias", Num(0));
      d := Put(d, "bias_csv", Text("None"));
    }
    ghost var fixed := d;
    var keys := info.torchModule.stateKeys;
    for i := 0 to |keys|
      invariant d == StateFold(fixed, keys, i, dir, info.layerId)
    {
      var k := keys[i];
      if k == "weight" || k == "bias" {
        continue;
      }
      d := Put(d, "has_" + k, Num(1));
      d := Put(d, k + "_csv", Csv(dir, k, info.layerId));
    }
  }

  // ---------------------------------------------------------------------------
  // Properties

  /** The nine key names param_dictionary assigns itself are pairwise
      different. */
  lemma KeyNamesDistinct()
    ensures "is_leaf" != "depth" && "is_leaf" != "var_name" && "is_leaf" != "trainable_param"
    ensures "is_leaf" != "has_weight" && "is_leaf" != "weight_offset" && "is_leaf" != "weight_csv"
    ensures "is_leaf" != "has_bias" && "is_leaf" != "bias_csv"
    ensures "depth" != "var_name" && "depth" != "trainable_param" && "depth" != "has_weight"
    ensures "depth" != "weight_offset" && "depth" != "weight_csv" && "depth" != "has_bias" && "depth" != "bias_csv"
    ensures "var_name" != "trainable_param" && "var_name" != "has_weight" && "var_name" != "weight_offset"
    ensures "var_name" != "weight_csv" && "var_name" != "has_bias" && "var_name" != "bias_csv"
    ensures "trainable_param" != "has_weight" && "trainable_param" != "weight_offset"
    ensures "trainable_param" != "weight_csv" && "trainable_param" != "has_bias" && "trainable_param" != "bias_csv"
    ensures "has_weight" != "weight_offset" && "has_weight" != "weight_csv" && "has_weight" != "has_bias"
    ensures "has_weight" != "bias_csv"
    ensures "weight_offset" != "weight_csv" && "weight_offset" != "has_bias" && "weight_offset" != "bias_csv"
    ensures "weight_csv" != "has_bias" && "weight_csv" != "bias_csv"
    ensures "has_bias" != "bias_csv"
  {
    assert "weight_csv"[0] != "has_weight"[0];
    assert "bias_csv"[0] != "has_bias"[0] && "bias_csv"[0] != "var_name"[0] && "has_bias"[0] != "var_name"[0];
  }

  /** No state-dict key other than weight and bias produces one of the fixed
      keys, so the loop never overwrites them. */
  lemma FixedNotDerived(k: string)
    requires Extra(k)
    ensures forall f :: f in FixedKeys ==> HasKey(k) != f && CsvKey(k) != f
  {
    DerivedOnlyFromWeightOrBias(k);
    NotHasKey(k, "is_leaf");
    NotHasKey(k, "depth");
    NotHasKey(k, "var_name");
    NotHasKey(k, "trainable_param");
    NotHasKey(k, "weight_offset");
    NotHasKey(k, "weight_csv");
    NotHasKey(k, "bias_csv");
    NotCsvKey(k, "is_leaf");
    NotCsvKey(k, "depth");
    NotCsvKey(k, "var_name");
    NotCsvKey(k, "trainable_param");
    NotCsvKey(k, "has_weight");
    NotCsvKey(k, "weight_offset");
    NotCsvKey(k, "has_bias");
  }

  /** A `has_` key begins with 'h'. */
  lemma NotHasKey(k: string, f: string)
    requires f != [] && f[0] != 'h'
    ensures HasKey(k) != f
  {
    assert HasKey(k)[0] == 'h';
  }

  /** A `_csv` key ends with 'v'. */
  lemma NotCsvKey(k: string, f: string)
    requires f != [] && f[|f| - 1] != 'v'
    ensures CsvKey(k) != f
  {
    assert CsvKey(k)[|CsvKey(k)| - 1] == 'v';
  }

  /** Only weight and bias themselves would produce the fixed keys that do
      begin with `has_` or end with `_csv`. */
  lemma DerivedOnlyFromWeightOrBias(k: string)
    requires Extra(k)
    ensures HasKey(k) != "has_weight" && HasKey(k) != "has_bias"
    ensures CsvKey(k) != "weight_csv" && CsvKey(k) != "bias_csv"
  {
    assert HasKey(k)[4..] == k;
    assert CsvKey(k)[..|k|] == k;
    assert "has_weight"[4..] == "weight" && "has_bias"[4..] == "bias";
    assert "weight_csv"[..6] == "weight" && "bias_csv"[..4] == "bias";
  }

  lemma {:induction false} StateFoldFrame(d: Dict, keys: seq<string>, n: nat, dir: Path, id: int, f: string)
    requires n <= |keys|
    requires forall k :: k in keys && Extra(k) ==> HasKey(k) != f && CsvKey(k) != f
    ensures Get(StateFold(d, keys, n, dir, id), f) == Get(d, f)
  {
    if n > 0 {
      StateFoldFrame(d, keys, n - 1, dir, id, f);
    }
  }

  /** What the loop leaves of a fixed key is what was there before it. */
  lemma FixedKeysUntouched(info: LayerInfo, dir: Path, f: string)
    requires f in FixedKeys
    ensures Get(LeafDict(info, dir), f) == Get(FixedPart(info, dir), f)
  {
    var keys := info.torchModule.stateKeys;
    forall k | k in keys && Extra(k) ensures HasKey(k) != f && CsvKey(k) != f {
      FixedNotDerived(k);
    }
    StateFoldFrame(FixedPart(info, dir), keys, |keys|, dir, info.layerId, f);
  }

  /** The record entries, read back before anything else is assigned. */
  lemma RecordPartGet(info: LayerInfo)
    ensures Get(RecordPart(info), "is_leaf") == Some(Num(1))
    ensures Get(RecordPart(info), "depth") == Some(Num(info.depth))
    ensures Get(RecordPart(info), "var_name") == Some(Text(info.varName))
    ensures Get(RecordPart(info), "trainable_param") == Some(Num(info.leftoverParams))
    ensures Get(RecordPart(info), "weight_offset") == None
  {
    KeyNamesDistinct();
  }

  lemma WeightPartGet(d: Dict, info: LayerInfo, dir: Path)
    ensures info.torchModule.weight.Present? ==>
      Get(WeightPart(d, info, dir), "has_weight") == Some(Num(1)) &&
      Get(WeightPart(d, info, dir), "weight_csv") == Some(Csv(dir, "weight", info.layerId)) &&
      Get(WeightPart(d, info, dir), "weight_offset") == Get(d, "weight_offset")
    ensures !info.torchModule.weight.Present? ==>
      Get(WeightPart(d, info, dir), "has_weight") == Some(Num(0)) &&
      Get(WeightPart(d, info, dir), "weight_offset") == Some(Num(0)) &&
      Get(WeightPart(d, info, dir), "weight_csv") == Some(Text("None"))
  {
    KeyNamesDistinct();
  }

  lemma BiasPartGet(d: Dict, info: LayerInfo, dir: Path)
    ensures info.torchModule.bias.Present? ==>
      Get(BiasPart(d, info, dir), "has_bias") == Some(Num(1)) &&
      Get(BiasPart(d, info, dir), "bias_csv") == Some(Csv(dir, "bias", info.layerId))
    ensures !info.torchModule.bias.Present? ==>
      Get(BiasPart(d, info, dir), "has_bias") == Some(Num(0)) &&
      Get(BiasPart(d, info, dir), "bias_csv") == Some(Text("None"))
  {
    KeyNamesDistinct();
  }

  /** The weight assignments leave every other key alone. */
  lemma WeightPartFrame(d: Dict, info: LayerInfo, dir: Path, k: string)
    requires k != "has_weight" && k != "weight_offset" && k != "weight_csv"
    ensures Get(WeightPart(d, info, dir), k) == Get(d, k)
  {
    KeyNamesDistinct();
  }

  /** The bias assignments leave every other key alone. */
  lemma BiasPartFrame(d: Dict, info: LayerInfo, dir: Path, k: string)
    requires k != "has_bias" && k != "bias_csv"
    ensures Get(BiasPart(d, info, dir), k) == Get(d, k)
  {
    KeyNamesDistinct();
  }

  /** A leaf is always marked as a leaf and carries its depth, variable name
      and own parameter count. */
  lemma LeafDictRecord(info: LayerInfo, dir: Path)
    ensures Get(LeafDict(info, dir), "is_leaf") == Some(Num(1))
    ensures Get(LeafDict(info, dir), "depth") == Some(Num(info.depth))
    ensures Get(LeafDict(info, dir), "var_name") == Some(Text(info.varName))
    ensures Get(LeafDict(info, dir), "trainable_param") == Some(Num(info.leftoverParams))
  {
    KeyNamesDistinct();
    var r := RecordPart(info);
    var w := WeightPart(r, info, dir);
    RecordPartGet(info);
    forall k | k in RecordKeys ensures Get(LeafDict(info, dir), k) == Get(r, k) {
      FixedKeysUntouched(info, dir, k);
      WeightPartFrame(r, info, dir, k);
      BiasPartFrame(w, info, dir, k);
    }
  }

  /** `has_weight` is 1, and `weight_csv` names the weight file, exactly when
      the module has a weight that is not None; otherwise `has_weight` and
      `weight_offset` are 0 and `weight_csv` is the text None. */
  lemma LeafDictWeight(info: LayerInfo, dir: Path)
    ensures Get(LeafDict(info, dir), "has_weight") == Some(Num(1)) <==> info.torchModule.weight.Present?
    ensures info.torchModule.weight.Present? ==>
      Get(LeafDict(info, dir), "weight_csv") == Some(Csv(dir, "weight", info.layerId)) &&
      Get(LeafDict(info, dir), "weight_offset") == None
    ensures !info.torchModule.weight.Present? ==>
      Get(LeafDict(info, dir), "has_weight") == Some(Num(0)) &&
      Get(LeafDict(info, dir), "weight_offset") == Some(Num(0)) &&
      Get(LeafDict(info, dir), "weight_csv") == Some(Text("None"))
  {
    var r := RecordPart(info);
    var w := WeightPart(r, info, dir);
    RecordPartGet(info);
    WeightPartGet(r, info, dir);
    forall k | k in WeightKeys ensures Get(LeafDict(info, dir), k) == Get(w, k) {
      FixedKeysUntouched(info, dir, k);
      BiasPartFrame(w, info, dir, k);
    }
  }

  /** The same rule for the bias, which has no offset entry. */
  lemma LeafDictBias(info: LayerInfo, dir: Path)
    ensures Get(LeafDict(info, dir), "has_bias") == Some(Num(1)) <==> info.torchModule.bias.Present?
    ensures info.torchModule.bias.Present? ==>
      Get(LeafDict(info, dir), "bias_csv") == Some(Csv(dir, "bias", info.layerId))
    ensures !info.torchModule.bias.Present? ==>
      Get(LeafDict(info, dir), "has_bias") == Some(Num(0)) &&
      Get(LeafDict(info, dir), "bias_csv") == Some(Text("None"))
  {
    var w := WeightPart(RecordPart(info), info, dir);
    BiasPartGet(w, info, dir);
    FixedKeysUntouched(info, dir, "has_bias");
    FixedKeysUntouched(info, dir, "bias_csv");
  }

  /** No key's `has_` entry coincides with a key's `_csv` entry (true of the
      state dicts of torch's layers; the source does not check it). */
  predicate Unambiguous(keys: seq<string>) {
    forall i, j :: 0 <= i < |keys| && 0 <= j < |keys| && Extra(keys[i]) && Extra(keys[j]) ==>
      HasKey(keys[i]) != CsvKey(keys[j])
  }

  lemma {:induction false} StateFoldPresent(d: Dict, keys: seq<string>, n: nat, dir: Path, id: int)
    requires n <= |keys|
    ensures forall j :: 0 <= j < n && Extra(keys[j]) ==>
      HasKey(keys[j]) in StateFold(d, keys, n, dir, id) &&
      CsvKey(keys[j]) in StateFold(d, keys, n, dir, id)
  {
    if n > 0 {
      StateFoldPresent(d, keys, n - 1, dir, id);
    }
  }

  lemma {:induction false} StateFoldValues(d: Dict, keys: seq<string>, n: nat, dir: Path, id: int)
    requires n <= |keys|
    requires Unambiguous(keys)
    ensures forall j :: 0 <= j < n && Extra(keys[j]) ==>
      Get(StateFold(d, keys, n, dir, id), HasKey(keys[j])) == Some(Num(1)) &&
      Get(StateFold(d, keys, n, dir, id), CsvKey(keys[j])) == Some(Csv(dir, keys[j], id))
  {
    if n > 0 {
      StateFoldValues(d, keys, n - 1, dir, id);
      var last := keys[n - 1];
      forall j | 0 <= j < n - 1 && Extra(keys[j]) && keys[j] != last
        ensures HasKey(keys[j]) != HasKey(last) && CsvKey(keys[j]) != CsvKey(last)
      {
        assert HasKey(keys[j])[4..] == keys[j] && HasKey(last)[4..] == last;
        assert CsvKey(keys[j])[..|keys[j]|] == keys[j] && CsvKey(last)[..|last|] == last;
      }
    }
  }

  /** Every state-dict key other than weight and bias gets a `has_<key>`
      and a `<key>_csv` entry; when the key names are unambiguous these hold
      1 and the path of `<key>_<id>.csv`. */
  lemma LeafDictState(info: LayerInfo, dir: Path)
    ensures forall j :: 0 <= j < |info.torchModule.stateKeys| && Extra(info.torchModule.stateKeys[j]) ==>
      HasKey(info.torchModule.stateKeys[j]) in LeafDict(info, dir) &&
      CsvKey(info.torchModule.stateKeys[j]) in LeafDict(info, dir)
    ensures Unambiguous(info.torchModule.stateKeys) ==>
      forall j :: 0 <= j < |info.torchModule.stateKeys| && Extra(info.torchModule.stateKeys[j]) ==>
        Get(LeafDict(info, dir), HasKey(info.torchModule.stateKeys[j])) == Some(Num(1)) &&
        Get(LeafDict(info, dir), CsvKey(info.torchModule.stateKeys[j])) ==
          Some(Csv(dir, info.torchModule.stateKeys[j], info.layerId))
  {
    var keys := info.torchModule.stateKeys;
    StateFoldPresent(FixedPart(info, dir), keys, |keys|, dir, info.layerId);
    if Unambiguous(keys) {
      StateFoldValues(FixedPart(info, dir), keys, |keys|, dir, info.layerId);
    }
  }

  /** The loop keeps every key it finds and adds no key other than the
      `has_`/`_csv` pairs of the keys it does not skip. */
  lemma {:induction false} StateFoldDomain(d: Dict, keys: seq<string>, n: nat, dir: Path, id: int)
    requires n <= |keys|
    ensures forall f :: f in d ==> f in StateFold(d, keys, n, dir, id)
    ensures forall f :: f in StateFold(d, keys, n, dir, id) ==>
      f in d || exists j :: 0 <= j < n && Extra(keys[j]) && (f == HasKey(keys[j]) || f == CsvKey(keys[j]))
  {
    if n > 0 {
      StateFoldDomain(d, keys, n - 1, dir, id);
    }
  }

  /** The assignments before the loop set exactly the fixed keys, with
      `weight_offset` only for a module without a weight. */
  lemma FixedPartDomain(info: LayerInfo, dir: Path)
    ensures forall f :: f in FixedPart(info, dir) ==> f in FixedKeys
    ensures forall f :: f in FixedKeys && f != "weight_offset" ==> f in FixedPart(info, dir)
    ensures "weight_offset" in FixedPart(info, dir) <==> !info.torchModule.weight.Present?
  {
    KeyNamesDistinct();
    RecordPartGet(info);
    var r := RecordPart(info);
    WeightPartGet(r, info, dir);
    BiasPartGet(WeightPart(r, info, dir), info, dir);
    BiasPartFrame(WeightPart(r, info, dir), info, dir, "weight_offset");
  }

  /** The dictionary has every fixed key (`weight_offset` exactly when the
      module has no weight) and no key other than the fixed ones and the
      `has_`/`_csv` pairs of the state dict. */
  lemma LeafDictKeys(info: LayerInfo, dir: Path)
    ensures forall f :: f in FixedKeys && f != "weight_offset" ==> f in LeafDict(info, dir)
    ensures "weight_offset" in LeafDict(info, dir) <==> !info.torchModule.weight.Present?
    ensures forall f :: f in LeafDict(info, dir) ==>
      f in FixedKeys ||
      exists j :: 0 <= j < |info.torchModule.stateKeys| && Extra(info.torchModule.stateKeys[j]) &&
        (f == HasKey(info.torchModule.stateKeys[j]) || f == CsvKey(info.torchModule.stateKeys[j]))
  {
    var keys := info.torchModule.stateKeys;
    FixedPartDomain(info, dir);
    StateFoldDomain(FixedPart(info, dir), keys, |keys|, dir, info.layerId);
    FixedKeysUntouched(info, dir, "weight_offset");
  }

  /** The state-dict keys of torch's BatchNorm2d. */
  const BatchNormKeys: seq<string> := ["weight", "bias", "running_mean", "running_var", "num_batches_tracked"]

  lemma BatchNormKeysUnambiguous()
    ensures Unambiguous(BatchNormKeys)
  {
    var keys := BatchNormKeys;
    forall i, j | 0 <= i < |keys| && 0 <= j < |keys| && Extra(keys[i]) && Extra(keys[j])
      ensures HasKey(keys[i]) != CsvKey(keys[j])
    {
      assert keys[j][0] != 'h';
      assert HasKey(keys[i])[0] == 'h';
      assert CsvKey(keys[j])[0] == keys[j][0];
    }
  }

  /** The entries of one state-dict key, for unambiguous key names. */
  lemma StateKeyEntries(info: LayerInfo, dir: Path, k: string)
    requires Unambiguous(info.torchModule.stateKeys)
    requires k in info.torchModule.stateKeys && Extra(k)
    ensures Get(LeafDict(info, dir), HasKey(k)) == Some(Num(1))
    ensures Get(LeafDict(info, dir), CsvKey(k)) == Some(Csv(dir, k, info.layerId))
  {
    LeafDictState(info, dir);
  }

  /** A BatchNorm2d leaf gets the `running_mean_csv` and `running_var_csv`
      entries the loader reads, with their flags set. */
  lemma BatchNormStateDict(info: LayerInfo, dir: Path)
    requires info.torchModule.stateKeys == BatchNormKeys
    ensures Get(LeafDict(info, dir), HasKey("running_mean")) == Some(Num(1))
    ensures Get(LeafDict(info, dir), CsvKey("running_mean")) == Some(Csv(dir, "running_mean", info.layerId))
    ensures Get(LeafDict(info, dir), HasKey("running_var")) == Some(Num(1))
    ensures Get(LeafDict(info, dir), CsvKey("running_var")) == Some(Csv(dir, "running_var", info.layerId))
  {
    BatchNormKeysUnambiguous();
    assert BatchNormKeys[2] == "running_mean" && BatchNormKeys[3] == "running_var";
    StateKeyEntries(info, dir, "running_mean");
    StateKeyEntries(info, dir, "running_var");
  }
}
