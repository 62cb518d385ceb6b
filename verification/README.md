# PyTorch → mlpack weight converter, modelled in Dafny

The converter moves trained weights from a PyTorch model into an mlpack
network in two halves.

The exporter (`convert.py`) summarises the PyTorch model as a pre-order list
of layer records and builds an XML tree from it. `generate_xml` nests each
record under the most recent element one level up. `param_dictionary` gives
every leaf its text children: flags (`is_leaf`, `has_weight`, `has_bias`,
`has_<key>`) and the paths of the csv files that hold its tensors.

The importer (`convert_util.hpp`) reads that tree back:
- `ReadXML` allocates a parameter vector of the declared `trainable_param`
  length.
- `ProcessXML` walks the `<layer>` elements depth-first. It copies every
  flagged weight and bias, transposed, into the vector at a running offset.
  It queues the running mean and variance of every `BatchNorm2d` leaf.
- `ProcessBatchNorm` walks the built network depth-first. It gives every
  `BatchNorm` layer the next two queue entries.

Modules:
- `Tensors`: column-major matrices, transposition, and the run a tensor
  occupies once written through an `n_elem x 1` alias (its layout).
- `StatsQueues`: the shared `std::queue<arma::mat>`, a class with a `seq` field.
- `ParamDicts`: `param_dictionary`, a method that fills a dictionary key by
  key. It is specified by `LeafDict`.
- `XmlExport`: `generate_xml`, a loop over the records that updates the
  `parent` map and an arena of elements. It is specified by `LastAt`,
  `ParentOf`, `ChildrenOf` and `FieldsOf`.
- `Flattening`: `ProcessXML` and `ReadXML` over an `array` buffer and the
  queue object. They are specified by `Flat`, `Count` and `Stats`: what the
  walk writes, returns and queues.
- `Distributor`: `ProcessBatchNorm` over a network whose `BatchNorm` layers
  are objects with the two assigned fields. It is specified by `Distribute`.
- `Pipeline`: what the distributor hands out when it drains the queue the
  walker filled.

The walk's buffer contract is `buf[..] == Place(old(buf[..]), base, Flat(layers, |layers|))`.
Alongside it, a ghost log of the offsets written equals `Range(base, base + count)`.
Together they say:
- the walk writes exactly the cells `[base, base + count)`, each once, in
  increasing order;
- the cells hold the layouts of the flagged tensors in document order;
- no other cell changes.

When the manifest has as many `BatchNorm2d` leaves as the network has
`BatchNorm` layers, the k-th layer gets the k-th leaf's statistics,
transposed. A queue that runs dry exactly before a `MultiLayer` is not an
error: the emptiness check on entry to the recursive call skips every
`BatchNorm` layer inside it (`Distributor.DryQueueStep`; `Distributor.DryMultiLayerSkipped` is a
concrete example).

## Model

| member | source | states |
|---|---|---|
| Tensors.Transpose | convert_util.hpp:97 | `.t()`: the result has the swapped shape and element (i, j) of the result is element (j, i) of the input |
| Tensors.NElem | convert_util.hpp:98 | `n_elem`, the amount `start` advances by for a copied tensor: rows times columns |
| Tensors.TransposeInvolutive | convert_util.hpp:56-58 | transposing twice gives the matrix back, so the statistics the distributor assigns are the queued ones up to one transposition |
| Tensors.Layout | convert_util.hpp:96-98 | the run written through the alias has exactly `n_elem` elements |
| Tensors.LayoutAt | convert_util.hpp:96-97 | cell `i * cols + j` of the run holds element (i, j): the transpose in column-major order is the matrix row by row |
| Tensors.LayoutRoundTrip | convert_util.hpp:96-98 | a tensor's run, cut back into rows x cols, gives the tensor back |
| Tensors.SplitLayoutAll | convert_util.hpp:91-107 | cutting consecutive runs by the tensors' shapes gives every tensor back, in order |
| Tensors.LayoutAllAppend | convert_util.hpp:91-107 | the runs of two tensor lists, one after the other, are the runs of the concatenated list |
| StatsQueues.StatsQueue.Push | convert_util.hpp:113 | `push` appends at the back and keeps everything already queued |
| StatsQueues.StatsQueue.Front | convert_util.hpp:56 | `front` is only called on a non-empty queue and returns its first entry |
| StatsQueues.StatsQueue.Pop | convert_util.hpp:57 | `pop` removes exactly the first entry |
| StatsQueues.StatsQueue.Empty | convert_util.hpp:48 | `empty()`: true exactly when nothing is queued |
| ParamDicts.RecordPart | convert.py:57-61 | the first four assignments: `is_leaf` = 1, then `depth`, `var_name` and `trainable_param` copied from the record |
| ParamDicts.WeightPart | convert.py:62-70 | the weight branch: with a non-None weight, `has_weight` = 1 and `weight_csv` = the csv path `weight_<id>.csv` under the leaf directory; otherwise `has_weight` = 0, `weight_offset` = 0 and `weight_csv` = "None" |
| ParamDicts.BiasPart | convert.py:71-78 | the bias branch: `has_bias` = 1 and `bias_csv` = `bias_<id>.csv` with a non-None bias, else `has_bias` = 0 and `bias_csv` = "None" |
| ParamDicts.StateFold | convert.py:79-86 | the state-dict loop, in key order: each key other than weight and bias sets `has_<key>` = 1 and then `<key>_csv` = `<key>_<id>.csv`, later assignments overwriting earlier ones |
| ParamDicts.LeafDict | convert.py:57-86 | the whole dictionary: the record part, then the weight branch, the bias branch and the state-dict loop, each applied to the result of the one before |
| ParamDicts.ParamDictionary | convert.py:57-86 | the method that assigns the keys one by one, and loops over the state dict skipping weight and bias, yields exactly `LeafDict(info, dir)` |
| ParamDicts.LeafDictRecord | convert.py:57-61 | a leaf always has `is_leaf` = 1 and copies `depth`, `var_name` and `trainable_param` (the record's leftover parameter count) |
| ParamDicts.LeafDictWeight | convert.py:62-70 | `has_weight` is 1 if and only if the module has a non-None weight; then `weight_csv` is `weight_<id>.csv` in the leaf's directory and there is no `weight_offset`; otherwise `has_weight` = 0, `weight_offset` = 0 and `weight_csv` = "None" |
| ParamDicts.LeafDictBias | convert.py:71-78 | the same rule for the bias: `has_bias` is 1 iff the bias is non-None; `bias_csv` is `bias_<id>.csv` or "None" |
| ParamDicts.LeafDictState | convert.py:79-86 | every state-dict key other than weight and bias yields a `has_<key>` entry; for unambiguous key names it is 1 and `<key>_csv` names `<key>_<id>.csv` |
| ParamDicts.LeafDictKeys | convert.py:57-86 | the dictionary holds every fixed key, `weight_offset` exactly when there is no weight, and otherwise only `has_<key>` / `<key>_csv` keys of the state dict |
| ParamDicts.StateKeyEntries | convert.py:79-86 | for unambiguous key names, each extra state key k has `has_k` = 1 and `k_csv` naming its csv file |
| ParamDicts.BatchNormStateDict | convert.py:79-86 | a BatchNorm2d leaf gets `has_running_mean` = 1, `running_mean_csv`, `has_running_var` = 1 and `running_var_csv`: the entries the walker's statistics come from |
| ParamDicts.BatchNormKeysUnambiguous | convert.py:79-86 | BatchNorm2d's state-dict keys are unambiguous, so the previous row applies to it |
| ParamDicts.FixedKeysUntouched | convert.py:79-86 | the state-dict loop never overwrites a key assigned before it |
| ParamDicts.FixedNotDerived | convert.py:82-84 | no `has_<key>` or `<key>_csv` of an extra state key equals one of the fixed key names |
| ParamDicts.DerivedOnlyFromWeightOrBias | convert.py:79-84 | only the skipped keys weight and bias would produce `has_weight`, `has_bias`, `weight_csv` or `bias_csv` |
| ParamDicts.StateFoldFrame | convert.py:79-86 | the loop leaves alone any key that no extra state key derives |
| ParamDicts.StateFoldPresent | convert.py:79-86 | after the loop every extra state key has a `has_<key>` and a `<key>_csv` entry |
| ParamDicts.StateFoldValues | convert.py:79-86 | for unambiguous key names those entries are 1 and the key's csv path |
| ParamDicts.StateFoldDomain | convert.py:79-86 | the loop keeps every key and adds only `has_<key>` / `<key>_csv` keys |
| XmlExport.RootOf | convert.py:97-99 | the root element: tag `temp[0].class_name`, one text child `trainable_param` = `num_params`, and the top-level layers as children |
| XmlExport.DirOf | convert.py:100-122 | the directory `parent[...][1]` carries: `<class>_<id>` for the root, then the parent's directory joined with the record's `var_name` |
| XmlExport.FieldsOf | convert.py:111-116 | a leaf's text children are `param_dictionary` of its directory; a non-leaf has only `var_name` and `is_leaf` = 0 |
| XmlExport.ChildrenOf | convert.py:104-110 | the children of element p: the records, in summary order, whose `parent[depth - 1]` is p |
| XmlExport.LastAt | convert.py:103-122 | `parent[d]` after some records names an earlier element, at depth d (the root counts as depth 0) |
| XmlExport.LastAtLatest | convert.py:103-122 | `parent[d]` is the most recent element at depth d, and depth d is missing iff d is not 0 and no record so far has depth d |
| XmlExport.ParentOf | convert.py:107-110 | a record's parent element comes before it |
| XmlExport.Attach | convert.py:109-110 | adding an element makes the tree one element longer |
| XmlExport.GenerateXml | convert.py:96-122 | an empty summary fails on `temp[0]`; otherwise the result is a tree iff every record finds `parent[depth - 1]`, and the error names the first record whose lookup fails; a tree is the root with `trainable_param`, then one `layer` per record, with fields `FieldsOf` and children `ChildrenOf` |
| XmlExport.AddLayer | convert.py:105-122 | one iteration: the new element is the last child of `parent[depth - 1]`, with the record's fields (leaf: `param_dictionary`, otherwise `var_name` and `is_leaf` = 0), and `parent[depth]` becomes it; no other entry changes |
| XmlExport.ChildrenAfter | convert.py:104-110 | every child comes after its parent in the summary |
| XmlExport.ChildrenOfMembers | convert.py:107-110 | the children of p are exactly the records whose parent is p |
| XmlExport.ChildrenOfIncreasing | convert.py:104-110 | children appear in summary order |
| XmlExport.ExportedParent | convert.py:104-110 | in the finished tree every layer element is a child of exactly one element, the one `parent[depth - 1]` named |
| XmlExport.NonLeafFields | convert.py:111-113 | a non-leaf record gets only `var_name` and `is_leaf` = 0 |
| Flattening.IsContainer | convert_util.hpp:82-86 | a `<layer>` is recursed into exactly when its `is_leaf` text is "0"; any other text makes it a leaf |
| Flattening.WeightRun | convert_util.hpp:91-99 | a leaf contributes its weight's layout only when `has_weight` is exactly "1", else nothing |
| Flattening.BiasRun | convert_util.hpp:100-108 | the same for the bias and `has_bias` |
| Flattening.NodeFlat | convert_util.hpp:81-108 | what one `<layer>` writes: a container what its children write, a leaf its weight run then its bias run |
| Flattening.Flat | convert_util.hpp:78-120 | what the first k sibling `<layer>` elements write, one after the other |
| Flattening.NodeCount | convert_util.hpp:83-108 | how far one `<layer>` advances `start`: a container its children's total, a leaf the `n_elem` of each flagged tensor |
| Flattening.Count | convert_util.hpp:78-120 | the value `ProcessXML` returns after the first k siblings: the sum of their advances |
| Flattening.NodeStats | convert_util.hpp:109-117 | what one `<layer>` queues: a container what its children queue, a leaf named exactly "BatchNorm2d" its running mean then its running variance, any other leaf nothing |
| Flattening.Stats | convert_util.hpp:79-119 | what the first k siblings queue, in document order |
| Flattening.FlatLength | convert_util.hpp:78-120 | the returned count equals the number of elements written |
| Flattening.NodeFlatLength | convert_util.hpp:83-108 | the same for one `<layer>` element |
| Flattening.NoContribution | convert_util.hpp:78-108 | an empty container, or a leaf with both flags not "1", contributes nothing to the buffer or the count |
| Flattening.CountGrows | convert_util.hpp:85 | visiting more siblings never lowers the count |
| Flattening.FlatPrefix | convert_util.hpp:79-86 | what the first k siblings write does not depend on later siblings |
| Flattening.FlatAppend | convert_util.hpp:79-86 | siblings are laid out back to back, with no gaps or overlaps |
| Flattening.StatsPairs | convert_util.hpp:109-117 | the walk queues two entries per BatchNorm2d leaf: entry 2i is the i-th leaf's running mean, 2i+1 its running variance |
| Flattening.NodeStatsPairs | convert_util.hpp:109-117 | the same for one `<layer>` element |
| Flattening.FlatIsLayouts | convert_util.hpp:91-107 | the buffer contents are the layouts of the copied tensors, one after another, in document order |
| Flattening.NodeFlatIsLayouts | convert_util.hpp:91-107 | within a leaf, the weight run comes first and the bias run follows right after it |
| Flattening.FlattenRoundTrip | convert_util.hpp:91-107 | cutting the buffer by the shapes of the copied tensors gives every tensor back |
| Flattening.Place | convert_util.hpp:96-97 | writing a run leaves the buffer's length unchanged |
| Flattening.PlaceAt | convert_util.hpp:96-97 | a written run occupies exactly its cells; every other cell is unchanged |
| Flattening.PlaceSlices | convert_util.hpp:96-97 | the buffer after writing is the cells before the run, the run, then the cells after it |
| Flattening.PlaceAppend | convert_util.hpp:96-107 | two runs written back to back are one run |
| Flattening.Range | convert_util.hpp:96-107 | the log of a run's offsets has one entry per cell |
| Flattening.RangeAt | convert_util.hpp:96-107 | the k-th offset written is lo + k: consecutive, increasing, each once |
| Flattening.RangeAppend | convert_util.hpp:96-107 | two consecutive runs' offsets form one range |
| Flattening.WriteRun | convert_util.hpp:96-97 | the array after the aliased assignment is the run placed at the offset, cell by cell |
| Flattening.WriteFlagged | convert_util.hpp:91-108 | a tensor is written, and `start` advances by `n_elem`, only when its flag is exactly "1" |
| Flattening.ProcessLeaf | convert_util.hpp:89-117 | a leaf writes the weight run and then the bias run right after it, returns their total, and appends mean then variance iff its name is exactly "BatchNorm2d" |
| Flattening.ProcessNode | convert_util.hpp:81-118 | one `<layer>`: only the text "0" makes it a container, flattened at the current offset |
| Flattening.ProcessSibling | convert_util.hpp:79-118 | one loop iteration: the sibling's elements land right after those of the siblings before it, its offsets continue the range, `start` advances by its count, and its statistics follow the earlier ones in the queue |
| Flattening.ProcessXML | convert_util.hpp:76-121 | returns `Count`; the buffer is the original with `Flat` written from the base offset; exactly cells `[base, base+count)` are written, in increasing order; the queue is the old queue followed by `Stats` |
| Flattening.ReadXML | convert_util.hpp:129-144 | allocates exactly `trainable_param` cells; the walk's elements fill the prefix and the rest stay zero; the queue gains `Stats` |
| Distributor.Distribute | convert_util.hpp:46-68 | `ProcessBatchNorm`: an empty queue on entry serves nothing and leaves the queue as it is (line 48); otherwise the loop over every layer |
| Distributor.Walk | convert_util.hpp:51-67 | the loop after k iterations: the assignments of the layers visited in order and the queue left, or `Underflow` as soon as one visit underflows |
| Distributor.Visit | convert_util.hpp:53-66 | one iteration: a BatchNorm with fewer than two queued entries is `Underflow`, the unchecked `front()` of lines 56-58; otherwise it is assigned the first two entries transposed and both are popped; a MultiLayer is `Distribute` of its network, which repeats the line-48 check; any other layer leaves the queue unchanged |
| Distributor.DistributeShaped | convert_util.hpp:46-68 | the layers served are a prefix of the depth-first BatchNorm order; the i-th gets entries 2i and 2i+1 transposed; the rest of the queue is what was not taken; a layer goes unserved only once the queue is empty |
| Distributor.WalkShaped | convert_util.hpp:51-67 | the same for the first k layers of the loop |
| Distributor.VisitShaped | convert_util.hpp:53-66 | the same for one layer: a BatchNorm takes two entries, a MultiLayer recurses, other layers take none |
| Distributor.DistributeServesAll | convert_util.hpp:48-66 | two queue entries per BatchNorm layer suffice: no underflow, every BatchNorm layer served |
| Distributor.WalkServesAll | convert_util.hpp:51-67 | the same for the first k layers |
| Distributor.VisitServesAll | convert_util.hpp:53-66 | the same for one layer |
| Distributor.WalkPrefixDone | convert_util.hpp:51-67 | a walk that does not underflow does not underflow on any prefix |
| Distributor.BatchNormsPrefix | convert_util.hpp:62-66 | the BatchNorm layers under the first k layers are a prefix of all of them |
| Distributor.LayerDisjoint | convert_util.hpp:51-66 | in a network without repeated layers, the BatchNorm layers under layer i are new |
| Distributor.WalkStep | convert_util.hpp:51-67 | one loop iteration serves only layers under layer i, none served before |
| Distributor.DryQueueStep | convert_util.hpp:48-66 | for every network and queue: once the loop has drained the queue, a MultiLayer is skipped by the line-48 check and the walk goes on unchanged, while a BatchNorm layer underflows |
| Distributor.DryMultiLayerSkipped | convert_util.hpp:48-66 | an example of the previous row: in a two-layer network with two queued entries, a BatchNorm nested in a MultiLayer in second place is skipped, while the same layer at top level underflows |
| Distributor.ProcessLayer | convert_util.hpp:53-66 | one iteration: a BatchNorm's mean is the front transposed and its variance the next entry transposed, with two pops; a MultiLayer is processed recursively; other layers change nothing |
| Distributor.ProcessBatchNorm | convert_util.hpp:46-68 | with an empty queue nothing changes; otherwise the queue ends as `Distribute(...).rest`, every served layer holds its assignment, and every other BatchNorm layer keeps its fields |
| Pipeline.MatchedHandOff | convert_util.hpp:53-117 | with equal numbers of BatchNorm2d leaves and BatchNorm layers, the k-th BatchNorm layer gets the k-th leaf's running mean and variance, transposed, and the queue ends empty |
| Pipeline.SurplusStatistics | convert_util.hpp:46-117 | with more leaves than layers, every layer is served in order and two entries per surplus leaf stay queued |
| Pipeline.MissingStatistics | convert_util.hpp:48-117 | with fewer leaves than layers, the distributor underflows or leaves some BatchNorm layer unserved |

## Left out

- Parsing and I/O are left out. This covers the rapidxml file reading and
  parsing, the text-to-integer read of `trainable_param`, `mlpack::data::Load`
  of the csv files, and `np.savetxt` with its float formatting. The manifest
  is a datatype, and each tensor is the value the loader would return.
- The `*_conv.cpp` `main` functions and `SerializeObject` are left out. They
  only orchestrate external model definitions and write binary files.
- `make_directory`, `os.path.join`, the file writes of `generate_csv` and
  `tree.write`, `torch.hub.load`, `summary_gg` and argparse are left out.
  - A path is a list of directory segments.
  - A csv file is its directory, stem and layer id (`Csv`).
  - The summary is the input list of records.
- XML serialisation is not modelled. `str(v)` turns values into element text
  in the exporter, and the importer reads that text back. The exported tree
  holds typed values, and the walker's manifest holds the texts it compares.
  The two trees are not connected by a proof.
- `MakeAlias` is modelled as a write of the layout into the buffer slice at
  the current offset; memory aliasing is not modelled.
- Element values are opaque reals; no arithmetic is done on them.
- Flattening.ReadXML: `arma::mat params(n, 1)` is modelled as zero-filled.
  Depending on the Armadillo version and its configuration, cells that the
  walk does not reach may instead hold uninitialised memory.
- Python dict insertion order is not modelled, so a dictionary is a map. The
  order of a leaf's text children in the XML therefore is not modelled. The
  importer looks children up by name, so it does not depend on that order.
- `hasattr(module, name)` and `module.name != None` are folded into one
  three-valued attribute (`Absent`, `NoneValue`, `Present`).
- `dynamic_cast` is an exhaustive match on a `Layer` datatype.
- ParamDicts.LeafDictState: the values of `has_<key>` and `<key>_csv` are stated
  only for unambiguous key names. When one key's `has_` name equals another
  key's `_csv` name, the later assignment wins, and this is not modelled.
- Flattening.ProcessXML: the source never checks that the writes fit the
  buffer, so the model requires that the walk's total fits. `ReadXML` therefore
  requires the total not to exceed `trainable_param`.
- The `size_t` offset `start` (convert_util.hpp:78, 85) is an unbounded `nat`.
  `ProcessXML` requires every offset it reaches to lie within the buffer's
  length, so no offset the model uses could wrap around in 64 bits.
- Distributor.ProcessBatchNorm: `front()` on an empty queue is undefined
  behaviour. The model requires that the distribution does not underflow
  (`Distribute(...).Done?`). It also requires that no BatchNorm object occurs
  twice in the network, so aliasing of one layer object at two positions is
  not modelled.
