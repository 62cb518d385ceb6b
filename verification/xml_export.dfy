/** The tree builder of convert.py's `generate_xml`: the model summary is a
    pre-order list of records with depths; each record after the first
    becomes a `layer` element under the most recent element one level up,
    found through a map from depth to the last element seen at that depth. */
module XmlExport {
  import opened ParamDicts

  /** An element of the exported tree. The root's tag is the model's class
      name and it has no attribute; every other element is a `layer` whose
      first attribute, `name`, is the record's class name. `fields` are the
      text-valued children in order, `layers` the indices of the child layer
      elements in order (lxml puts the text children first, since they are
      added when the element is created and before any child layer). */
  datatype Element = Element(tag: string, name: Option<string>, fields: Dict, layers: seq<nat>)

  /** `temp[0]` on an empty summary, or `parent[level - 1]` on a depth that
      has not been seen: the two lookups of `generate_xml` that can fail. */
  datatype ExportError = EmptySummary | MissingParent(index: nat)

  datatype Result<T> = Ok(value: T) | Err(error: ExportError)

  /** An entry of the `parent` dictionary: an element and its directory. */
  datatype Slot = Slot(elem: nat, dir: Path)

  // ---------------------------------------------------------------------------
  // Specification

  /** The element `parent[d]` names once records 0..n-1 have been added:
      the last of them at depth d, the root counting as depth 0. */
  function LastAt(records: seq<LayerInfo>, d: int, n: nat): (r: Option<nat>)
    requires 1 <= n <= |records|
    ensures r.Some? ==> r.value < n
    ensures r.Some? && r.value > 0 ==> records[r.value].depth == d
    ensures r.Some? && r.value == 0 ==> d == 0
  {
    if n == 1 then (if d == 0 then Some(0) else None)
    else if records[n - 1].depth == d then Some(n - 1)
    else LastAt(records, d, n - 1)
  }

  /** Record i finds its parent: some element one level up has been seen. */
  predicate Finds(records: seq<LayerInfo>, i: nat)
    requires 1 <= i < |records|
  {
    LastAt(records, records[i].depth - 1, i).Some?
  }

  /** Records 1..n-1 all find their parent. */
  predicate Resolves(records: seq<LayerInfo>, n: nat)
    requires n <= |records|
  {
    forall i :: 1 <= i < n ==> Finds(records, i)
  }

  /** Record i is the first whose parent lookup fails. */
  predicate FirstMissing(records: seq<LayerInfo>, i: nat) {
    1 <= i < |records| && Resolves(records, i) && !Finds(records, i)
  }

  function ParentOf(records: seq<LayerInfo>, i: nat): (p: nat)
    requires 1 <= i < |records| && Finds(records, i)
    ensures p < i
  {
    LastAt(records, records[i].depth - 1, i).value
  }

  /** The directory of record i: the root's `<class>_<id>`, then the
      variable names on the way down. */
  function DirOf(records: seq<LayerInfo>, i: nat): Path
    requires i < |records| && Resolves(records, i + 1)
    decreases i
  {
    if i == 0 then [RootDir(records[0].className, records[0].layerId)]
    else DirOf(records, ParentOf(records, i)) + [Dir(records[i].varName)]
  }

  /** The text children of the element of record i >= 1. */
  function FieldsOf(records: seq<LayerInfo>, i: nat): Dict
    requires 1 <= i < |records| && Resolves(records, i + 1)
  {
    if records[i].isLeafLayer then LeafDict(records[i], DirOf(records, i))
    else Put(Put(EmptyDict, "var_name", Text(records[i].varName)), "is_leaf", Num(0))
  }

  /** The child layers of element p among records 1..n-1, in record order. */
  function ChildrenOf(records: seq<LayerInfo>, p: nat, n: nat): seq<nat>
    requires n <= |records| && Resolves(records, n)
  {
    if n <= 1 then []
    else ChildrenOf(records, p, n - 1) + (if ParentOf(records, n - 1) == p then [n - 1] else [])
  }

  /** The `parent` dictionary after records 0..i-1: a depth is a key when
      some element has been seen at it, and then names the last such
      element with its directory. */
  ghost predicate ParentsAt(records: seq<LayerInfo>, i: nat, parent: map<int, Slot>)
    requires 1 <= i <= |records| && Resolves(records, i)
  {
    forall d :: (d in parent <==> LastAt(records, d, i).Some?) &&
      (d in parent ==> parent[d] == Slot(LastAt(records, d, i).value, DirOf(records, LastAt(records, d, i).value)))
  }

  /** The root element: the model's class name, with the total parameter
      count as its one text child. */
  function RootOf(records: seq<LayerInfo>, n: nat): Element
    requires 1 <= n <= |records| && Resolves(records, n)
  {
    Element(records[0].className, None, Put(EmptyDict, "trainable_param", Num(records[0].numParams)), ChildrenOf(records, 0, n))
  }

  /** The structure of the tree after records 0..i-1: the root, then one
      `layer` element per record, named after its class, with the child
      layers ChildrenOf gives. */
  ghost predicate ShapeAt(records: seq<LayerInfo>, i: nat, tree: seq<Element>)
    requires 1 <= i <= |records| && Resolves(records, i)
  {
    |tree| == i && tree[0] == RootOf(records, i) && LayersAt(records, i, tree)
  }

  ghost predicate LayersAt(records: seq<LayerInfo>, i: nat, tree: seq<Element>)
    requires 1 <= i <= |records| && Resolves(records, i)
    requires |tree| == i
  {
    forall j :: 1 <= j < i ==> IsLayer(records, i, j, tree[j])
  }

  /** Element j after records 0..n-1: a `layer` element named after its
      class, whose child layers are the ones ChildrenOf gives. */
  ghost predicate IsLayer(records: seq<LayerInfo>, n: nat, j: nat, e: Element)
    requires 1 <= j < n <= |records| && Resolves(records, n)
  {
    e.tag == "layer" && e.name == Some(records[j].className) && e.layers == ChildrenOf(records, j, n)
  }

  /** The text children of the layer elements after records 0..i-1. */
  ghost predicate FieldsAt(records: seq<LayerInfo>, i: nat, tree: seq<Element>)
    requires 1 <= i <= |records| && Resolves(records, i)
    requires |tree| == i
  {
    forall j {:trigger FieldsOf(records, j)} :: 1 <= j < i ==> tree[j].fields == FieldsOf(records, j)
  }

  /** The tree after records 0..i-1. */
  ghost predicate TreeAt(records: seq<LayerInfo>, i: nat, tree: seq<Element>)
    requires 1 <= i <= |records| && Resolves(records, i)
  {
    ShapeAt(records, i, tree) && FieldsAt(records, i, tree)
  }

  /** The whole tree generate_xml builds from a summary that resolves. */
  ghost predicate Exported(records: seq<LayerInfo>, tree: seq<Element>)
    requires records != [] && Resolves(records, |records|)
  {
    TreeAt(records, |records|, tree)
  }

  /** The tree after adding record i, whose element has text children f, as
      the last child of element p. */
  function Attach(tree: seq<Element>, p: nat, i: nat, className: string, f: Dict): (t: seq<Element>)
    requires p < |tree|
    ensures |t| == |tree| + 1
  {
    tree[p := tree[p].(layers := tree[p].layers + [i])] + [Element("layer", Some(className), f, [])]
  }

  // ---------------------------------------------------------------------------
  // generate_xml

  /** `generate_xml(model, output_path)` on the summary `records`, returning
      the tree instead of writing it. */
  method GenerateXml(records: seq<LayerInfo>) returns (r: Result<seq<Element>>)
    ensures records == [] ==> r == Err(EmptySummary)
    ensures r.Ok? <==> records != [] && Resolves(records, |records|)
    ensures r.Err? && records != [] ==> r.error.MissingParent? && FirstMissing(records, r.error.index)
    ensures r.Ok? ==> Exported(records, r.value)
  {
    if |records| == 0 {
      return Err(EmptySummary);
    }
    var root := Element(records[0].className, None, Put(EmptyDict, "trainable_param", Num(records[0].numParams)), []);
    assert root == RootOf(records, 1);
    var tree := [root];
    var parent := map[0 := Slot(0, [RootDir(records[0].className, records[0].layerId)])];
    assert ParentsAt(records, 1, parent);
    for i := 1 to |records|
      invariant Resolves(records, i)
      invariant ParentsAt(records, i, parent)
      invariant TreeAt(records, i, tree)
    {
      var level := records[i].depth;
      if level - 1 !in parent {
        assert !Finds(records, i);
        return Err(MissingParent(i));
      }
      tree, parent := AddLayer(records, i, tree, parent);
    }
    return Ok(tree);
  }

  /** One iteration of the loop of `generate_xml`: a new `layer` element as
      last child of `parent[level - 1]`, with the record's fields, then
      `parent[level]` pointing at it. */
  method AddLayer(records: seq<LayerInfo>, i: nat, tree: seq<Element>, parent: map<int, Slot>)
    returns (tree': seq<Element>, parent': map<int, Slot>)
    requires 1 <= i < |records| && Resolves(records, i)
    requires ParentsAt(records, i, parent) && TreeAt(records, i, tree)
    requires records[i].depth - 1 in parent
    ensures Resolves(records, i + 1)
    ensures parent' == parent[records[i].depth := Slot(i, DirOf(records, i))]
    ensures tree' == Attach(tree, ParentOf(records, i), i, records[i].className, FieldsOf(records, i))
    ensures ParentsAt(records, i + 1, parent') && TreeAt(records, i + 1, tree')
  {
    var info := records[i];
    var slot := parent[info.depth - 1];
    var dir := slot.dir + [Dir(info.varName)];
    var fields := Put(Put(EmptyDict, "var_name", Text(info.varName)), "is_leaf", Num(0));
    if info.isLeafLayer {
      fields := ParamDictionary(info, dir);
    }
    assert Finds(records, i);
    var p := slot.elem;
    assert p == ParentOf(records, i) && dir == DirOf(records, i);
    tree' := Attach(tree, p, i, info.className, fields);
    parent' := parent[info.depth := Slot(i, dir)];
    ShapeStep(records, i, tree, fields);
    FieldsStep(records, i, tree, fields);
    ParentStep(records, i, parent);
  }

  lemma {:induction false} ParentStep(records: seq<LayerInfo>, i: nat, parent: map<int, Slot>)
    requires 1 <= i < |records| && Resolves(records, i + 1)
    requires ParentsAt(records, i, parent)
    ensures ParentsAt(records, i + 1, parent[records[i].depth := Slot(i, DirOf(records, i))])
  {
  }

  lemma {:induction false} ShapeStep(records: seq<LayerInfo>, i: nat, tree: seq<Element>, f: Dict)
    requires 1 <= i < |records| && Resolves(records, i + 1)
    requires ShapeAt(records, i, tree)
    ensures ShapeAt(records, i + 1, Attach(tree, ParentOf(records, i), i, records[i].className, f))
  {
    var p := ParentOf(records, i);
    var t := Attach(tree, p, i, records[i].className, f);
    ChildrenStep(records, i);
    AttachAt(tree, p, i, records[i].className, f, 0);
    LayersStep(records, i, tree, f);
  }

  lemma {:induction false} LayersStep(records: seq<LayerInfo>, i: nat, tree: seq<Element>, f: Dict)
    requires 1 <= i < |records| && Resolves(records, i + 1)
    requires |tree| == i && LayersAt(records, i, tree)
    ensures LayersAt(records, i + 1, Attach(tree, ParentOf(records, i), i, records[i].className, f))
  {
    var t := Attach(tree, ParentOf(records, i), i, records[i].className, f);
    forall j | 1 <= j < i + 1 ensures IsLayer(records, i + 1, j, t[j]) {
      if j < i {
        LayerStep(records, i, tree, f, j);
      } else {
        NewLayer(records, i, tree, f);
      }
    }
  }

  /** An element already in the tree keeps its tag and name, and gains the
      new record as a child exactly when it is the new record's parent. */
  lemma LayerStep(records: seq<LayerInfo>, i: nat, tree: seq<Element>, f: Dict, j: nat)
    requires 1 <= i < |records| && Resolves(records, i + 1)
    requires |tree| == i && 1 <= j < i && IsLayer(records, i, j, tree[j])
    ensures IsLayer(records, i + 1, j, Attach(tree, ParentOf(records, i), i, records[i].className, f)[j])
  {
    AttachAt(tree, ParentOf(records, i), i, records[i].className, f, j);
    ChildrenStep(records, i);
  }

  /** The element appended for record i is a layer without children. */
  lemma NewLayer(records: seq<LayerInfo>, i: nat, tree: seq<Element>, f: Dict)
    requires 1 <= i < |records| && Resolves(records, i + 1)
    requires |tree| == i
    ensures IsLayer(records, i + 1, i, Attach(tree, ParentOf(records, i), i, records[i].className, f)[i])
  {
    NoChildrenYet(records, i);
  }

  lemma AttachAt(tree: seq<Element>, p: nat, i: nat, className: string, f: Dict, j: nat)
    requires p < |tree| && j < |tree|
    ensures Attach(tree, p, i, className, f)[j] ==
      if j == p then tree[j].(layers := tree[j].layers + [i]) else tree[j]
  {
  }

  /** The new element has no child layers yet. */
  lemma {:induction false} NoChildrenYet(records: seq<LayerInfo>, i: nat)
    requires 1 <= i < |records| && Resolves(records, i + 1)
    ensures ChildrenOf(records, i, i + 1) == []
  {
    ChildrenAfter(records, i, i);
    assert ChildrenOf(records, i, i) == [] by {
      if ChildrenOf(records, i, i) != [] {
        assert ChildrenOf(records, i, i)[0] in ChildrenOf(records, i, i);
      }
    }
  }

  lemma {:induction false} FieldsStep(records: seq<LayerInfo>, i: nat, tree: seq<Element>, f: Dict)
    requires 1 <= i < |records| && Resolves(records, i + 1)
    requires |tree| == i && FieldsAt(records, i, tree)
    requires f == FieldsOf(records, i)
    ensures FieldsAt(records, i + 1, Attach(tree, ParentOf(records, i), i, records[i].className, f))
  {
    var t := Attach(tree, ParentOf(records, i), i, records[i].className, f);
    forall j | 1 <= j < i + 1 ensures t[j].fields == FieldsOf(records, j) {
      if j < i {
        AttachAt(tree, ParentOf(records, i), i, records[i].className, f, j);
      }
    }
  }

  /** Adding record i appends it to its parent's children and to no other. */
  lemma {:induction false} ChildrenStep(records: seq<LayerInfo>, i: nat)
    requires 1 <= i < |records| && Resolves(records, i + 1)
    ensures forall j :: 0 <= j <= i ==>
      ChildrenOf(records, j, i + 1) == ChildrenOf(records, j, i) + (if ParentOf(records, i) == j then [i] else [])
  {
  }

  // ---------------------------------------------------------------------------
  // Properties

  /** The children of p are later records. */
  lemma {:induction false} ChildrenAfter(records: seq<LayerInfo>, p: nat, n: nat)
    requires n <= |records| && Resolves(records, n)
    ensures forall c :: c in ChildrenOf(records, p, n) ==> p < c < n
  {
    if n > 1 {
      ChildrenAfter(records, p, n - 1);
    }
  }

  /** `parent[d]` is the most recent element at depth d: no later record has
      that depth, and a depth is missing exactly when no record has it (the
      root always stands at depth 0). */
  lemma {:induction false} LastAtLatest(records: seq<LayerInfo>, d: int, n: nat)
    requires 1 <= n <= |records|
    ensures LastAt(records, d, n).Some? ==>
      forall m :: LastAt(records, d, n).value < m < n ==> records[m].depth != d
    ensures LastAt(records, d, n).None? <==> d != 0 && forall m :: 1 <= m < n ==> records[m].depth != d
  {
    if n > 1 && records[n - 1].depth != d {
      LastAtLatest(records, d, n - 1);
    }
  }

  /** The child layers of p are exactly the records whose parent is p. */
  lemma {:induction false} ChildrenOfMembers(records: seq<LayerInfo>, p: nat, n: nat)
    requires n <= |records| && Resolves(records, n)
    ensures forall c :: c in ChildrenOf(records, p, n) <==> 1 <= c < n && ParentOf(records, c) == p
  {
    if n > 1 {
      ChildrenOfMembers(records, p, n - 1);
    }
  }

  /** The child layers of p appear in input-list order. */
  lemma {:induction false} ChildrenOfIncreasing(records: seq<LayerInfo>, p: nat, n: nat)
    requires n <= |records| && Resolves(records, n)
    ensures forall a, b :: 0 <= a < b < |ChildrenOf(records, p, n)| ==>
      ChildrenOf(records, p, n)[a] < ChildrenOf(records, p, n)[b]
  {
    if n > 1 {
      ChildrenOfIncreasing(records, p, n - 1);
      ChildrenAfter(records, p, n - 1);
      var prev := ChildrenOf(records, p, n - 1);
      var all := ChildrenOf(records, p, n);
      forall a, b | 0 <= a < b < |all| ensures all[a] < all[b] {
        if b == |prev| {
          assert all[a] == prev[a] && prev[a] in prev;
        }
      }
    }
  }

  /** In an exported tree every layer element is a child of exactly one
      element: the one `parent[depth - 1]` named when it was added. */
  lemma ExportedParent(records: seq<LayerInfo>, tree: seq<Element>, c: nat, p: nat)
    requires records != [] && Resolves(records, |records|) && Exported(records, tree)
    requires 1 <= c < |records| && p < |records|
    ensures c in tree[p].layers <==> p == ParentOf(records, c)
  {
    ChildrenOfMembers(records, p, |records|);
  }

  /** A record that is not a leaf gets only `var_name` and `is_leaf` = 0. */
  lemma NonLeafFields(records: seq<LayerInfo>, i: nat)
    requires 1 <= i < |records| && Resolves(records, i + 1)
    requires !records[i].isLeafLayer
    ensures FieldsOf(records, i).Keys == {"var_name", "is_leaf"}
    ensures FieldsOf(records, i)["var_name"] == Text(records[i].varName)
    ensures FieldsOf(records, i)["is_leaf"] == Num(0)
  {
  }
}
