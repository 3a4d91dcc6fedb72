/**
 * blender_analyse.py: lists the visible collections of the view layer,
 * checks how each material's Principled BSDF inputs are fed, and prints the
 * lines the importer parses ("C|...", "M|...|...", "P|True",
 * "Analysis Complete").
 */
module AnalyseScript {
  import opened Wrappers
  import opened BlendData
  import UnrealString

  // ---------------------------------------------------------------------
  // GetLayerCollections
  // ---------------------------------------------------------------------

  predicate Listed(c: LayerCollection) { !c.exclude && !c.hideViewport }

  /** What GetLayerCollections appends for `c`: its subtree in pre-order, visible ones only. */
  function Walk(c: LayerCollection): seq<LayerCollection>
    decreases c, 1
  {
    WalkChildren(c, 0)
  }

  /** The part of Walk(c) contributed by the children from index `i` on. */
  function WalkChildren(c: LayerCollection, i: nat): seq<LayerCollection>
    decreases c, 0, |c.children| - i
  {
    if i >= |c.children| then []
    else
      var child := c.children[i];
      (if Listed(child) then [child] else []) + Walk(child) + WalkChildren(c, i + 1)
  }

  /**
   * GetLayerCollections(current, layerCollections): appends each child
   * that is neither excluded nor hidden, and recurses into every child.
   */
  method GetLayerCollections(current: LayerCollection, layerCollections: seq<LayerCollection>)
    returns (r: seq<LayerCollection>)
    ensures r == layerCollections + Walk(current)
    decreases current
  {
    r := layerCollections;
    var i := 0;
    while i < |current.children|
      invariant 0 <= i <= |current.children|
      invariant layerCollections + Walk(current) == r + WalkChildren(current, i)
    {
      var child := current.children[i];
      if !child.exclude && !child.hideViewport {
        r := r + [child];
      }
      r := GetLayerCollections(child, r);
      i := i + 1;
    }
  }

  /** `x` lies strictly below `c` in the collection tree. */
  predicate Below(x: LayerCollection, c: LayerCollection)
    decreases c
  {
    exists i :: 0 <= i < |c.children| && (c.children[i] == x || Below(x, c.children[i]))
  }

  predicate BelowChildren(x: LayerCollection, c: LayerCollection, i: nat) {
    exists j :: i <= j < |c.children| && (c.children[j] == x || Below(x, c.children[j]))
  }

  /** The walk lists exactly the listed collections below the root, a hidden parent not hiding its children. */
  lemma {:induction false} WalkListsVisibleDescendants(c: LayerCollection)
    ensures forall x :: x in Walk(c) <==> Listed(x) && Below(x, c)
    decreases c, 1
  {
    WalkChildrenLists(c, 0);
  }

  lemma {:induction false} WalkChildrenLists(c: LayerCollection, i: nat)
    ensures forall x :: x in WalkChildren(c, i) <==> Listed(x) && BelowChildren(x, c, i)
    decreases c, 0, |c.children| - i
  {
    if i < |c.children| {
      var child := c.children[i];
      WalkListsVisibleDescendants(child);
      WalkChildrenLists(c, i + 1);
      forall x
        ensures x in WalkChildren(c, i) <==> Listed(x) && BelowChildren(x, c, i)
      {
        if Listed(x) && BelowChildren(x, c, i) {
          var j :| i <= j < |c.children| && (c.children[j] == x || Below(x, c.children[j]));
          if j > i {
            assert BelowChildren(x, c, i + 1);
          }
        }
        if x in WalkChildren(c, i) && x !in WalkChildren(c, i + 1) {
          assert c.children[i] == x || Below(x, c.children[i]);
        }
      }
    }
  }

  // ---------------------------------------------------------------------
  // Material checks
  // ---------------------------------------------------------------------

  /** FindMaterialOutput: the first material output node of a node material. */
  function FindMaterialOutput(mat: Material): (r: Option<Node>)
    ensures r.Some? <==> mat.useNodes && exists k :: 0 <= k < |mat.nodes| && mat.nodes[k].kind == OutputMaterialKind
    ensures r.Some? ==> r.value in mat.nodes && r.value.kind == OutputMaterialKind
  {
    if !mat.useNodes then None
    else match FirstOfKind(mat.nodes, OutputMaterialKind)
         case None => None
         case Some(k) => Some(mat.nodes[k])
  }

  const NoMaterialOutput := "NO_MATERIAL_OUTPUT"
  const SurfaceNotConnected := "MATERIAL_OUTPUT_SURFACE_INPUT_NOT_CONNECTED"
  const SurfaceNotBsdf := "MATERIAL_OUTPUT_SURFACE_INPUT_NOT_BSDF"
  const NormalColorNotConnected := "NORMAL_MAP_COLOR_INPUT_NOT_CONNECTED"

  /** What FindBSDFNode finds: the error it records, the node, or an exception. */
  datatype BsdfSearch = NoBsdf(error: string) | FoundBsdf(node: Node) | BsdfRaised(exception: string)

  /** FindBSDFNode: the Principled BSDF node feeding the material output's Surface input. */
  function FindBsdfNode(mat: Material): (r: BsdfSearch)
    ensures r.FoundBsdf? ==> r.node.kind == PrincipledKind
    ensures r.NoBsdf? ==> r.error in {NoMaterialOutput, SurfaceNotConnected, SurfaceNotBsdf}
    ensures (r.NoBsdf? && r.error == NoMaterialOutput) <==> FindMaterialOutput(mat).None?
  {
    match FindMaterialOutput(mat)
    case None => NoBsdf(NoMaterialOutput)
    case Some(output) =>
      match Input(output, "Surface")
      case None => BsdfRaised(KeyError)
      case Some(surface) =>
        if !IsLinked(surface) then NoBsdf(SurfaceNotConnected)
        else if surface.links[0].fromNode.kind != PrincipledKind then NoBsdf(SurfaceNotBsdf)
        else FoundBsdf(surface.links[0].fromNode)
  }

  /** str.upper() on ASCII letters. */
  function UpperChar(c: char): char {
    if 'a' <= c <= 'z' then (c as int - 32) as char else c
  }

  /** inputName.upper().replace(' ', '_'). */
  function SafeInputName(name: string): (r: string)
    ensures |r| == |name|
    ensures forall k :: 0 <= k < |name| ==> r[k] == if name[k] == ' ' then '_' else UpperChar(name[k])
  {
    seq(|name|, k requires 0 <= k < |name| => if name[k] == ' ' then '_' else UpperChar(name[k]))
  }

  /** What checking one BSDF input adds to the material's entry. */
  datatype InputCheck = Unlinked | Error(code: string) | Texture(image: Image) | Raised(exception: string)

  /** The body of CheckMaterial's loop for one input name. */
  function CheckInput(bsdf: Node, inputName: string): (r: InputCheck)
    ensures r.Error? ==> r.code == NormalColorNotConnected
                         || r.code == "BSDF_" + SafeInputName(inputName) + "_INPUT_NOT_NORMAL_MAP"
                         || r.code == "BSDF_" + SafeInputName(inputName) + "_INPUT_NOT_TEXTURE"
    ensures r.Unlinked? <==> Input(bsdf, inputName).Some? && !IsLinked(Input(bsdf, inputName).value)
  {
    match Input(bsdf, inputName)
    case None => Raised(KeyError)
    case Some(input) =>
      if !IsLinked(input) then Unlinked
      else
        var safe := SafeInputName(inputName);
        var linked := input.links[0].fromNode;
        var reached :=
          if inputName != "Normal" then Value(linked)
          else if linked.kind != NormalMapKind then Raise("BSDF_" + safe + "_INPUT_NOT_NORMAL_MAP")
          else match Input(linked, "Color")
               case None => Raise(KeyError)
               case Some(color) =>
                 if !IsLinked(color) then Raise(NormalColorNotConnected) else Value(color.links[0].fromNode);
        match reached
        case Raise(e) => if e == KeyError then Raised(KeyError) else Error(e)
        case Value(textureNode) =>
          if textureNode.kind != TexImageKind then Error("BSDF_" + safe + "_INPUT_NOT_TEXTURE")
          else match textureNode.image
               case None => Raised(AttributeError)
               case Some(image) => Texture(image)
  }

  /** A Python dict with insertion order, as a list of key/value pairs. */
  type Dict<V> = seq<(string, V)>

  function Keys<V>(d: Dict<V>): seq<string> {
    seq(|d|, k requires 0 <= k < |d| => d[k].0)
  }

  /** d[k] = v: replaces the value in place when the key is present, otherwise appends. */
  function Put<V>(d: Dict<V>, k: string, v: V): (r: Dict<V>)
    ensures k in Keys(d) ==> Keys(r) == Keys(d)
    ensures k !in Keys(d) ==> Keys(r) == Keys(d) + [k]
    ensures (k, v) in r && forall e :: e in r ==> e == (k, v) || e in d
  {
    if |d| == 0 then [(k, v)]
    else if d[0].0 == k then
      assert Keys(d)[0] == k;
      assert Keys([(k, v)] + d[1..]) == Keys(d);
      [(k, v)] + d[1..]
    else
      assert Keys(d) == [d[0].0] + Keys(d[1..]);
      var rest := Put(d[1..], k, v);
      assert Keys([d[0]] + rest) == [d[0].0] + Keys(rest);
      [d[0]] + rest
  }

  /** output[mat.name]: the images found (name to packed flag) and the errors, in order. */
  datatype MaterialReport = MaterialReport(images: Dict<bool>, errors: seq<string>)

  /** The effect of one input check on the material's entry. */
  function Record(report: MaterialReport, c: InputCheck): MaterialReport {
    match c
    case Error(code) => report.(errors := report.errors + [code])
    case Texture(image) => report.(images := Put(report.images, image.name, image.packed))
    case _ => report
  }

  /** The loop of CheckMaterial over `names`, starting from `report`. */
  function CheckInputs(bsdf: Node, names: seq<string>, report: MaterialReport): Py<MaterialReport> {
    if |names| == 0 then Value(report)
    else
      var c := CheckInput(bsdf, names[0]);
      if c.Raised? then Raise(c.exception)
      else CheckInputs(bsdf, names[1..], Record(report, c))
  }

  /**
   * CheckMaterial for the input names visited in the order `order` (the
   * iteration order of the set checkInputNames).
   */
  function CheckMaterialSpec(mat: Material, order: seq<string>): Py<MaterialReport> {
    match FindBsdfNode(mat)
    case NoBsdf(e) => Value(MaterialReport([], [e]))
    case BsdfRaised(e) => Raise(e)
    case FoundBsdf(bsdf) => CheckInputs(bsdf, order, MaterialReport([], []))
  }

  method CheckMaterial(mat: Material, order: seq<string>) returns (r: Py<MaterialReport>)
    ensures r == CheckMaterialSpec(mat, order)
  {
    var images: Dict<bool> := [];
    var errors: seq<string> := [];
    var search := FindBsdfNode(mat);
    if search.NoBsdf? {
      errors := errors + [search.error];
      assert errors == [search.error];
      return Value(MaterialReport(images, errors));
    } else if search.BsdfRaised? {
      return Raise(search.exception);
    }
    var bsdf := search.node;
    var i := 0;
    while i < |order|
      invariant 0 <= i <= |order|
      invariant CheckMaterialSpec(mat, order) == CheckInputs(bsdf, order[i..], MaterialReport(images, errors))
    {
      assert order[i..][1..] == order[i + 1..];
      var c := CheckInput(bsdf, order[i]);
      match c {
        case Raised(e) => return Raise(e);
        case Unlinked =>
        case Error(code) => errors := errors + [code];
        case Texture(image) => images := Put(images, image.name, image.packed);
      }
      i := i + 1;
    }
    return Value(MaterialReport(images, errors));
  }

  /** The error codes the inputs `names` record, in order. */
  function ErrorCodes(bsdf: Node, names: seq<string>): seq<string> {
    if |names| == 0 then [] else InputCode(bsdf, names[0]) + ErrorCodes(bsdf, names[1..])
  }

  /** The error code one input's check records, if any. */
  function InputCode(bsdf: Node, name: string): seq<string> {
    var c := CheckInput(bsdf, name);
    if c.Error? then [c.code] else []
  }

  lemma ErrorCodesCons(bsdf: Node, x: string, rest: seq<string>)
    ensures ErrorCodes(bsdf, [x] + rest) == InputCode(bsdf, x) + ErrorCodes(bsdf, rest)
  {
    assert ([x] + rest)[1..] == rest;
  }

  /** Moving a middle part to the front keeps the multiset. */
  lemma MultisetMoveToFront(p: seq<string>, x: seq<string>, q: seq<string>, r: seq<string>)
    requires multiset(r) == multiset(p + q)
    ensures multiset(p + (x + q)) == multiset(x + r)
  {
  }

  predicate SomeInputRaises(bsdf: Node, names: seq<string>) {
    exists i :: 0 <= i < |names| && CheckInput(bsdf, names[i]).Raised?
  }

  /** The input loop raises exactly when some input's check raises. */
  lemma {:induction false} CheckInputsRaises(bsdf: Node, names: seq<string>, report: MaterialReport)
    ensures CheckInputs(bsdf, names, report).Raise? <==> SomeInputRaises(bsdf, names)
  {
    if |names| > 0 {
      var c := CheckInput(bsdf, names[0]);
      if !c.Raised? {
        var rest := names[1..];
        CheckInputsRaises(bsdf, rest, Record(report, c));
        if SomeInputRaises(bsdf, names) {
          var i :| 0 <= i < |names| && CheckInput(bsdf, names[i]).Raised?;
          assert rest[i - 1] == names[i];
        }
        if SomeInputRaises(bsdf, rest) {
          var i :| 0 <= i < |rest| && CheckInput(bsdf, rest[i]).Raised?;
          assert names[i + 1] == rest[i];
        }
      }
    }
  }

  /** Recording a check appends exactly the code it records to the errors. */
  lemma RecordErrors(bsdf: Node, name: string, report: MaterialReport)
    ensures Record(report, CheckInput(bsdf, name)).errors == report.errors + InputCode(bsdf, name)
  {
    if !CheckInput(bsdf, name).Error? {
      assert report.errors + [] == report.errors;
    }
  }

  /** When it does not raise, the input loop adds the inputs' error codes in visiting order. */
  lemma {:induction false} CheckInputsErrors(bsdf: Node, names: seq<string>, report: MaterialReport)
    requires CheckInputs(bsdf, names, report).Value?
    ensures CheckInputs(bsdf, names, report).value.errors == report.errors + ErrorCodes(bsdf, names)
  {
    if |names| == 0 {
      assert report.errors + [] == report.errors;
    } else {
      var next := Record(report, CheckInput(bsdf, names[0]));
      var rest := names[1..];
      assert CheckInputs(bsdf, names, report) == CheckInputs(bsdf, rest, next);
      CheckInputsErrors(bsdf, rest, next);
      RecordErrors(bsdf, names[0], report);
      assert ErrorCodes(bsdf, names) == InputCode(bsdf, names[0]) + ErrorCodes(bsdf, rest);
      UnrealString.ConcatAssociative(report.errors, InputCode(bsdf, names[0]), ErrorCodes(bsdf, rest));
    }
  }

  lemma {:induction false} ErrorCodesAppend(bsdf: Node, a: seq<string>, b: seq<string>)
    ensures ErrorCodes(bsdf, a + b) == ErrorCodes(bsdf, a) + ErrorCodes(bsdf, b)
  {
    if |a| > 0 {
      assert (a + b)[0] == a[0];
      assert (a + b)[1..] == a[1..] + b;
      ErrorCodesAppend(bsdf, a[1..], b);
    } else {
      assert a + b == b;
    }
  }

  /** Visiting the same input names in another order records the same errors, in some order. */
  lemma {:induction false} ErrorCodesPermutation(bsdf: Node, a: seq<string>, b: seq<string>)
    requires multiset(a) == multiset(b)
    ensures multiset(ErrorCodes(bsdf, a)) == multiset(ErrorCodes(bsdf, b))
    decreases |a|
  {
    if |a| > 0 {
      var x := a[0];
      assert x in multiset(b);
      var j :| 0 <= j < |b| && b[j] == x;
      var b' := b[..j] + b[j + 1..];
      assert b == b[..j] + ([x] + b[j + 1..]);
      assert a == [x] + a[1..];
      assert multiset(a[1..]) == multiset(a) - multiset{x};
      assert multiset(b') == multiset(b) - multiset{x};
      ErrorCodesPermutation(bsdf, a[1..], b');
      ErrorCodesCons(bsdf, x, a[1..]);
      ErrorCodesAppend(bsdf, b[..j], [x] + b[j + 1..]);
      ErrorCodesCons(bsdf, x, b[j + 1..]);
      ErrorCodesAppend(bsdf, b[..j], b[j + 1..]);
      MultisetMoveToFront(ErrorCodes(bsdf, b[..j]), InputCode(bsdf, x), ErrorCodes(bsdf, b[j + 1..]),
                          ErrorCodes(bsdf, a[1..]));
    } else {
      assert b == [];
    }
  }

  lemma SomeInputRaisesPermutation(bsdf: Node, a: seq<string>, b: seq<string>)
    requires multiset(a) == multiset(b)
    ensures SomeInputRaises(bsdf, a) ==> SomeInputRaises(bsdf, b)
  {
    if SomeInputRaises(bsdf, a) {
      var i :| 0 <= i < |a| && CheckInput(bsdf, a[i]).Raised?;
      assert a[i] in multiset(b);
      var j :| 0 <= j < |b| && b[j] == a[i];
    }
  }

  lemma InputLoopOrderIrrelevant(bsdf: Node, order1: seq<string>, order2: seq<string>)
    requires multiset(order1) == multiset(order2)
    ensures var empty := MaterialReport([], []);
            (CheckInputs(bsdf, order1, empty).Raise? <==> CheckInputs(bsdf, order2, empty).Raise?)
            && (CheckInputs(bsdf, order1, empty).Value? ==>
                  multiset(CheckInputs(bsdf, order1, empty).value.errors)
                  == multiset(CheckInputs(bsdf, order2, empty).value.errors))
  {
    var empty := MaterialReport([], []);
    CheckInputsRaises(bsdf, order1, empty);
    CheckInputsRaises(bsdf, order2, empty);
    SomeInputRaisesPermutation(bsdf, order1, order2);
    SomeInputRaisesPermutation(bsdf, order2, order1);
    if CheckInputs(bsdf, order1, empty).Value? {
      CheckInputsErrors(bsdf, order1, empty);
      CheckInputsErrors(bsdf, order2, empty);
      ErrorCodesPermutation(bsdf, order1, order2);
      assert [] + ErrorCodes(bsdf, order1) == ErrorCodes(bsdf, order1);
      assert [] + ErrorCodes(bsdf, order2) == ErrorCodes(bsdf, order2);
    }
  }

  /**
   * The iteration order of checkInputNames does not change whether a
   * material's check raises, nor which errors it records (only their order).
   */
  lemma CheckOrderIrrelevant(mat: Material, order1: seq<string>, order2: seq<string>)
    requires multiset(order1) == multiset(order2)
    ensures CheckMaterialSpec(mat, order1).Raise? <==> CheckMaterialSpec(mat, order2).Raise?
    ensures CheckMaterialSpec(mat, order1).Value? ==>
              multiset(CheckMaterialSpec(mat, order1).value.errors) == multiset(CheckMaterialSpec(mat, order2).value.errors)
  {
    match FindBsdfNode(mat)
    case FoundBsdf(bsdf) => InputLoopOrderIrrelevant(bsdf, order1, order2);
    case _ =>
  }

  /** A material without nodes or without an output node records only NO_MATERIAL_OUTPUT. */
  lemma NoOutputOnlyError(mat: Material, order: seq<string>)
    requires !mat.useNodes || forall k :: 0 <= k < |mat.nodes| ==> mat.nodes[k].kind != OutputMaterialKind
    ensures CheckMaterialSpec(mat, order) == Value(MaterialReport([], [NoMaterialOutput]))
  {
  }

  /**
   * An input other than Normal records an image only when it is linked
   * straight from an image texture node; Normal only through a normal map
   * whose Color input is linked from one.
   */
  lemma TextureReachedDirectly(bsdf: Node, inputName: string)
    requires CheckInput(bsdf, inputName).Texture?
    ensures var input := Input(bsdf, inputName);
            input.Some? && IsLinked(input.value)
            && var from := input.value.links[0].fromNode;
               (inputName != "Normal" ==> from.kind == TexImageKind
                                           && from.image == Some(CheckInput(bsdf, inputName).image))
               && (inputName == "Normal" ==>
                     from.kind == NormalMapKind && Input(from, "Color").Some?
                     && IsLinked(Input(from, "Color").value)
                     && var tex := Input(from, "Color").value.links[0].fromNode;
                        tex.kind == TexImageKind && tex.image == Some(CheckInput(bsdf, inputName).image))
  {
  }

  const SkippedMaterial := "Dots Stroke"

  /** CheckMaterials: the entries for every material except "Dots Stroke", in material order. */
  function CheckMaterialsSpec(materials: seq<Material>, order: seq<string>, output: Dict<MaterialReport>)
    : Py<Dict<MaterialReport>>
  {
    if |materials| == 0 then Value(output)
    else if materials[0].name == SkippedMaterial then CheckMaterialsSpec(materials[1..], order, output)
    else match CheckMaterialSpec(materials[0], order)
         case Raise(e) => Raise(e)
         case Value(report) => CheckMaterialsSpec(materials[1..], order, Put(output, materials[0].name, report))
  }

  method CheckMaterials(materials: seq<Material>, order: seq<string>, output: Dict<MaterialReport>)
    returns (r: Py<Dict<MaterialReport>>)
    ensures r == CheckMaterialsSpec(materials, order, output)
  {
    var out := output;
    var i := 0;
    while i < |materials|
      invariant 0 <= i <= |materials|
      invariant CheckMaterialsSpec(materials, order, output) == CheckMaterialsSpec(materials[i..], order, out)
    {
      assert materials[i..][1..] == materials[i + 1..];
      var mat := materials[i];
      if mat.name != SkippedMaterial {
        var report := CheckMaterial(mat, order);
        if report.Raise? {
          return Raise(report.exception);
        }
        out := Put(out, mat.name, report.value);
      }
      i := i + 1;
    }
    return Value(out);
  }

  // ---------------------------------------------------------------------
  // The printed lines
  // ---------------------------------------------------------------------

  /** Each part followed by a ','. */
  function Terminated(parts: seq<string>): string {
    if |parts| == 0 then "" else parts[0] + "," + Terminated(parts[1..])
  }

  function Names(cols: seq<LayerCollection>): (r: seq<string>)
    ensures |r| == |cols| && forall k :: 0 <= k < |cols| ==> r[k] == cols[k].name
  {
    seq(|cols|, k requires 0 <= k < |cols| => cols[k].name)
  }

  function CollectionLine(names: seq<string>): string { "C|" + Terminated(names) }

  function MaterialLine(name: string, errors: seq<string>): string { "M|" + name + "|" + Terminated(errors) }

  /** One "M" line per entry with errors, in entry order. */
  function MaterialLines(output: Dict<MaterialReport>): seq<string> {
    if |output| == 0 then []
    else
      EntryLines(output[0]) + MaterialLines(output[1..])
  }

  predicate HasPackedImage(report: MaterialReport) {
    exists k :: 0 <= k < |report.images| && report.images[k].1
  }

  predicate AnyPacked(output: Dict<MaterialReport>) {
    exists k :: 0 <= k < |output| && HasPackedImage(output[k].1)
  }

  const PackedLine := "P|True"
  const CompleteLine := "Analysis Complete"

  /**
   * The lines the script prints: the collection line, then (unless an
   * exception ends the script) the material lines, the packed line and the
   * completion line.
   */
  function AnalysisLines(root: LayerCollection, materials: seq<Material>, order: seq<string>): seq<string> {
    var cline := CollectionLine(Names(Walk(root)));
    match CheckMaterialsSpec(materials, order, [])
    case Raise(_) => [cline]
    case Value(output) =>
      [cline] + MaterialLines(output) + (if AnyPacked(output) then [PackedLine] else []) + [CompleteLine]
  }

  /** The loop building the collection line. */
  method BuildCollectionLine(layerCollections: seq<LayerCollection>) returns (line: string)
    ensures line == CollectionLine(Names(layerCollections))
  {
    line := "C|";
    var i := 0;
    while i < |layerCollections|
      invariant 0 <= i <= |layerCollections|
      invariant line + Terminated(Names(layerCollections[i..])) == CollectionLine(Names(layerCollections))
    {
      assert Names(layerCollections[i..])[1..] == Names(layerCollections[i + 1..]);
      line := line + (layerCollections[i].name + ",");
      i := i + 1;
    }
    assert Names(layerCollections[i..]) == [];
  }

  /** The loop building one material's warning line. */
  method BuildMaterialLine(name: string, errors: seq<string>) returns (line: string)
    ensures line == MaterialLine(name, errors)
  {
    line := "M|" + name + "|";
    var k := 0;
    while k < |errors|
      invariant 0 <= k <= |errors|
      invariant line + Terminated(errors[k..]) == MaterialLine(name, errors)
    {
      assert errors[k..][1..] == errors[k + 1..];
      line := line + (errors[k] + ",");
      k := k + 1;
    }
    assert errors[k..] == [];
  }

  /** The inner loop over a material's images, stopping at the first packed one. */
  method FindPacked(report: MaterialReport) returns (found: bool)
    ensures found <==> HasPackedImage(report)
  {
    found := false;
    var j := 0;
    while j < |report.images|
      invariant 0 <= j <= |report.images|
      invariant forall m :: 0 <= m < j ==> !report.images[m].1
    {
      if report.images[j].1 {
        return true;
      }
      j := j + 1;
    }
  }

  /** The "M" line of one entry, if it has errors. */
  function EntryLines(entry: (string, MaterialReport)): seq<string> {
    if |entry.1.errors| > 0 then [MaterialLine(entry.0, entry.1.errors)] else []
  }

  lemma MaterialLinesFrom(output: Dict<MaterialReport>, i: nat)
    requires i < |output|
    ensures MaterialLines(output[i..]) == EntryLines(output[i]) + MaterialLines(output[i + 1..])
  {
    assert output[i..][1..] == output[i + 1..];
  }

  /** Some entry before `i` uses a packed image. */
  predicate PackedBefore(output: Dict<MaterialReport>, i: nat)
    requires i <= |output|
  {
    exists k :: 0 <= k < i && HasPackedImage(output[k].1)
  }

  lemma PackedBeforeNext(output: Dict<MaterialReport>, i: nat)
    requires i < |output|
    ensures PackedBefore(output, i + 1) <==> PackedBefore(output, i) || HasPackedImage(output[i].1)
  {
    if PackedBefore(output, i + 1) && !HasPackedImage(output[i].1) {
      var k :| 0 <= k < i + 1 && HasPackedImage(output[k].1);
      assert k < i;
    }
  }

  /**
   * The loop over the checked materials: the "M" lines it prints, in entry
   * order, and whether any material uses a packed image.
   */
  method ReportMaterials(output: Dict<MaterialReport>) returns (lines: seq<string>, hasPacked: bool)
    ensures lines == MaterialLines(output)
    ensures hasPacked <==> AnyPacked(output)
  {
    lines := [];
    hasPacked := false;
    var i := 0;
    while i < |output|
      invariant 0 <= i <= |output|
      invariant hasPacked <==> PackedBefore(output, i)
      invariant lines + MaterialLines(output[i..]) == MaterialLines(output)
    {
      MaterialLinesFrom(output, i);
      PackedBeforeNext(output, i);
      ghost var rest := MaterialLines(output[i + 1..]);
      var packed := FindPacked(output[i].1);
      if packed {
        hasPacked := true;
      }
      if |output[i].1.errors| > 0 {
        var warningString := BuildMaterialLine(output[i].0, output[i].1.errors);
        assert (lines + [warningString]) + rest == lines + ([warningString] + rest);
        lines := lines + [warningString];
      } else {
        assert EntryLines(output[i]) + rest == rest;
      }
      i := i + 1;
    }
    assert output[i..] == [];
    assert lines + [] == lines;
  }

  /** The script's top level: collects, checks and prints; the printed lines in `printed`. */
  method RunAnalysis(root: LayerCollection, materials: seq<Material>, order: seq<string>) returns (printed: seq<string>)
    ensures printed == AnalysisLines(root, materials, order)
  {
    var layerCollections := GetLayerCollections(root, []);
    assert layerCollections == Walk(root);
    var collections := BuildCollectionLine(layerCollections);
    printed := [collections];

    var checked := CheckMaterials(materials, order, []);
    if checked.Raise? {
      return;
    }
    var lines, hasPacked := ReportMaterials(checked.value);
    printed := printed + lines;
    if hasPacked {
      printed := printed + [PackedLine];
    }
    printed := printed + [CompleteLine];
  }
}
