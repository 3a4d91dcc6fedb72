/**
 * blender_export.py: reads the importer's UNREAL_IMPORTER_* environment
 * variables, optionally rewires each material's textures, resets object
 * transforms, selects the objects to export and calls the FBX exporter on
 * the selection.
 */
module ExportScript {
  import opened UnrealString
  import opened Wrappers
  import opened BlendData
  import AnalyseScript
  import AssetFactory

  // ---------------------------------------------------------------------
  // The environment
  // ---------------------------------------------------------------------

  const OutputFileVariable := "UNREAL_IMPORTER_OUTPUT_FILE"
  const ObjectPivotVariable := "UNREAL_IMPORTER_EXPORT_OBJECT_PIVOT"
  const FixMaterialsVariable := "UNREAL_IMPORTER_FIX_MATERIALS"
  const UnpackVariable := "UNREAL_IMPORTER_UNPACK"
  const EnabledCollectionsVariable := "UNREAL_IMPORTER_ENABLED_COLLECTIONS"

  /** os.getenv(name): the value, or None when the variable is unset. */
  function GetEnv(env: map<string, string>, name: string): (r: Option<string>)
    ensures r.Some? <==> name in env
    ensures r.Some? ==> r.value == env[name]
  {
    if name in env then Some(env[name]) else None
  }

  /** What the script's top lines make of the environment. */
  datatype ExportConfig = ExportConfig(outfile: string, setObjectPivot: bool, fixMaterials: bool,
                                       unpack: bool, enabledCollections: Option<seq<string>>)

  /**
   * The flags hold only for the exact text "true"; an unset output file
   * falls back to the .blend path plus ".fbx"; an unset or empty collection
   * list is None, any other value is split on ',' with empty pieces kept.
   */
  function DecodeEnvironment(env: map<string, string>, blendFilePath: string): (c: ExportConfig)
    ensures c.setObjectPivot <==> GetEnv(env, ObjectPivotVariable) == Some("true")
    ensures c.fixMaterials <==> GetEnv(env, FixMaterialsVariable) == Some("true")
    ensures c.unpack <==> GetEnv(env, UnpackVariable) == Some("true")
    ensures OutputFileVariable in env ==> c.outfile == env[OutputFileVariable]
    ensures OutputFileVariable !in env ==> c.outfile == blendFilePath + ".fbx"
    ensures c.enabledCollections.None? <==>
              EnabledCollectionsVariable !in env || env[EnabledCollectionsVariable] == ""
    ensures c.enabledCollections.Some? ==>
              |c.enabledCollections.value| >= 1
              && Join(c.enabledCollections.value, ",") == env[EnabledCollectionsVariable]
  {
    var outfile := GetEnv(env, OutputFileVariable);
    var collections := GetEnv(env, EnabledCollectionsVariable);
    var enabled := if collections.None? || collections.value == "" then None
                   else (JoinSplit(collections.value, ','); Some(Split(collections.value, ',')));
    ExportConfig(if outfile.None? then blendFilePath + ".fbx" else outfile.value,
                 GetEnv(env, ObjectPivotVariable) == Some("true"),
                 GetEnv(env, FixMaterialsVariable) == Some("true"),
                 GetEnv(env, UnpackVariable) == Some("true"),
                 enabled)
  }

  /** A list joins to "" only when it is empty or one empty name. */
  lemma JoinEmpty(parts: seq<string>)
    requires forall k :: 0 <= k < |parts| ==> ',' !in parts[k]
    ensures Join(parts, ",") == "" <==> parts == [] || parts == [""]
  {
    if |parts| >= 1 && Join(parts, ",") == "" {
      SplitJoin(parts, ',');
      assert Split("", ',') == [""];
    }
  }

  /**
   * The variables BlendFileExport sets decode back to the importer's
   * settings: the output path, the three flags, and the collection list
   * when its names hold no ','; an empty list (or one empty name) reaches
   * the script as None.
   */
  lemma ExportVariablesDecoded(outputFilename: string, useObjectPivot: bool, fixMaterials: bool,
                               enabledCollections: seq<string>, unpack: bool, blendFilePath: string)
    requires forall k :: 0 <= k < |enabledCollections| ==> ',' !in enabledCollections[k]
    ensures DecodeEnvironment(AssetFactory.ExportVariables(outputFilename, useObjectPivot, fixMaterials,
                                                           enabledCollections, unpack), blendFilePath)
            == ExportConfig(outputFilename, useObjectPivot, fixMaterials, unpack,
                            if enabledCollections == [] || enabledCollections == [""] then None
                            else Some(enabledCollections))
  {
    var env := AssetFactory.ExportVariables(outputFilename, useObjectPivot, fixMaterials, enabledCollections, unpack);
    assert BoolText(false) != "true";
    JoinEmpty(enabledCollections);
    var c := DecodeEnvironment(env, blendFilePath);
    if c.enabledCollections.Some? {
      SplitJoin(enabledCollections, ',');
    }
  }

  // ---------------------------------------------------------------------
  // Node lookups
  // ---------------------------------------------------------------------

  /** FindBSDFNode: the position of the first Principled BSDF node of a node material. */
  function FindBsdfNode(mat: Material): (r: Option<nat>)
    ensures r.Some? ==> mat.useNodes && r.value < |mat.nodes| && mat.nodes[r.value].kind == PrincipledKind
    ensures r.None? <==> !mat.useNodes || forall k :: 0 <= k < |mat.nodes| ==> mat.nodes[k].kind != PrincipledKind
  {
    if !mat.useNodes then None else FirstOfKind(mat.nodes, PrincipledKind)
  }

  /**
   * FindLinkedTextureImageNode(node, initialInput): the node itself when it
   * is an image texture; otherwise the search goes on from the node linked
   * into `initialInput` (or, without one, into the node's "Color" input).
   */
  function FindLinkedTextureImageNode(node: Node, initialInput: Option<Socket>): (r: Option<Node>)
    ensures r.Some? ==> r.value.kind == TexImageKind
    decreases if initialInput.Some? then 1 else 0, node
  {
    if node.kind == TexImageKind then Some(node)
    else
      var input := if initialInput.Some? then initialInput else Input(node, "Color");
      if input.Some? && IsLinked(input.value) then
        assert initialInput.None? ==> input.value in node.inputs;
        FindLinkedTextureImageNode(input.value.links[0].fromNode, None)
      else None
  }

  /** The texture the export finds for an input of `bsdf`, or None (also when the input is missing). */
  function TextureFor(bsdf: Node, inputName: string): Option<Node> {
    match Input(bsdf, inputName)
    case None => None
    case Some(s) => FindLinkedTextureImageNode(bsdf, Some(s))
  }

  /**
   * From a node that is not a texture, the search follows the given input's
   * first link, or gives None when the input is unlinked; it never looks at
   * the node's own "Color" input then.
   */
  lemma SearchFollowsGivenInput(node: Node, input: Socket)
    requires node.kind != TexImageKind
    ensures FindLinkedTextureImageNode(node, Some(input))
            == if IsLinked(input) then FindLinkedTextureImageNode(input.links[0].fromNode, None) else None
  {
  }

  /**
   * Every texture the analysis reports on an input of a Principled BSDF,
   * the export's search finds on that input: through a direct link, and for
   * Normal through the normal map's Color input.
   */
  lemma ExportFindsAnalysedTexture(bsdf: Node, inputName: string)
    requires bsdf.kind == PrincipledKind
    requires AnalyseScript.CheckInput(bsdf, inputName).Texture?
    ensures TextureFor(bsdf, inputName).Some?
    ensures TextureFor(bsdf, inputName).value.image == Some(AnalyseScript.CheckInput(bsdf, inputName).image)
  {
    AnalyseScript.TextureReachedDirectly(bsdf, inputName);
    var input := Input(bsdf, inputName).value;
    var from := input.links[0].fromNode;
    assert FindLinkedTextureImageNode(bsdf, Some(input)) == FindLinkedTextureImageNode(from, None);
    if inputName == "Normal" {
      assert from.kind != TexImageKind;
      var tex := Input(from, "Color").value.links[0].fromNode;
      assert FindLinkedTextureImageNode(from, None) == FindLinkedTextureImageNode(tex, None);
    }
  }

  // ---------------------------------------------------------------------
  // FixMaterials
  // ---------------------------------------------------------------------

  /** The state a loop or a step reached, and the exception that stopped it, if any. */
  datatype Fixed<T> = Fixed(value: T, error: Option<string>)

  /** The socket node.inputs[name] stands for sits at position k. */
  predicate IsInput(node: Node, name: string, k: nat) {
    InputIndex(node.inputs, name) == Some(k)
  }

  /** Two nodes of one kind whose inputs carry the same names in the same places. */
  predicate SameShape(a: Node, b: Node) {
    a.kind == b.kind && |a.inputs| == |b.inputs| && forall k :: 0 <= k < |a.inputs| ==> a.inputs[k].name == b.inputs[k].name
  }

  /** The input at position k after linking texture `t` straight into input `to`. */
  function Rewired(node: Node, k: nat, to: string, t: Option<Node>): Socket
    requires k < |node.inputs|
  {
    if IsInput(node, to, k) && t.Some? then node.inputs[k].(links := [Link(t.value, "Color")]) else node.inputs[k]
  }

  /**
   * links.new(texture.outputs["Color"], node.inputs[inputName]): the input
   * then holds a single link, from the texture's Color output; a missing
   * socket raises KeyError.
   */
  function Relink(node: Node, inputName: string, texture: Node): (r: Py<Node>)
    ensures r.Value? <==> "Color" in texture.outputs && Input(node, inputName).Some?
    ensures r.Value? ==> r.value.kind == node.kind && |r.value.inputs| == |node.inputs|
  {
    if "Color" !in texture.outputs then Raise(KeyError)
    else match InputIndex(node.inputs, inputName)
         case None => Raise(KeyError)
         case Some(k) => Value(node.(inputs := node.inputs[k := node.inputs[k].(links := [Link(texture, "Color")])]))
  }

  lemma RelinkEffect(node: Node, inputName: string, texture: Node)
    requires Relink(node, inputName, texture).Value?
    ensures var r := Relink(node, inputName, texture).value;
            SameShape(node, r)
            && forall k :: 0 <= k < |node.inputs| ==> r.inputs[k] == Rewired(node, k, inputName, Some(texture))
  {
  }

  /**
   * One relinking step of FixMaterials: the texture found through input
   * `from` is linked straight into input `to`; nothing changes when no
   * texture is found.
   */
  function LinkTexture(node: Node, from: string, to: string): (r: Py<Node>)
    ensures var t := TextureFor(node, from);
            r.Value? <==> Input(node, from).Some? && (t.Some? ==> "Color" in t.value.outputs && Input(node, to).Some?)
    ensures r.Value? ==> r.value.kind == node.kind && |r.value.inputs| == |node.inputs|
  {
    match Input(node, from)
    case None => Raise(KeyError)
    case Some(s) =>
      match FindLinkedTextureImageNode(node, Some(s))
      case None => Value(node)
      case Some(t) => Relink(node, to, t)
  }

  lemma LinkTextureEffect(node: Node, from: string, to: string)
    requires LinkTexture(node, from, to).Value?
    ensures var r := LinkTexture(node, from, to).value;
            SameShape(node, r)
            && forall k :: 0 <= k < |node.inputs| ==> r.inputs[k] == Rewired(node, k, to, TextureFor(node, from))
  {
    var t := TextureFor(node, from);
    if t.Some? {
      RelinkEffect(node, to, t.value);
    }
  }

  /** links.remove(node.inputs[name].links[0]). */
  function RemoveFirstLink(node: Node, name: string): (r: Node)
    requires Input(node, name).Some? && IsLinked(Input(node, name).value)
  {
    var k := InputIndex(node.inputs, name).value;
    node.(inputs := node.inputs[k := node.inputs[k].(links := node.inputs[k].links[1..])])
  }

  /** The Metallic texture is linked into Roughness, and the Metallic input's link removed. */
  function MetallicStep(node: Node): (r: Fixed<Node>)
    requires node.kind != TexImageKind
    ensures r.value.kind == node.kind && |r.value.inputs| == |node.inputs|
  {
    match Input(node, "Metallic")
    case None => Fixed(node, Some(KeyError))
    case Some(metallic) =>
      match FindLinkedTextureImageNode(node, Some(metallic))
      case None => Fixed(node, None)
      case Some(t) =>
        match Relink(node, "Roughness", t)
        case Raise(e) => Fixed(node, Some(e))
        case Value(n3) =>
          RelinkEffect(node, "Roughness", t);
          InputIndexSameNames(node.inputs, n3.inputs, "Metallic");
          Fixed(RemoveFirstLink(n3, "Metallic"), None)
  }

  lemma MetallicStepEffect(node: Node)
    requires node.kind != TexImageKind
    ensures var r := MetallicStep(node);
            var t := TextureFor(node, "Metallic");
            SameShape(node, r.value)
            && (r.error.None? <==>
                  (Input(node, "Metallic").Some?
                   && (t.Some? ==> "Color" in t.value.outputs && Input(node, "Roughness").Some?)))
            && (r.error.None? ==>
                  forall k :: 0 <= k < |node.inputs| ==>
                    r.value.inputs[k] == if IsInput(node, "Metallic", k) && t.Some?
                                         then node.inputs[k].(links := node.inputs[k].links[1..])
                                         else Rewired(node, k, "Roughness", t))
  {
    var t := TextureFor(node, "Metallic");
    if Input(node, "Metallic").Some? && t.Some? && Relink(node, "Roughness", t.value).Value? {
      RelinkEffect(node, "Roughness", t.value);
      var n3 := Relink(node, "Roughness", t.value).value;
      InputIndexSameNames(node.inputs, n3.inputs, "Metallic");
      InputIndexSameNames(node.inputs, n3.inputs, "Roughness");
    }
  }

  /**
   * The body of FixMaterials for one Principled BSDF: Base Color, then
   * Roughness into Specular, then the Metallic step; an exception keeps the
   * changes made before it.
   */
  function FixBsdf(bsdf: Node): (r: Fixed<Node>)
    requires bsdf.kind == PrincipledKind
    ensures r.value.kind == bsdf.kind && |r.value.inputs| == |bsdf.inputs|
  {
    match LinkTexture(bsdf, "Base Color", "Base Color")
    case Raise(e) => Fixed(bsdf, Some(e))
    case Value(n1) =>
      LinkTextureEffect(bsdf, "Base Color", "Base Color");
      match LinkTexture(n1, "Roughness", "Specular")
      case Raise(e) => Fixed(n1, Some(e))
      case Value(n2) =>
        LinkTextureEffect(n1, "Roughness", "Specular");
        MetallicStep(n2)
  }

  /**
   * Where FixMaterials leaves the input at position k of a Principled BSDF,
   * given the textures found through Base Color, Roughness and Metallic on
   * the node as it was.
   */
  function ExpectedInput(bsdf: Node, k: nat, base: Option<Node>, roughness: Option<Node>, metallic: Option<Node>)
    : Socket
    requires k < |bsdf.inputs|
    requires IsInput(bsdf, "Metallic", k) && metallic.Some? ==> IsLinked(bsdf.inputs[k])
  {
    var s := bsdf.inputs[k];
    if IsInput(bsdf, "Base Color", k) && base.Some? then s.(links := [Link(base.value, "Color")])
    else if IsInput(bsdf, "Specular", k) && roughness.Some? then s.(links := [Link(roughness.value, "Color")])
    else if IsInput(bsdf, "Roughness", k) && metallic.Some? then s.(links := [Link(metallic.value, "Color")])
    else if IsInput(bsdf, "Metallic", k) && metallic.Some? then s.(links := s.links[1..])
    else s
  }

  lemma SameNamesSameInputs(a: Node, b: Node)
    requires SameShape(a, b)
    ensures forall name, k :: IsInput(a, name, k) <==> IsInput(b, name, k)
  {
    forall name: string
      ensures InputIndex(a.inputs, name) == InputIndex(b.inputs, name)
    {
      InputIndexSameNames(a.inputs, b.inputs, name);
    }
  }

  /** A step that changes only input `changed` leaves every other input's lookup as it was. */
  lemma SameLookup(a: Node, b: Node, name: string, changed: string)
    requires SameShape(a, b) && a.kind != TexImageKind
    requires forall k :: 0 <= k < |a.inputs| && !IsInput(a, changed, k) ==> b.inputs[k] == a.inputs[k]
    requires name != changed
    ensures Input(b, name) == Input(a, name) && TextureFor(b, name) == TextureFor(a, name)
  {
    InputIndexSameNames(a.inputs, b.inputs, name);
    match InputIndex(a.inputs, name)
    case None =>
    case Some(k) =>
      assert !IsInput(a, changed, k);
      SearchFollowsGivenInput(a, a.inputs[k]);
      SearchFollowsGivenInput(b, a.inputs[k]);
  }

  /** The first step, Base Color: it changes no lookup the later steps make. */
  lemma BaseColorStep(bsdf: Node, n1: Node)
    requires bsdf.kind == PrincipledKind
    requires LinkTexture(bsdf, "Base Color", "Base Color") == Value(n1)
    ensures SameShape(bsdf, n1)
    ensures forall k :: 0 <= k < |bsdf.inputs| ==> n1.inputs[k] == Rewired(bsdf, k, "Base Color", TextureFor(bsdf, "Base Color"))
    ensures Input(n1, "Roughness") == Input(bsdf, "Roughness") && TextureFor(n1, "Roughness") == TextureFor(bsdf, "Roughness")
    ensures Input(n1, "Specular") == Input(bsdf, "Specular")
    ensures Input(n1, "Metallic") == Input(bsdf, "Metallic") && TextureFor(n1, "Metallic") == TextureFor(bsdf, "Metallic")
  {
    LinkTextureEffect(bsdf, "Base Color", "Base Color");
    SameLookup(bsdf, n1, "Roughness", "Base Color");
    SameLookup(bsdf, n1, "Specular", "Base Color");
    SameLookup(bsdf, n1, "Metallic", "Base Color");
  }

  /** The second step, Roughness into Specular: it changes no lookup the last step makes. */
  lemma SpecularStep(n1: Node, n2: Node)
    requires n1.kind == PrincipledKind
    requires LinkTexture(n1, "Roughness", "Specular") == Value(n2)
    ensures SameShape(n1, n2)
    ensures forall k :: 0 <= k < |n1.inputs| ==> n2.inputs[k] == Rewired(n1, k, "Specular", TextureFor(n1, "Roughness"))
    ensures Input(n2, "Roughness") == Input(n1, "Roughness")
    ensures Input(n2, "Metallic") == Input(n1, "Metallic") && TextureFor(n2, "Metallic") == TextureFor(n1, "Metallic")
  {
    LinkTextureEffect(n1, "Roughness", "Specular");
    SameLookup(n1, n2, "Roughness", "Specular");
    SameLookup(n1, n2, "Metallic", "Specular");
  }

  /**
   * With the three inputs present, every texture found having a Color
   * output and a Specular input present when a Roughness texture is found,
   * FixMaterials raises nothing on the node and leaves each input as
   * ExpectedInput says: the three lookups all see the original links.
   */
  lemma FixBsdfEffect(bsdf: Node)
    requires bsdf.kind == PrincipledKind
    requires Input(bsdf, "Base Color").Some? && Input(bsdf, "Roughness").Some? && Input(bsdf, "Metallic").Some?
    requires var t := TextureFor(bsdf, "Base Color"); t.Some? ==> "Color" in t.value.outputs
    requires var t := TextureFor(bsdf, "Roughness");
             t.Some? ==> "Color" in t.value.outputs && Input(bsdf, "Specular").Some?
    requires var t := TextureFor(bsdf, "Metallic"); t.Some? ==> "Color" in t.value.outputs
    ensures FixBsdf(bsdf).error.None?
    ensures var tb, tr, tm := TextureFor(bsdf, "Base Color"), TextureFor(bsdf, "Roughness"), TextureFor(bsdf, "Metallic");
            forall k :: 0 <= k < |bsdf.inputs| ==>
              (IsInput(bsdf, "Metallic", k) && tm.Some? ==> IsLinked(bsdf.inputs[k]))
              && FixBsdf(bsdf).value.inputs[k] == ExpectedInput(bsdf, k, tb, tr, tm)
  {
    var tb, tr, tm := TextureFor(bsdf, "Base Color"), TextureFor(bsdf, "Roughness"), TextureFor(bsdf, "Metallic");
    var n1 := LinkTexture(bsdf, "Base Color", "Base Color").value;
    BaseColorStep(bsdf, n1);
    var n2 := LinkTexture(n1, "Roughness", "Specular").value;
    SpecularStep(n1, n2);
    MetallicStepEffect(n2);
    SameNamesSameInputs(bsdf, n1);
    SameNamesSameInputs(n1, n2);
    MetallicLinked(bsdf);
    var last := MetallicStep(n2).value;
    assert FixBsdf(bsdf) == MetallicStep(n2);
    forall k | 0 <= k < |bsdf.inputs|
      ensures last.inputs[k] == ExpectedInput(bsdf, k, tb, tr, tm)
    {
      ExpectedInputAt(bsdf, n1, n2, last, k, tb, tr, tm);
    }
  }

  /** A Metallic texture is found only through a linked Metallic input. */
  lemma MetallicLinked(bsdf: Node)
    requires bsdf.kind == PrincipledKind
    ensures forall k :: 0 <= k < |bsdf.inputs| && IsInput(bsdf, "Metallic", k) && TextureFor(bsdf, "Metallic").Some?
                        ==> IsLinked(bsdf.inputs[k])
  {
    match InputIndex(bsdf.inputs, "Metallic")
    case None =>
    case Some(k) => SearchFollowsGivenInput(bsdf, bsdf.inputs[k]);
  }

  /** The three steps, at one input. */
  lemma ExpectedInputAt(bsdf: Node, n1: Node, n2: Node, last: Node, k: nat,
                        tb: Option<Node>, tr: Option<Node>, tm: Option<Node>)
    requires k < |bsdf.inputs|
    requires |n1.inputs| == |bsdf.inputs| && |n2.inputs| == |bsdf.inputs| && |last.inputs| == |bsdf.inputs|
    requires forall name :: IsInput(n1, name, k) <==> IsInput(bsdf, name, k)
    requires forall name :: IsInput(n2, name, k) <==> IsInput(n1, name, k)
    requires IsInput(bsdf, "Metallic", k) && tm.Some? ==> IsLinked(bsdf.inputs[k])
    requires n1.inputs[k] == Rewired(bsdf, k, "Base Color", tb)
    requires n2.inputs[k] == Rewired(n1, k, "Specular", tr)
    requires last.inputs[k] == if IsInput(n2, "Metallic", k) && tm.Some?
                               then n2.inputs[k].(links := n2.inputs[k].links[1..])
                               else Rewired(n2, k, "Roughness", tm)
    ensures last.inputs[k] == ExpectedInput(bsdf, k, tb, tr, tm)
  {
  }

  /**
   * Blender 4 renamed the Principled BSDF's "Specular" input: with a
   * Roughness texture and no "Specular" input, FixMaterials raises KeyError
   * after the Base Color link has been made.
   */
  lemma MissingSpecularRaises(bsdf: Node)
    requires bsdf.kind == PrincipledKind
    requires Input(bsdf, "Base Color").Some?
    requires var t := TextureFor(bsdf, "Base Color"); t.Some? ==> "Color" in t.value.outputs
    requires TextureFor(bsdf, "Roughness").Some? && Input(bsdf, "Specular").None?
    ensures FixBsdf(bsdf) == Fixed(LinkTexture(bsdf, "Base Color", "Base Color").value, Some(KeyError))
  {
    var n1 := LinkTexture(bsdf, "Base Color", "Base Color").value;
    BaseColorStep(bsdf, n1);
  }

  /**
   * One iteration of FixMaterials: only the material's first Principled
   * BSDF node changes, as FixBsdf says; a material without one is left alone.
   */
  function FixMaterial(mat: Material): (r: Fixed<Material>)
    ensures |r.value.nodes| == |mat.nodes|
  {
    match FindBsdfNode(mat)
    case None => Fixed(mat, None)
    case Some(i) =>
      var f := FixBsdf(mat.nodes[i]);
      Fixed(mat.(nodes := mat.nodes[i := f.value]), f.error)
  }

  /**
   * Fixing a material changes its first Principled BSDF node as FixBsdf
   * says and no other node; every node keeps its type, so the same node is
   * still the one FindBSDFNode finds; a material without one never raises.
   */
  lemma FixMaterialShape(mat: Material)
    ensures var r := FixMaterial(mat);
            r.value.name == mat.name && r.value.useNodes == mat.useNodes
            && (forall k :: 0 <= k < |mat.nodes| ==> r.value.nodes[k].kind == mat.nodes[k].kind)
            && (forall k :: 0 <= k < |mat.nodes| && FindBsdfNode(mat) != Some(k) ==> r.value.nodes[k] == mat.nodes[k])
            && (FindBsdfNode(mat).None? ==> r.error.None?)
            && (FindBsdfNode(mat).Some? ==>
                  var i := FindBsdfNode(mat).value;
                  r.value.nodes[i] == FixBsdf(mat.nodes[i]).value && r.error == FixBsdf(mat.nodes[i]).error)
            && FindBsdfNode(r.value) == FindBsdfNode(mat)
  {
    var r := FixMaterial(mat);
    assert forall k :: 0 <= k < |mat.nodes| ==> r.value.nodes[k].kind == mat.nodes[k].kind;
  }

  /**
   * FixMaterials over bpy.data.materials in order: an exception stops the
   * loop, leaving the earlier materials fixed, the failing one as far as it
   * got and the rest untouched.
   */
  function FixMaterialsSpec(mats: seq<Material>): (r: Fixed<seq<Material>>)
    ensures |r.value| == |mats|
  {
    if |mats| == 0 then Fixed([], None)
    else
      var f := FixMaterial(mats[0]);
      if f.error.Some? then Fixed([f.value] + mats[1..], f.error)
      else
        var rest := FixMaterialsSpec(mats[1..]);
        Fixed([f.value] + rest.value, rest.error)
  }

  /** No material of `mats` raises. */
  predicate NoneRaises(mats: seq<Material>) {
    forall k :: 0 <= k < |mats| ==> FixMaterial(mats[k]).error.None?
  }

  lemma NoneRaisesCons(mats: seq<Material>)
    requires |mats| > 0
    ensures NoneRaises(mats) <==> FixMaterial(mats[0]).error.None? && NoneRaises(mats[1..])
  {
    assert forall k :: 1 <= k < |mats| ==> mats[k] == mats[1..][k - 1];
  }

  /** The loop raises exactly when some material does, and then with that material's exception. */
  lemma {:induction false} FixMaterialsErrors(mats: seq<Material>)
    ensures var r := FixMaterialsSpec(mats);
            (r.error.None? <==> forall k :: 0 <= k < |mats| ==> FixMaterial(mats[k]).error.None?)
            && (r.error.Some? ==> exists k :: 0 <= k < |mats| && FixMaterial(mats[k]).error == r.error)
  {
    if |mats| > 0 {
      NoneRaisesCons(mats);
      if FixMaterial(mats[0]).error.None? {
        FixMaterialsErrors(mats[1..]);
        var r := FixMaterialsSpec(mats[1..]);
        assert FixMaterialsSpec(mats).error == r.error;
        if r.error.Some? {
          var k :| 0 <= k < |mats| - 1 && FixMaterial(mats[1..][k]).error == r.error;
          assert mats[1..][k] == mats[k + 1];
        }
      }
    }
  }

  /** When no material raises, every material is replaced by its fixed version. */
  lemma {:induction false} FixMaterialsClean(mats: seq<Material>, fixed: seq<Material>)
    requires |fixed| == |mats|
    requires forall k :: 0 <= k < |mats| ==> FixMaterial(mats[k]) == Fixed(fixed[k], None)
    ensures FixMaterialsSpec(mats) == Fixed(fixed, None)
  {
    if |mats| > 0 {
      FixMaterialsClean(mats[1..], fixed[1..]);
      assert fixed == [fixed[0]] + fixed[1..];
    }
  }

  /** The first material that raises ends the loop with that exception. */
  lemma {:induction false} FixMaterialsFails(mats: seq<Material>, fixed: seq<Material>, i: nat, e: string)
    requires i < |mats| && |fixed| == |mats|
    requires forall k :: 0 <= k < i ==> FixMaterial(mats[k]) == Fixed(fixed[k], None)
    requires FixMaterial(mats[i]) == Fixed(fixed[i], Some(e))
    requires fixed[i + 1..] == mats[i + 1..]
    ensures FixMaterialsSpec(mats) == Fixed(fixed, Some(e))
  {
    if i == 0 {
      assert fixed == [fixed[0]] + mats[1..];
    } else {
      FailsLater(mats, fixed, i, e);
      FixMaterialsFails(mats[1..], fixed[1..], i - 1, e);
      assert FixMaterial(mats[0]) == Fixed(fixed[0], None);
      assert fixed == [fixed[0]] + fixed[1..];
    }
  }

  /** The conditions of FixMaterialsFails, one material further on. */
  lemma FailsLater(mats: seq<Material>, fixed: seq<Material>, i: nat, e: string)
    requires 0 < i < |mats| && |fixed| == |mats|
    requires forall k :: 0 <= k < i ==> FixMaterial(mats[k]) == Fixed(fixed[k], None)
    requires FixMaterial(mats[i]) == Fixed(fixed[i], Some(e))
    requires fixed[i + 1..] == mats[i + 1..]
    ensures forall k :: 0 <= k < i - 1 ==> FixMaterial(mats[1..][k]) == Fixed(fixed[1..][k], None)
    ensures FixMaterial(mats[1..][i - 1]) == Fixed(fixed[1..][i - 1], Some(e))
    ensures fixed[1..][i..] == mats[1..][i..]
  {
    forall k | 0 <= k < i - 1 ensures FixMaterial(mats[1..][k]) == Fixed(fixed[1..][k], None) {
      assert mats[1..][k] == mats[k + 1] && fixed[1..][k] == fixed[k + 1];
    }
    assert fixed[1..][i..] == fixed[i + 1..];
    assert mats[1..][i..] == mats[i + 1..];
  }

  // ---------------------------------------------------------------------
  // Objects, collections and the selection
  // ---------------------------------------------------------------------

  datatype Vector3 = Vector3(x: real, y: real, z: real)

  /** mathutils.Vector(): the zero vector. */
  const Origin := Vector3(0.0, 0.0, 0.0)

  /** mathutils.Matrix(): the 4x4 identity, row by row. */
  const IdentityMatrix: seq<seq<real>> :=
    [[1.0, 0.0, 0.0, 0.0], [0.0, 1.0, 0.0, 0.0], [0.0, 0.0, 1.0, 0.0], [0.0, 0.0, 0.0, 1.0]]

  /** An object of bpy.data.objects; `visible` is what visible_get() answers. */
  datatype SceneObject = SceneObject(name: string, location: Vector3, matrixWorld: seq<seq<real>>,
                                     visible: bool, selected: bool)

  /** A collection of bpy.data.collections: its name and all_objects, as positions in the object list. */
  datatype CollectionData = CollectionData(name: string, allObjects: seq<nat>)

  /** bpy.data.collections[name]: the position of the collection with that name, if any. */
  function CollectionIndex(collections: seq<CollectionData>, name: string): (r: Option<nat>)
    ensures r.Some? ==> r.value < |collections| && collections[r.value].name == name
    ensures r.None? <==> forall c :: 0 <= c < |collections| ==> collections[c].name != name
  {
    if |collections| == 0 then None
    else if collections[0].name == name then Some(0)
    else match CollectionIndex(collections[1..], name)
         case None => None
         case Some(c) => Some(c + 1)
  }

  /** Object j is among the all_objects of the collection called `name`. */
  predicate Member(collections: seq<CollectionData>, name: string, j: nat) {
    match CollectionIndex(collections, name)
    case None => false
    case Some(c) => j in collections[c].allObjects
  }

  /** Object j is in one of the named collections. */
  predicate InNamed(collections: seq<CollectionData>, names: seq<string>, j: nat) {
    exists k :: 0 <= k < |names| && Member(collections, names[k], j)
  }

  /**
   * The names the selection loop gets through: the longest prefix of
   * `names` that all name collections; the name after it raises KeyError.
   */
  function ResolvedPrefix(collections: seq<CollectionData>, names: seq<string>): (r: seq<string>)
    ensures |r| <= |names| && r == names[..|r|]
    ensures forall k :: 0 <= k < |r| ==> CollectionIndex(collections, r[k]).Some?
    ensures |r| < |names| ==> CollectionIndex(collections, names[|r|]).None?
  {
    if |names| == 0 || CollectionIndex(collections, names[0]).None? then []
    else [names[0]] + ResolvedPrefix(collections, names[1..])
  }

  /** A prefix up to a name that does not resolve, or to the end, is the resolved prefix. */
  lemma ResolvedPrefixAt(collections: seq<CollectionData>, names: seq<string>, i: nat)
    requires i <= |names|
    requires forall k :: 0 <= k < i ==> CollectionIndex(collections, names[k]).Some?
    requires i < |names| ==> CollectionIndex(collections, names[i]).None?
    ensures ResolvedPrefix(collections, names) == names[..i]
  {
  }

  /** Going one name further adds that collection's objects. */
  lemma InNamedNext(collections: seq<CollectionData>, names: seq<string>, i: nat, j: nat)
    requires i < |names|
    ensures InNamed(collections, names[..i + 1], j) <==> InNamed(collections, names[..i], j) || Member(collections, names[i], j)
  {
    var next := names[..i + 1];
    if InNamed(collections, next, j) && !Member(collections, names[i], j) {
      var k :| 0 <= k < |next| && Member(collections, next[k], j);
      assert names[..i][k] == next[k];
    }
    if InNamed(collections, names[..i], j) {
      var k :| 0 <= k < i && Member(collections, names[..i][k], j);
      assert next[k] == names[..i][k];
    }
    if Member(collections, names[i], j) {
      assert next[i] == names[i];
    }
  }

  /**
   * `if enabled_collections:` picks the objects of the named collections
   * (those the loop reaches); None or an empty list picks every object.
   */
  predicate Chosen(collections: seq<CollectionData>, enabled: Option<seq<string>>, j: nat) {
    if enabled.Some? && |enabled.value| > 0 then InNamed(collections, ResolvedPrefix(collections, enabled.value), j)
    else true
  }

  /** The selection block raises nothing: no list, or every listed name is a collection. */
  predicate SelectionSucceeds(collections: seq<CollectionData>, enabled: Option<seq<string>>) {
    enabled.Some? && |enabled.value| > 0 ==> ResolvedPrefix(collections, enabled.value) == enabled.value
  }

  /**
   * The objects after the selection loop: each visible chosen object gets
   * selected; nothing else about any object changes.
   */
  function SelectedObjects(objs: seq<SceneObject>, collections: seq<CollectionData>, enabled: Option<seq<string>>)
    : (r: seq<SceneObject>)
    ensures |r| == |objs|
    ensures forall j :: 0 <= j < |r| ==> r[j].(selected := objs[j].selected) == objs[j]
    ensures forall j :: 0 <= j < |r| && objs[j].selected ==> r[j].selected
    ensures forall j :: 0 <= j < |r| && r[j].selected && !objs[j].selected ==> objs[j].visible && Chosen(collections, enabled, j)
    ensures forall j :: 0 <= j < |r| && objs[j].visible && Chosen(collections, enabled, j) ==> r[j].selected
  {
    seq(|objs|, j requires 0 <= j < |objs| =>
      objs[j].(selected := objs[j].selected || (objs[j].visible && Chosen(collections, enabled, j))))
  }

  /**
   * With no collection list, or an empty one, every visible object is
   * exported along with whatever was selected before.
   */
  lemma NoListSelectsVisible(objs: seq<SceneObject>, collections: seq<CollectionData>, enabled: Option<seq<string>>)
    requires enabled.None? || enabled.value == []
    ensures forall j :: 0 <= j < |objs| ==>
              (SelectedObjects(objs, collections, enabled)[j].selected <==> objs[j].selected || objs[j].visible)
  {
  }

  /**
   * With a list whose names all resolve, an object is exported exactly
   * when it was selected already or is visible and in a listed collection.
   */
  lemma ListSelectsMembers(objs: seq<SceneObject>, collections: seq<CollectionData>, names: seq<string>)
    requires |names| > 0
    requires forall k :: 0 <= k < |names| ==> CollectionIndex(collections, names[k]).Some?
    ensures forall j :: 0 <= j < |objs| ==>
              (SelectedObjects(objs, collections, Some(names))[j].selected
               <==> objs[j].selected
                    || (objs[j].visible
                        && exists k :: 0 <= k < |names| && j in collections[CollectionIndex(collections, names[k]).value].allObjects))
  {
    ResolvedPrefixAt(collections, names, |names|);
    assert names[..|names|] == names;
  }

  /**
   * The importer's settings carry through: an empty collection list in the
   * dialog reaches the script as None and every visible object is exported.
   */
  lemma EmptyDialogListExportsVisible(outputFilename: string, useObjectPivot: bool, fixMaterials: bool,
                                      unpack: bool, blendFilePath: string,
                                      objs: seq<SceneObject>, collections: seq<CollectionData>)
    ensures var c := DecodeEnvironment(AssetFactory.ExportVariables(outputFilename, useObjectPivot, fixMaterials,
                                                                    [], unpack), blendFilePath);
            c.enabledCollections.None?
            && forall j :: 0 <= j < |objs| ==>
                 (SelectedObjects(objs, collections, c.enabledCollections)[j].selected
                  <==> objs[j].selected || objs[j].visible)
  {
    ExportVariablesDecoded(outputFilename, useObjectPivot, fixMaterials, [], unpack, blendFilePath);
  }

  /** The objects after the pivot block: each at the origin with an identity world matrix, nothing else changed. */
  function ResetObjects(objs: seq<SceneObject>): (r: seq<SceneObject>)
    ensures |r| == |objs|
    ensures forall j :: 0 <= j < |r| ==> r[j].location == Origin && r[j].matrixWorld == IdentityMatrix
    ensures forall j :: 0 <= j < |r| ==>
              r[j].name == objs[j].name && r[j].visible == objs[j].visible && r[j].selected == objs[j].selected
  {
    seq(|objs|, j requires 0 <= j < |objs| => objs[j].(location := Origin, matrixWorld := IdentityMatrix))
  }

  /** Resetting twice is resetting once, and the reset leaves the selection to be made as before. */
  lemma ResetThenSelect(objs: seq<SceneObject>, collections: seq<CollectionData>, enabled: Option<seq<string>>)
    ensures ResetObjects(ResetObjects(objs)) == ResetObjects(objs)
    ensures forall j :: 0 <= j < |objs| ==>
              SelectedObjects(ResetObjects(objs), collections, enabled)[j].selected
              == SelectedObjects(objs, collections, enabled)[j].selected
  {
    assert forall j :: 0 <= j < |objs| ==> ResetObjects(ResetObjects(objs))[j] == ResetObjects(objs)[j];
  }

  // ---------------------------------------------------------------------
  // The export call
  // ---------------------------------------------------------------------

  /** The arguments of bpy.ops.export_scene.fbx that depend on the settings. */
  datatype FbxExport = FbxExport(filepath: string, pathMode: string, embedTextures: bool)

  /** Unpacking copies and embeds the textures; otherwise path_mode stays "AUTO". */
  function ExportCall(c: ExportConfig): (r: FbxExport)
    ensures r.filepath == c.outfile
    ensures r.embedTextures <==> c.unpack
    ensures r.pathMode == (if c.unpack then "COPY" else "AUTO")
  {
    if c.unpack then FbxExport(c.outfile, "COPY", true) else FbxExport(c.outfile, "AUTO", false)
  }

  /** The Blender data the export script changes. */
  class Scene {
    var materials: seq<Material>
    var objects: seq<SceneObject>
    const collections: seq<CollectionData>

    /** Every collection member is an object of the scene. */
    predicate Valid()
      reads this
    {
      forall c, m :: 0 <= c < |collections| && 0 <= m < |collections[c].allObjects| ==>
        collections[c].allObjects[m] < |objects|
    }

    /** Collections refer only to objects of the scene, as Blender's references do. */
    constructor (materials: seq<Material>, objects: seq<SceneObject>, collections: seq<CollectionData>)
      requires forall c, m :: 0 <= c < |collections| && 0 <= m < |collections[c].allObjects| ==>
        collections[c].allObjects[m] < |objects|
      ensures this.materials == materials && this.objects == objects && this.collections == collections
      ensures Valid()
    {
      this.materials := materials;
      this.objects := objects;
      this.collections := collections;
    }

    /** FixMaterials(): material by material, stopping at the first exception. */
    method FixMaterials() returns (error: Option<string>)
      modifies this
      ensures FixMaterialsSpec(old(materials)) == Fixed(materials, error)
      ensures objects == old(objects)
    {
      var i := 0;
      while i < |materials|
        invariant 0 <= i <= |materials| && |materials| == |old(materials)|
        invariant materials[i..] == old(materials)[i..]
        invariant forall k :: 0 <= k < i ==> FixMaterial(old(materials)[k]) == Fixed(materials[k], None)
        invariant objects == old(objects)
      {
        var f := FixMaterial(materials[i]);
        assert materials[i] == old(materials)[i];
        materials := materials[i := f.value];
        if f.error.Some? {
          assert materials[i + 1..] == old(materials)[i + 1..];
          FixMaterialsFails(old(materials), materials, i, f.error.value);
          return f.error;
        }
        i := i + 1;
      }
      FixMaterialsClean(old(materials), materials);
      return None;
    }

    /** With the pivot flag: every object moves to the origin with an identity world matrix. */
    method ResetTransforms()
      modifies this
      ensures materials == old(materials)
      ensures objects == ResetObjects(old(objects))
    {
      var j := 0;
      while j < |objects|
        invariant 0 <= j <= |objects| && |objects| == |old(objects)| && materials == old(materials)
        invariant forall k :: 0 <= k < j ==> objects[k] == old(objects)[k].(location := Origin, matrixWorld := IdentityMatrix)
        invariant objects[j..] == old(objects)[j..]
      {
        objects := objects[j := objects[j].(location := Origin)];
        objects := objects[j := objects[j].(matrixWorld := IdentityMatrix)];
        j := j + 1;
      }
      assert forall k :: 0 <= k < |objects| ==> objects[k] == ResetObjects(old(objects))[k];
    }

    /**
     * The selection block: the visible objects of each listed collection,
     * or of the whole scene when the list is None or empty.
     */
    method SelectForExport(enabled: Option<seq<string>>) returns (error: Option<string>)
      requires Valid()
      modifies this
      ensures Valid() && materials == old(materials)
      ensures objects == SelectedObjects(old(objects), collections, enabled)
      ensures error.None? <==> SelectionSucceeds(collections, enabled)
      ensures error.Some? ==> error == Some(KeyError)
    {
      if enabled.Some? && |enabled.value| > 0 {
        error := SelectCollections(enabled.value);
      } else {
        SelectVisible();
        error := None;
      }
      assert forall j :: 0 <= j < |objects| ==> objects[j] == SelectedObjects(old(objects), collections, enabled)[j];
    }

    /** The else branch: every visible object is selected. */
    method SelectVisible()
      modifies this
      ensures materials == old(materials) && |objects| == |old(objects)|
      ensures forall j :: 0 <= j < |objects| ==>
                objects[j] == old(objects)[j].(selected := old(objects)[j].selected || old(objects)[j].visible)
    {
      var j := 0;
      while j < |objects|
        invariant 0 <= j <= |objects| && |objects| == |old(objects)| && materials == old(materials)
        invariant forall k :: 0 <= k < j ==>
                    objects[k] == old(objects)[k].(selected := old(objects)[k].selected || old(objects)[k].visible)
        invariant objects[j..] == old(objects)[j..]
      {
        if objects[j].visible {
          objects := objects[j := objects[j].(selected := true)];
        }
        j := j + 1;
      }
    }

    /**
     * The loop over the listed names: the visible objects of each named
     * collection in turn; a name that is not a collection raises KeyError,
     * keeping the selections made before it.
     */
    method SelectCollections(names: seq<string>) returns (error: Option<string>)
      requires Valid()
      modifies this
      ensures materials == old(materials) && |objects| == |old(objects)|
      ensures forall j :: 0 <= j < |objects| ==>
                objects[j] == old(objects)[j].(selected := old(objects)[j].selected
                                                 || (old(objects)[j].visible
                                                     && InNamed(collections, ResolvedPrefix(collections, names), j)))
      ensures error.None? <==> ResolvedPrefix(collections, names) == names
      ensures error.Some? ==> error == Some(KeyError)
    {
      var i := 0;
      while i < |names|
        invariant 0 <= i <= |names|
        invariant forall k :: 0 <= k < i ==> CollectionIndex(collections, names[k]).Some?
        invariant |objects| == |old(objects)| && materials == old(materials)
        invariant forall j :: 0 <= j < |objects| ==>
                    objects[j] == old(objects)[j].(selected := old(objects)[j].selected
                                                     || (old(objects)[j].visible && InNamed(collections, names[..i], j)))
      {
        var c := CollectionIndex(collections, names[i]);
        if c.None? {
          ResolvedPrefixAt(collections, names, i);
          return Some(KeyError);
        }
        SelectMembers(c.value, names, i);
        forall j | 0 <= j < |objects|
          ensures InNamed(collections, names[..i + 1], j) <==> InNamed(collections, names[..i], j) || Member(collections, names[i], j)
        {
          InNamedNext(collections, names, i, j);
        }
        i := i + 1;
      }
      ResolvedPrefixAt(collections, names, i);
      return None;
    }

    /** The inner loop: select the visible objects of collection c, the one called names[i]. */
    method SelectMembers(c: nat, names: seq<string>, i: nat)
      requires Valid() && i < |names| && CollectionIndex(collections, names[i]) == Some(c)
      modifies this
      ensures materials == old(materials) && |objects| == |old(objects)|
      ensures forall j :: 0 <= j < |objects| ==>
                objects[j] == old(objects)[j].(selected := old(objects)[j].selected
                                                 || (old(objects)[j].visible && Member(collections, names[i], j)))
    {
      var members := collections[c].allObjects;
      var m := 0;
      while m < |members|
        invariant 0 <= m <= |members| && |objects| == |old(objects)| && materials == old(materials)
        invariant forall j :: 0 <= j < |objects| ==>
                    objects[j] == old(objects)[j].(selected := old(objects)[j].selected
                                                     || (old(objects)[j].visible && j in members[..m]))
      {
        var j := members[m];
        if objects[j].visible {
          objects := objects[j := objects[j].(selected := true)];
        }
        assert members[..m + 1] == members[..m] + [j];
        m := m + 1;
      }
      assert members[..m] == members;
    }

    /**
     * The script's top level: decode the environment, fix the materials
     * when asked (an exception ends the script), reset the transforms when
     * asked, select, and call the FBX exporter on the selection.
     */
    method RunExport(env: map<string, string>, blendFilePath: string) returns (r: Py<FbxExport>)
      requires Valid()
      modifies this
      ensures Valid()
      ensures var c := DecodeEnvironment(env, blendFilePath);
              var fixedMaterials := if c.fixMaterials then FixMaterialsSpec(old(materials)) else Fixed(old(materials), None);
              var placed := if c.setObjectPivot then ResetObjects(old(objects)) else old(objects);
              materials == fixedMaterials.value
              && (fixedMaterials.error.Some? ==> r == Raise(fixedMaterials.error.value) && objects == old(objects))
              && (fixedMaterials.error.None? ==>
                    objects == SelectedObjects(placed, collections, c.enabledCollections)
                    && (r.Value? <==> SelectionSucceeds(collections, c.enabledCollections))
                    && (r.Value? ==> r.value == ExportCall(c))
                    && (r.Raise? ==> r.exception == KeyError))
    {
      var c := DecodeEnvironment(env, blendFilePath);
      if c.fixMaterials {
        var error := FixMaterials();
        if error.Some? {
          return Raise(error.value);
        }
      }
      if c.setObjectPivot {
        ResetTransforms();
      }
      var error := SelectForExport(c.enabledCollections);
      if error.Some? {
        return Raise(error.value);
      }
      return Value(ExportCall(c));
    }
  }
}
