/**
 * The part of Blender's data the two scripts look at: materials with their
 * shader node graphs, and the view layer's collection tree.  A link holds
 * the node it comes from by value, so a node graph is a tree of nodes
 * rooted where the walk starts.  Both scripts run inside Blender's Python;
 * an exception ends the script.
 */
module BlendData {
  import opened Wrappers

  /** A Python value, or the exception that ends the script. */
  datatype Py<T> = Value(value: T) | Raise(exception: string)

  const KeyError := "KeyError"
  const AttributeError := "AttributeError"

  /** An image datablock and whether its data is packed into the .blend file. */
  datatype Image = Image(name: string, packed: bool)

  /**
   * A shader node: its type identifier (node.type), its input sockets, the
   * names of its output sockets and, for an image texture node, its image.
   */
  datatype Node = Node(kind: string, inputs: seq<Socket>, outputs: seq<string>, image: Option<Image>)

  /** An input socket and the links feeding it. */
  datatype Socket = Socket(name: string, links: seq<Link>)

  /** A link: the node and output socket it comes from. */
  datatype Link = Link(fromNode: Node, fromSocket: string)

  datatype Material = Material(name: string, useNodes: bool, nodes: seq<Node>)

  /** A layer collection of the view layer and its children. */
  datatype LayerCollection = LayerCollection(name: string, exclude: bool, hideViewport: bool,
                                             children: seq<LayerCollection>)

  predicate IsLinked(s: Socket) { |s.links| > 0 }

  /** The position of the first input socket named `name` (node.inputs[name]), if any. */
  function InputIndex(inputs: seq<Socket>, name: string): (r: Option<nat>)
    ensures r.Some? ==> r.value < |inputs| && inputs[r.value].name == name
                        && forall k :: 0 <= k < r.value ==> inputs[k].name != name
    ensures r.None? ==> forall k :: 0 <= k < |inputs| ==> inputs[k].name != name
  {
    if |inputs| == 0 then None
    else if inputs[0].name == name then Some(0)
    else match InputIndex(inputs[1..], name)
         case None => None
         case Some(k) => Some(k + 1)
  }

  /** Sockets with the same names in the same places are looked up at the same place. */
  lemma {:induction false} InputIndexSameNames(a: seq<Socket>, b: seq<Socket>, name: string)
    requires |a| == |b| && forall k :: 0 <= k < |a| ==> a[k].name == b[k].name
    ensures InputIndex(a, name) == InputIndex(b, name)
  {
    if |a| > 0 {
      InputIndexSameNames(a[1..], b[1..], name);
    }
  }

  /** node.inputs[name]: the socket, or None where Python raises KeyError. */
  function Input(node: Node, name: string): (r: Option<Socket>)
    ensures r.Some? ==> r.value in node.inputs && r.value.name == name
    ensures r.None? <==> forall k :: 0 <= k < |node.inputs| ==> node.inputs[k].name != name
  {
    match InputIndex(node.inputs, name)
    case None => None
    case Some(k) => Some(node.inputs[k])
  }

  /** The position of the first node of the given type, if any. */
  function FirstOfKind(nodes: seq<Node>, kind: string): (r: Option<nat>)
    ensures r.Some? ==> r.value < |nodes| && nodes[r.value].kind == kind
                        && forall k :: 0 <= k < r.value ==> nodes[k].kind != kind
    ensures r.None? ==> forall k :: 0 <= k < |nodes| ==> nodes[k].kind != kind
  {
    if |nodes| == 0 then None
    else if nodes[0].kind == kind then Some(0)
    else match FirstOfKind(nodes[1..], kind)
         case None => None
         case Some(k) => Some(k + 1)
  }

  const OutputMaterialKind := "OUTPUT_MATERIAL"
  const PrincipledKind := "BSDF_PRINCIPLED"
  const NormalMapKind := "NORMAL_MAP"
  const TexImageKind := "TEX_IMAGE"
}
