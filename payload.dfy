// A payload as the walkers of app/core/utils.py see it: a graph of nodes with stable
// identities. A handle plays the role of Python's `id(obj)`; the same handle reached along
// two paths is the same object, and a cycle is a path that comes back to a handle.

module Payload {

  import opened Json

  /** The identity of an object (`id(obj)`). */
  type Handle = nat

  /** The python-telegram-bot classes the entity logger asks about. */
  datatype Cls =
    | UserClass | ChatClass | MessageClass | ChatPhotoClass
    | PhotoSizeClass | AnimationClass | AudioClass | DocumentClass | VideoClass
    | VideoNoteClass | VoiceClass | StickerClass | PassportFileClass
    | TelegramObjectClass

  /** What `getattr(obj, name)` does for one public name of `dir(obj)`. */
  datatype AttrValue = Raises | Ref(target: Handle)

  datatype Attribute = Attribute(name: string, value: AttrValue)

  /**
   * A dict (its values, in order), a list/tuple/set (its items) or any other object.
   * An object carries the classes it is an instance of, its attribute values as a record
   * (`hasattr` is membership in `data`; for a Telegram object this is also its `to_dict()`),
   * and the names of `dir(obj)` with the objects they lead to. Scalars are not nodes:
   * no scalar is an instance of a Telegram class, so the walk never needs to enter one.
   */
  datatype Node =
    | DictNode(values: seq<Handle>)
    | SeqNode(items: seq<Handle>)
    | ObjNode(classes: set<Cls>, data: Dict, attrs: seq<Attribute>)

  type Graph = map<Handle, Node>

  /** A name the walk reads: one that does not start with an underscore. */
  predicate IsPublic(name: string)
  {
    name == [] || name[0] != '_'
  }

  /** The objects reached through the public attributes that do not raise, in `dir` order. */
  function PublicRefs(attrs: seq<Attribute>): (r: seq<Handle>)
    ensures forall h :: h in r <==>
      exists i :: 0 <= i < |attrs| && IsPublic(attrs[i].name) && attrs[i].value == Ref(h)
  {
    if attrs == [] then []
    else
      var rest := PublicRefs(attrs[1..]);
      assert forall i :: 1 <= i < |attrs| ==> attrs[i] == attrs[1..][i - 1];
      if IsPublic(attrs[0].name) && attrs[0].value.Ref? then [attrs[0].value.target] + rest
      else rest
  }

  /** The children the walk descends into, in the order it visits them. */
  function Children(n: Node): (r: seq<Handle>)
    ensures n.DictNode? ==> r == n.values
    ensures n.SeqNode? ==> r == n.items
    ensures n.ObjNode? ==> forall h :: h in r <==>
      exists i :: 0 <= i < |n.attrs| && IsPublic(n.attrs[i].name) && n.attrs[i].value == Ref(h)
  {
    match n
    case DictNode(vs) => vs
    case SeqNode(xs) => xs
    case ObjNode(_, _, attrs) => PublicRefs(attrs)
  }

  /** Every child of every node is itself a node of the graph. */
  predicate Closed(g: Graph)
  {
    forall h, c :: h in g && c in Children(g[h]) ==> c in g
  }

  /** `isinstance(obj, cls)` */
  predicate IsInstance(n: Node, cls: Cls)
  {
    n.ObjNode? && cls in n.classes
  }

  /** `all(hasattr(obj, a) for a in names)`; a dict or a list has none of the Telegram fields. */
  predicate HasAttrs(n: Node, names: seq<string>)
  {
    names == [] || (n.ObjNode? && forall i :: 0 <= i < |names| ==> names[i] in n.data)
  }

  /** A walk along child edges: each step goes from a node to one of its children. */
  predicate IsPath(g: Graph, p: seq<Handle>)
  {
    |p| >= 1
    && (forall i :: 0 <= i < |p| ==> p[i] in g)
    && (forall i :: 0 <= i < |p| - 1 ==> p[i + 1] in Children(g[p[i]]))
  }
}
