/** The configuration document and the broker's lookups in it. */
module Config {
  import opened Basics
  import opened Protocol

  datatype Node =
    | Element(tag: Text, attrs: map<Text, Text>, children: seq<Node>)
    | Content(text: Text)

  /** A position in the document.  Only `At` has a node under it. */
  datatype Query = Invalid | Initial | At(node: Node)

  /** Reading an attribute into a fixed buffer can fail in two ways. */
  datatype Attr = Found(value: Text) | NotFound | Overflow

  function Attribute(n: Node, key: Text, size: nat): Attr {
    if !n.Element? || key !in n.attrs then NotFound
    else if |n.attrs[key]| > size then Overflow
    else Found(n.attrs[key])
  }

  /** `Compare`: equality of nonempty texts.  An empty text never matches. */
  predicate Same(a: Attr, t: Text) {
    a.Found? && |t| > 0 && a.value == t
  }

  function Image(k: Kind): Text {
    match k
    case Message => "Message"
    case Log => "Log"
    case Memory => "Memory"
    case Rom => "Rom"
    case Timer => "Timer"
  }

  /* ---- Which service entry of a component answers a request ---- */

  predicate IsService(n: Node, kind: Text) {
    n.Element? && n.tag == "service" && "name" in n.attrs && n.attrs["name"] == kind
  }

  /** A service entry of a kind is a `service` element with the kind's own name. */
  lemma ServiceElement(n: Node, k: Kind)
    ensures IsService(n, Image(k)) <==>
      && n.Element? && n.tag == "service" && "name" in n.attrs
      && n.attrs["name"] == (match k case Message => "Message" case Log => "Log" case Memory => "Memory" case Rom => "Rom" case Timer => "Timer")
  {
  }

  predicate Exact(n: Node, kind: Text, lbl: Text) {
    IsService(n, kind) && Same(Attribute(n, "label", MaxText), lbl)
  }

  predicate Unlabelled(n: Node, kind: Text) {
    IsService(n, kind) && Attribute(n, "label", MaxText) == NotFound
  }

  /** The declarative rule: the first service entry with exactly this label,
      otherwise the last one without a label, otherwise none. */
  ghost predicate Chosen(children: seq<Node>, kind: Text, lbl: Text, r: Option<Node>) {
    if exists i :: 0 <= i < |children| && Exact(children[i], kind, lbl) then
      exists i :: 0 <= i < |children| && Exact(children[i], kind, lbl) && r == Some(children[i])
        && forall j :: 0 <= j < i ==> !Exact(children[j], kind, lbl)
    else if exists i :: 0 <= i < |children| && Unlabelled(children[i], kind) then
      exists i :: 0 <= i < |children| && Unlabelled(children[i], kind) && r == Some(children[i])
        && forall j :: i < j < |children| ==> !Unlabelled(children[j], kind)
    else
      r == None
  }

  /** At most one node can be chosen. */
  lemma ChosenUnique(children: seq<Node>, kind: Text, lbl: Text, r: Option<Node>, q: Option<Node>)
    requires Chosen(children, kind, lbl, r) && Chosen(children, kind, lbl, q)
    ensures r == q
  {
    if i :| 0 <= i < |children| && Exact(children[i], kind, lbl) {
      var a :| 0 <= a < |children| && Exact(children[a], kind, lbl) && r == Some(children[a])
        && forall j :: 0 <= j < a ==> !Exact(children[j], kind, lbl);
      var b :| 0 <= b < |children| && Exact(children[b], kind, lbl) && q == Some(children[b])
        && forall j :: 0 <= j < b ==> !Exact(children[j], kind, lbl);
      assert a == b;
    } else if i :| 0 <= i < |children| && Unlabelled(children[i], kind) {
      var a :| 0 <= a < |children| && Unlabelled(children[a], kind) && r == Some(children[a])
        && forall j :: a < j < |children| ==> !Unlabelled(children[j], kind);
      var b :| 0 <= b < |children| && Unlabelled(children[b], kind) && q == Some(children[b])
        && forall j :: b < j < |children| ==> !Unlabelled(children[j], kind);
      assert a == b;
    }
  }

  /** `Find_Sibling` of the XML library: the first node at or after `from`
      that is an entry of this kind, or the number of children. */
  method FindService(children: seq<Node>, from: nat, kind: Text) returns (q: nat)
    requires from <= |children|
    ensures from <= q <= |children|
    ensures forall j :: from <= j < q ==> !IsService(children[j], kind)
    ensures q < |children| ==> IsService(children[q], kind)
  {
    q := from;
    while q < |children| && !IsService(children[q], kind)
      invariant from <= q <= |children|
      invariant forall j :: from <= j < q ==> !IsService(children[j], kind)
    {
      q := q + 1;
    }
  }

  /** One pass over the children: leave at an exact label, remember the latest
      entry without a label. */
  method MatchService(comp: Node, kind: Text, lbl: Text) returns (dest: Option<Node>)
    ensures Chosen(Children(comp), kind, lbl, dest)
  {
    var children := Children(comp);
    dest := None;
    var q := 0;
    ghost var d := -1;
    while q < |children|
      invariant 0 <= q <= |children|
      invariant forall j :: 0 <= j < q ==> !Exact(children[j], kind, lbl)
      invariant dest == None ==> forall j :: 0 <= j < q ==> !Unlabelled(children[j], kind)
      invariant dest.Some? ==> 0 <= d < q && Unlabelled(children[d], kind) && dest == Some(children[d])
      invariant dest.Some? ==> forall j :: d < j < q ==> !Unlabelled(children[j], kind)
      decreases |children| - q
    {
      var f := FindService(children, q, kind);
      if f == |children| {
        q := f;
        break;
      }
      var result := Attribute(children[f], "label", MaxText);
      if Same(result, lbl) {
        dest := Some(children[f]);
        return;
      } else if result == NotFound {
        dest, d := Some(children[f]), f;
      }
      q := f + 1;
    }
  }

  function Children(n: Node): seq<Node> {
    if n.Element? then n.children else []
  }

  /** The chosen entry as a function, for use in the broker's transition. */
  function ServiceOf(comp: Node, kind: Text, lbl: Text): (r: Option<Node>)
    ensures Chosen(Children(comp), kind, lbl, r)
    ensures r.Some? ==> IsService(r.value, kind) && r.value in Children(comp)
    ensures r.Some? ==> Exact(r.value, kind, lbl) || Unlabelled(r.value, kind)
  {
    var children := Children(comp);
    var e := FirstExact(children, kind, lbl, 0);
    if e < |children| then Some(children[e])
    else
      var d := LastUnlabelled(children, kind, |children|);
      if d == |children| then None else Some(children[d])
  }

  function FirstExact(children: seq<Node>, kind: Text, lbl: Text, i: nat): (e: nat)
    requires i <= |children|
    ensures i <= e <= |children|
    ensures e < |children| ==> Exact(children[e], kind, lbl)
    ensures forall j :: i <= j < e ==> !Exact(children[j], kind, lbl)
    decreases |children| - i
  {
    if i == |children| || Exact(children[i], kind, lbl) then i
    else FirstExact(children, kind, lbl, i + 1)
  }

  function LastUnlabelled(children: seq<Node>, kind: Text, n: nat): (d: nat)
    requires n <= |children|
    ensures d == |children| || d < n
    ensures d < |children| ==> Unlabelled(children[d], kind)
    ensures forall j :: (if d == |children| then 0 else d + 1) <= j < n ==> !Unlabelled(children[j], kind)
  {
    if n == 0 then |children|
    else if Unlabelled(children[n - 1], kind) then n - 1
    else LastUnlabelled(children, kind, n - 1)
  }

  /* ---- Resources ---- */

  /** The file behind a Rom service entry: its `resource` attribute names a
      resource of type File that has a location. */
  function ResourceLocation(resources: seq<Query>, serv: Node): (r: Option<Text>)
  {
    match Attribute(serv, "resource", 4096)
    case Found(name) =>
      var i := FindResource(resources, name, 0);
      if i == |resources| || !Same(Attribute(resources[i].node, "type", MaxText), "File") then None
      else
        (match Attribute(resources[i].node, "location", 4096)
         case Found(location) => Some(location)
         case _ => None)
    case _ => None
  }

  predicate NamedResource(q: Query, name: Text) {
    q.At? && Same(Attribute(q.node, "name", MaxText), name)
  }

  function FindResource(resources: seq<Query>, name: Text, i: nat): (r: nat)
    requires i <= |resources|
    ensures i <= r <= |resources|
    ensures r < |resources| ==> NamedResource(resources[r], name)
    ensures forall j :: i <= j < r ==> !NamedResource(resources[j], name)
    decreases |resources| - i
  {
    if i == |resources| || NamedResource(resources[i], name) then i
    else FindResource(resources, name, i + 1)
  }

  /** `Find_Resource_Location`, with the search as a loop. */
  method FindResourceLocation(resources: seq<Query>, serv: Node) returns (location: Text, valid: bool)
    ensures valid <==> ResourceLocation(resources, serv).Some?
    ensures valid ==> location == ResourceLocation(resources, serv).value
  {
    location, valid := [], false;
    var result := Attribute(serv, "resource", 4096);
    if !result.Found? {
      return;
    }
    location := result.value;
    var i := 0;
    while i < |resources| && !valid
      invariant 0 <= i <= |resources|
      invariant location == result.value
      invariant if valid then i < |resources| && NamedResource(resources[i], location) else true
      invariant forall j :: 0 <= j < i ==> !NamedResource(resources[j], location)
      decreases |resources| - i, !valid
    {
      if resources[i].At? {
        valid := Same(Attribute(resources[i].node, "name", MaxText), location);
      }
      if !valid {
        i := i + 1;
      }
    }
    if !valid {
      return;
    }
    assert i == FindResource(resources, location, 0);
    result := Attribute(resources[i].node, "type", MaxText);
    valid := Same(result, "File");
    if !valid {
      return;
    }
    result := Attribute(resources[i].node, "location", 4096);
    valid := result.Found?;
    if valid {
      location := result.value;
    }
  }
}
