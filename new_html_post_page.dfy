/**
 * `traverse` inside `parseHtmlToComponentTree`: converts an already parsed
 * DOM tree into a React element tree.  Element nodes become elements with
 * the lower-cased tag, a props map built from the attributes and the
 * converted children; text nodes become their text; any other node becomes
 * `null`.
 */
module NewHtmlPostPage {
  import opened Wrappers

  /** `Node.ELEMENT_NODE`. */
  const ElementNodeType: int := 1
  /** `Node.TEXT_NODE`. */
  const TextNodeType: int := 3
  /** `Node.COMMENT_NODE`. */
  const CommentNodeType: int := 8

  /** One entry of an element's `attributes`, in document order. */
  datatype Attr = Attr(name: string, value: string)

  /**
   * The parsed DOM nodes that can occur below the `html` element.  The HTML
   * parser turns `<?...>` into a comment, so element, text and comment are
   * the only kinds there.
   */
  datatype DomNode =
    | Element(tagName: string, attributes: seq<Attr>, childNodes: seq<DomNode>)
    | Text(data: string)
    | Comment(data: string)

  /** What `DOMParser` yields for `text/html`: the children of its `html` element. */
  datatype HtmlDocument = HtmlDocument(htmlChildren: seq<DomNode>)

  /**
   * The output of `traverse`: the arguments of a `React.createElement` call,
   * a string, or `null`.
   */
  datatype ReactNode =
    | ReactElement(tag: string, props: map<string, string>, children: seq<ReactNode>)
    | TextContent(text: string)
    | Null

  /** `node.nodeType`. */
  function NodeType(n: DomNode): (t: int)
    ensures t == ElementNodeType <==> n.Element?
    ensures t == TextNodeType <==> n.Text?
  {
    match n
    case Element(_, _, _) => ElementNodeType
    case Text(_) => TextNodeType
    case Comment(_) => CommentNodeType
  }

  /** A `body` or `frameset` element; HTML element names are reported in upper case. */
  predicate IsBodyElement(n: DomNode)
  {
    n.Element? && (n.tagName == "BODY" || n.tagName == "FRAMESET")
  }

  /** Index of the first `body` or `frameset` element in `cs`, if any. */
  function FirstBodyIndex(cs: seq<DomNode>): (k: Option<nat>)
    ensures k.Some? ==> k.value < |cs| && IsBodyElement(cs[k.value])
    ensures k.Some? ==> forall j :: 0 <= j < k.value ==> !IsBodyElement(cs[j])
    ensures k.None? ==> forall j :: 0 <= j < |cs| ==> !IsBodyElement(cs[j])
  {
    if cs == [] then None
    else if IsBodyElement(cs[0]) then Some(0)
    else match FirstBodyIndex(cs[1..])
      case None => None
      case Some(k) => Some(k + 1)
  }

  /** `document.body`: the first child of `html` that is `body` or `frameset`, or `null`. */
  function Body(doc: HtmlDocument): (b: Option<DomNode>)
    ensures b.Some? ==> IsBodyElement(b.value) && b.value in doc.htmlChildren
    ensures b.None? <==> forall n :: n in doc.htmlChildren ==> !IsBodyElement(n)
    ensures b.Some? ==>
      exists k :: 0 <= k < |doc.htmlChildren| && b.value == doc.htmlChildren[k] &&
                  forall j :: 0 <= j < k ==> !IsBodyElement(doc.htmlChildren[j])
  {
    match FirstBodyIndex(doc.htmlChildren)
    case None => None
    case Some(k) => Some(doc.htmlChildren[k])
  }

  // ---------------------------------------------------------------------
  // Lower-casing (ASCII)
  // ---------------------------------------------------------------------

  predicate IsUpperAscii(c: char)
  {
    'A' <= c <= 'Z'
  }

  function LowerChar(c: char): (d: char)
    ensures !IsUpperAscii(d)
    ensures !IsUpperAscii(c) ==> d == c
    ensures IsUpperAscii(c) ==> d as int == c as int + 32
  {
    if IsUpperAscii(c) then (c as int + 32) as char else c
  }

  predicate IsLowerCase(s: string)
  {
    forall i :: 0 <= i < |s| ==> !IsUpperAscii(s[i])
  }

  /** `String.prototype.toLowerCase` on ASCII letters. */
  function ToLower(s: string): (r: string)
    ensures |r| == |s| && IsLowerCase(r)
    ensures forall i :: 0 <= i < |s| ==>
      (IsUpperAscii(s[i]) ==> r[i] as int == s[i] as int + 32) && (!IsUpperAscii(s[i]) ==> r[i] == s[i])
  {
    seq(|s|, i requires 0 <= i < |s| => LowerChar(s[i]))
  }

  /** Lower-casing changes only upper-case letters, and lower-casing twice changes nothing more. */
  lemma ToLowerFacts(s: string)
    ensures IsLowerCase(s) ==> ToLower(s) == s
    ensures ToLower(ToLower(s)) == ToLower(s)
  {
    assert IsLowerCase(ToLower(s));
  }

  // ---------------------------------------------------------------------
  // Attributes to props
  // ---------------------------------------------------------------------

  /**
   * The one name whose assignment on a plain object does not add a key:
   * `props["__proto__"] = value` goes to the inherited `__proto__` setter,
   * which ignores a string.
   */
  const ProtoKey: string := "__proto__"

  /** `props[name] = value` on a plain object whose values are strings. */
  function AssignProp(props: map<string, string>, name: string, value: string): (r: map<string, string>)
    ensures name == ProtoKey ==> r == props
    ensures name != ProtoKey ==> r.Keys == props.Keys + {name} && r[name] == value
    ensures forall k :: k in props && k != name ==> k in r && r[k] == props[k]
  {
    if name == ProtoKey then props else props[name := value]
  }

  /**
   * The props map after assigning each attribute in order; a later name
   * overwrites an earlier one.  Its keys are the attribute names other than
   * `__proto__`.
   */
  function AttrMap(attrs: seq<Attr>): (props: map<string, string>)
    ensures props.Keys == set a | a in attrs && a.name != ProtoKey :: a.name
    decreases |attrs|
  {
    if attrs == [] then map[]
    else
      var init, last := attrs[..|attrs| - 1], attrs[|attrs| - 1];
      assert attrs == init + [last];
      assert (set a | a in attrs && a.name != ProtoKey :: a.name)
          == (set a | a in init && a.name != ProtoKey :: a.name) + (if last.name == ProtoKey then {} else {last.name});
      AssignProp(AttrMap(init), last.name, last.value)
  }

  /** The `for ... of node.attributes` loop that fills `props`. */
  method CopyAttributes(attrs: seq<Attr>) returns (props: map<string, string>)
    ensures props == AttrMap(attrs)
  {
    props := map[];
    var k := 0;
    while k < |attrs|
      invariant 0 <= k <= |attrs|
      invariant props == AttrMap(attrs[..k])
    {
      assert attrs[..k + 1][..k] == attrs[..k];
      props := AssignProp(props, attrs[k].name, attrs[k].value);
      k := k + 1;
    }
    assert attrs[..k] == attrs;
  }

  /**
   * Each attribute's value survives unless a later attribute has the same
   * name: `props[attrs[i].name]` is the value of the last attribute so named
   * (`__proto__` aside).
   */
  lemma {:induction false} AttrMapLastWins(attrs: seq<Attr>, i: int)
    requires 0 <= i < |attrs| && attrs[i].name != ProtoKey
    requires forall j :: i < j < |attrs| ==> attrs[j].name != attrs[i].name
    ensures attrs[i].name in AttrMap(attrs)
    ensures AttrMap(attrs)[attrs[i].name] == attrs[i].value
    decreases |attrs|
  {
    if i < |attrs| - 1 {
      var init := attrs[..|attrs| - 1];
      AttrMapLastWins(init, i);
    }
  }

  // ---------------------------------------------------------------------
  // The tree conversion
  // ---------------------------------------------------------------------

  /** Every element in a converted tree carries a lower-case tag. */
  predicate AllTagsLower(r: ReactNode)
  {
    match r
    case ReactElement(tag, _, children) =>
      IsLowerCase(tag) && forall i :: 0 <= i < |children| ==> AllTagsLower(children[i])
    case TextContent(_) => true
    case Null => true
  }

  /** `traverse(node)`. */
  function Traverse(n: DomNode): (r: ReactNode)
    ensures NodeType(n) == ElementNodeType <==> r.ReactElement?
    ensures NodeType(n) == TextNodeType <==> r.TextContent?
    ensures r.ReactElement? ==>
      r.tag == ToLower(n.tagName) && |r.children| == |n.childNodes| &&
      r.props.Keys == set a | a in n.attributes && a.name != ProtoKey :: a.name
    ensures r.TextContent? ==> r.text == n.data
    ensures AllTagsLower(r)
    decreases n
  {
    if NodeType(n) == ElementNodeType then
      var children := seq(|n.childNodes|, i requires 0 <= i < |n.childNodes| => Traverse(n.childNodes[i]));
      ReactElement(ToLower(n.tagName), AttrMap(n.attributes), children)
    else if NodeType(n) == TextNodeType then
      TextContent(n.data)
    else
      Null
  }

  /**
   * `parseHtmlToComponentTree` after parsing: convert `doc.body`.  `None`
   * stands for the `TypeError` that `traverse(null)` would throw when the
   * document has no body.
   */
  function ParseHtmlToComponentTree(doc: HtmlDocument): (r: Option<ReactNode>)
    ensures r.Some? <==> Body(doc).Some?
    ensures r.Some? ==> r.value.ReactElement? && (r.value.tag == "body" || r.value.tag == "frameset")
    ensures r.Some? ==> |r.value.children| == |Body(doc).value.childNodes|
  {
    match Body(doc)
    case None => None
    case Some(b) =>
      assert ToLower("BODY") == "body" && ToLower("FRAMESET") == "frameset";
      Some(Traverse(b))
  }

  // ---------------------------------------------------------------------
  // Structure preservation
  // ---------------------------------------------------------------------

  /** The branching structure of a tree, with every leaf alike. */
  datatype Shape = Leaf | Branch(children: seq<Shape>)

  function DomShape(n: DomNode): (sh: Shape)
    decreases n
  {
    match n
    case Element(_, _, cs) => Branch(seq(|cs|, i requires 0 <= i < |cs| => DomShape(cs[i])))
    case _ => Leaf
  }

  function ReactShape(r: ReactNode): (sh: Shape)
    decreases r
  {
    match r
    case ReactElement(_, _, cs) => Branch(seq(|cs|, i requires 0 <= i < |cs| => ReactShape(cs[i])))
    case _ => Leaf
  }

  /** The converted tree has exactly the shape of the source tree. */
  lemma {:induction false} TraversePreservesShape(n: DomNode)
    ensures ReactShape(Traverse(n)) == DomShape(n)
    decreases n
  {
    if n.Element? {
      var cs := n.childNodes;
      var rs := Traverse(n).children;
      forall i | 0 <= i < |cs|
        ensures ReactShape(rs[i]) == DomShape(cs[i])
      {
        TraversePreservesShape(cs[i]);
      }
      assert seq(|rs|, i requires 0 <= i < |rs| => ReactShape(rs[i]))
          == seq(|cs|, i requires 0 <= i < |cs| => DomShape(cs[i]));
    }
  }

  /** The lists of `xss`, joined in order. */
  function Flatten(xss: seq<seq<string>>): (xs: seq<string>)
  {
    if xss == [] then [] else xss[0] + Flatten(xss[1..])
  }

  /**
   * The data of the subtree's text nodes, one string per text node, in
   * document order; comments contribute nothing.
   */
  function DomTexts(n: DomNode): (ts: seq<string>)
    decreases n
  {
    match n
    case Element(_, _, cs) => Flatten(seq(|cs|, i requires 0 <= i < |cs| => DomTexts(cs[i])))
    case Text(t) => [t]
    case Comment(_) => []
  }

  /** The strings of a converted tree, one per string leaf, in order. */
  function ReactTexts(r: ReactNode): (ts: seq<string>)
    decreases r
  {
    match r
    case ReactElement(_, _, cs) => Flatten(seq(|cs|, i requires 0 <= i < |cs| => ReactTexts(cs[i])))
    case TextContent(t) => [t]
    case Null => []
  }

  /**
   * The converted tree's string leaves are the source's text nodes, one for
   * one and in document order: none is split, merged, dropped or reordered.
   */
  lemma {:induction false} TraversePreservesText(n: DomNode)
    ensures ReactTexts(Traverse(n)) == DomTexts(n)
    decreases n
  {
    if n.Element? {
      var cs := n.childNodes;
      var rs := Traverse(n).children;
      forall i | 0 <= i < |cs|
        ensures ReactTexts(rs[i]) == DomTexts(cs[i])
      {
        TraversePreservesText(cs[i]);
      }
      assert seq(|rs|, i requires 0 <= i < |rs| => ReactTexts(rs[i]))
          == seq(|cs|, i requires 0 <= i < |cs| => DomTexts(cs[i]));
    }
  }

  /** The children of a converted element are the converted children, one for one and in order. */
  lemma ChildrenInOrder(n: DomNode, i: int)
    requires n.Element? && 0 <= i < |n.childNodes|
    ensures Traverse(n).children[i] == Traverse(n.childNodes[i])
  {
  }

  /** An element's attributes all appear in its props, with the last value given for each name. */
  lemma ElementProps(n: DomNode, i: int)
    requires n.Element? && 0 <= i < |n.attributes|
    requires n.attributes[i].name != ProtoKey
    requires forall j :: i < j < |n.attributes| ==> n.attributes[j].name != n.attributes[i].name
    ensures Traverse(n).props[n.attributes[i].name] == n.attributes[i].value
  {
    AttrMapLastWins(n.attributes, i);
  }
}
