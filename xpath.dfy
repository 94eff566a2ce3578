/** `XpathRange`: a range of text in an HTML document given by two text-node
    xpaths and character offsets into them. The xpath algebra works on the
    strings; the slicing walks an element tree whose xpath lookup is a
    parameter of the model. */
module Xpath {
  import opened Common

  datatype XpathError =
    | BadTextSelector(xpath: string)          // ValueError from `text_index`
    | InvalidXpath(xpath: string, found: nat) // InvalidXpathError from `one_node`
    | NoCommonAncestor                        // a `None` ancestor handed to the lookup
    | NotAnElement                            // the ancestor's lookup gave a text node
    | NotAText                                // a same-node lookup gave an element

  /** The text selector's opening, `/text()[`. */
  const TextOpen: string := "/text()["

  /** The part of `x` before a final newline: Python's `$` also matches
      just before a newline that ends the string. */
  function Body(x: string): (b: string)
    ensures b == x || (x == b + "\n")
  {
    if |x| > 0 && x[|x| - 1] == '\n' then x[..|x| - 1] else x
  }

  /** The length of the run of decimal digits that ends `s`. */
  function TrailingDigits(s: string): (n: nat)
    ensures n <= |s| && forall i :: |s| - n <= i < |s| ==> IsDigit(s[i])
    ensures n < |s| ==> !IsDigit(s[|s| - n - 1])
  {
    if s != [] && IsDigit(s[|s| - 1]) then TrailingDigits(s[..|s| - 1]) + 1 else 0
  }

  /** Where the match of the pattern `/text\(\)\[(\d+)\]$` starts, if `x`
      has one. */
  function SelectorStart(x: string): (k: Option<nat>)
    ensures k.Some? ==> var b := Body(x);
              k.value + |TextOpen| + 2 <= |b| && b[k.value..k.value + |TextOpen|] == TextOpen &&
              AllDigits(b[k.value + |TextOpen|..|b| - 1]) && b[|b| - 1] == ']'
  {
    var b := Body(x);
    if |b| >= 1 && b[|b| - 1] == ']' then
      var n := TrailingDigits(b[..|b| - 1]);
      if n >= 1 && |b| - 1 - n >= |TextOpen| && b[|b| - 1 - n - |TextOpen|..|b| - 1 - n] == TextOpen then
        Some(|b| - 1 - n - |TextOpen|)
      else None
    else None
  }

  /** `strip_text`: the xpath without its trailing text selector. */
  function StripText(x: string): (r: string)
    ensures SelectorStart(x).None? ==> r == x
    ensures SelectorStart(x).Some? ==> r == x[..SelectorStart(x).value] + x[|Body(x)|..] && |r| + |TextOpen| + 2 <= |x|
  {
    match SelectorStart(x)
    case None => x
    case Some(k) => x[..k] + x[|Body(x)|..]
  }

  /** `text_index`: the zero-based index the text selector names. */
  function TextIndex(x: string): (r: Result<int, XpathError>)
    ensures r.Err? <==> StripText(x) == x
    ensures r.Err? ==> r.error == BadTextSelector(x)
    ensures r.Ok? ==> r.value >= -1
  {
    match SelectorStart(x)
    case None => Err(BadTextSelector(x))
    case Some(k) =>
      var b := Body(x);
      Ok(DigitsValue(b[k + |TextOpen|..|b| - 1]) - 1)
  }

  lemma {:induction false} TrailingDigitsAfter(q: string, d: string)
    requires |q| > 0 && !IsDigit(q[|q| - 1]) && AllDigits(d)
    ensures TrailingDigits(q + d) == |d|
  {
    if d == [] {
      assert q + d == q;
    } else {
      var s := q + d;
      assert s[..|s| - 1] == q + d[..|d| - 1];
      assert s[|s| - 1] == d[|d| - 1];
      TrailingDigitsAfter(q, d[..|d| - 1]);
    }
  }

  /** An xpath ending in `/text()[d]`, possibly followed by one newline,
      loses exactly that selector and names index d - 1. */
  lemma SelectorRoundTrip(p: string, d: string, nl: string)
    requires |d| >= 1 && AllDigits(d) && (nl == "" || nl == "\n")
    ensures var x := p + TextOpen + d + "]" + nl;
            SelectorStart(x) == Some(|p|) && StripText(x) == p + nl && TextIndex(x) == Ok(DigitsValue(d) - 1)
  {
    var b := p + TextOpen + d + "]";
    var x := b + nl;
    BodyOfSelector(b, nl);
    StartOfSelector(x, p, d);
    SelectorParts(p, d, nl);
    DigitsAt(x, |p|, d);
  }

  lemma SelectorParts(p: string, d: string, nl: string)
    ensures var b := p + TextOpen + d + "]";
            (b + nl)[..|p|] == p && (b + nl)[|b|..] == nl && b[|p| + |TextOpen|..|b| - 1] == d
  {
    var b := p + TextOpen + d + "]";
    var c := p + TextOpen + d;
    assert b[..|c|] == c;
    assert c[..|p| + |TextOpen|] == p + TextOpen;
    assert (p + TextOpen)[..|p|] == p;
    assert (b + nl)[..|b|] == b;
    assert b[|p| + |TextOpen|..|b| - 1] == c[|p + TextOpen|..];
  }

  lemma BodyOfSelector(b: string, nl: string)
    requires |b| > 0 && b[|b| - 1] == ']' && (nl == "" || nl == "\n")
    ensures Body(b + nl) == b
  {
    if nl == "" {
      assert b + nl == b;
    } else {
      assert (b + nl)[..|b + nl| - 1] == b;
    }
  }

  lemma StartOfSelector(x: string, p: string, d: string)
    requires |d| >= 1 && AllDigits(d) && Body(x) == p + TextOpen + d + "]"
    ensures SelectorStart(x) == Some(|p|)
  {
    var b := Body(x);
    assert b[..|b| - 1] == (p + TextOpen) + d;
    TrailingDigitsAfter(p + TextOpen, d);
    assert b[|p|..|p| + |TextOpen|] == TextOpen;
  }

  lemma DigitsAt(x: string, k: nat, d: string)
    requires SelectorStart(x) == Some(k) && Body(x)[k + |TextOpen|..|Body(x)| - 1] == d
    ensures TextIndex(x) == Ok(DigitsValue(d) - 1)
  {
  }

  /** The selector is found wherever the xpath sits: prefixing the xpath
      moves the match and keeps what it captures. */
  lemma SelectorUnderPrefix(root: string, x: string)
    requires SelectorStart(x).Some?
    ensures SelectorStart(root + x) == Some(|root| + SelectorStart(x).value)
    ensures StripText(root + x) == root + StripText(x)
    ensures TextIndex(root + x) == TextIndex(x)
  {
    var k := SelectorStart(x).value;
    var d, nl := SelectorShape(x);
    var a := x[..k];
    SelectorRoundTrip(a, d, nl);
    Reassociate(root, a, d, nl);
    SelectorRoundTrip(root + a, d, nl);
    assert root + x == (root + a) + TextOpen + d + "]" + nl;
    assert |root + a| == |root| + k;
    assert SelectorStart(root + x) == Some(|root + a|);
    assert StripText(x) == a + nl;
    assert StripText(root + x) == (root + a) + nl;
  }

  /** A string with a selector is its prefix, the selector with its digits,
      and at most a newline. */
  lemma SelectorShape(x: string) returns (d: string, nl: string)
    requires SelectorStart(x).Some?
    ensures |d| >= 1 && AllDigits(d) && (nl == "" || nl == "\n")
    ensures x == x[..SelectorStart(x).value] + TextOpen + d + "]" + nl
  {
    var k := SelectorStart(x).value;
    var b := Body(x);
    d := b[k + |TextOpen|..|b| - 1];
    nl := x[|b|..];
    assert b == b[..k] + b[k..k + |TextOpen|] + d + [b[|b| - 1]];
    assert b[..k] == x[..k];
    assert x == b + nl;
  }

  lemma Reassociate(root: string, a: string, d: string, nl: string)
    ensures root + (a + TextOpen + d + "]" + nl) == (root + a) + TextOpen + d + "]" + nl
    ensures root + (a + nl) == (root + a) + nl
  {
  }

  /** The longest common prefix of two component lists. */
  function CommonPrefix(a: seq<string>, b: seq<string>): (c: seq<string>)
    ensures |c| <= |a| && |c| <= |b| && c == a[..|c|] && c == b[..|c|]
    ensures |c| < |a| && |c| < |b| ==> a[|c|] != b[|c|]
  {
    if a == [] || b == [] || a[0] != b[0] then []
    else [a[0]] + CommonPrefix(a[1..], b[1..])
  }

  /** What `common_ancestor_xpath` returns: the common leading components
      of the two '/'-split xpaths, joined with '/', or None when there are
      none. */
  function AncestorOf(x1: string, x2: string): (r: Option<string>)
    ensures r.None? <==> Split(x1, '/')[0] != Split(x2, '/')[0]
  {
    var c := CommonPrefix(Split(x1, '/'), Split(x2, '/'));
    if |c| > 0 then Some(Join(c, '/')) else None
  }

  /** `common_ancestor_xpath(x1, x2)`: a zip over the components that stops
      at the first difference. */
  method CommonAncestorXpath(x1: string, x2: string) returns (r: Option<string>)
    ensures r == AncestorOf(x1, x2)
  {
    var a := Split(x1, '/');
    var b := Split(x2, '/');
    var ancestor: seq<string> := [];
    var i := 0;
    while i < |a| && i < |b|
      invariant 0 <= i <= |a| && i <= |b|
      invariant ancestor == a[..i] && a[..i] == b[..i]
    {
      if a[i] != b[i] {
        break;
      }
      assert a[..i + 1] == ancestor + [a[i]] && b[..i + 1] == b[..i] + [b[i]];
      ancestor := ancestor + [a[i]];
      i := i + 1;
    }
    CommonPrefixUnique(a, b, i);
    r := if |ancestor| > 0 then Some(Join(ancestor, '/')) else None;
  }

  /** A common prefix followed by a difference, or by the end of either
      list, is the longest common prefix. */
  lemma {:induction false} CommonPrefixUnique(a: seq<string>, b: seq<string>, i: nat)
    requires i <= |a| && i <= |b| && a[..i] == b[..i]
    requires i == |a| || i == |b| || a[i] != b[i]
    ensures CommonPrefix(a, b) == a[..i]
  {
    if i > 0 {
      assert a[0] == a[..i][0] && b[0] == b[..i][0];
      assert a[1..][..i - 1] == a[..i][1..] && b[1..][..i - 1] == b[..i][1..];
      CommonPrefixUnique(a[1..], b[1..], i - 1);
      assert a[..i] == [a[0]] + a[1..][..i - 1];
    }
  }

  /** The ancestor's own components are the longest common prefix of the
      two component lists. */
  lemma AncestorComponents(x1: string, x2: string)
    requires AncestorOf(x1, x2).Some?
    ensures var c := Split(AncestorOf(x1, x2).value, '/');
            c == CommonPrefix(Split(x1, '/'), Split(x2, '/')) &&
            c == Split(x1, '/')[..|c|] && c == Split(x2, '/')[..|c|]
  {
    var a := Split(x1, '/');
    var c := CommonPrefix(a, Split(x2, '/'));
    forall i | 0 <= i < |c|
      ensures '/' !in c[i]
    {
      assert c[i] == a[i];
    }
    SplitJoin(c, '/');
  }

  /** Two absolute xpaths always have a common ancestor, at worst ''. */
  lemma AbsoluteAncestor(x1: string, x2: string)
    requires |x1| > 0 && x1[0] == '/' && |x2| > 0 && x2[0] == '/'
    ensures AncestorOf(x1, x2).Some?
  {
  }

  /** An xpath is its own common ancestor with itself. */
  lemma SelfAncestor(x: string)
    ensures AncestorOf(x, x) == Some(x)
  {
    var c := CommonPrefix(Split(x, '/'), Split(x, '/'));
    assert c == Split(x, '/');
  }

  /** The fields `XpathRange.__init__` stores. */
  datatype XpathRange = XpathRange(
    startContainerXpath: string, startXpath: string, startOffset: int, startTextIndex: int,
    endContainerXpath: string, endXpath: string, endOffset: int, endTextIndex: int,
    commonAncestor: Option<string>)

  /** `XpathRange(start_xpath, start_offset, end_xpath, end_offset)`: both
      xpaths must end in a text selector; the start is checked first. */
  function NewRange(startXpath: string, startOffset: int, endXpath: string, endOffset: int): (r: Result<XpathRange, XpathError>)
    ensures r.Ok? <==> SelectorStart(startXpath).Some? && SelectorStart(endXpath).Some?
    ensures r.Err? ==> r.error == BadTextSelector(if SelectorStart(startXpath).None? then startXpath else endXpath)
    ensures r.Ok? ==> r.value.startXpath == startXpath && r.value.endXpath == endXpath &&
                      r.value.startOffset == startOffset && r.value.endOffset == endOffset &&
                      |r.value.startContainerXpath| < |startXpath| && |r.value.endContainerXpath| < |endXpath|
  {
    var si := TextIndex(startXpath);
    var ei := TextIndex(endXpath);
    if si.Err? then Err(si.error)
    else if ei.Err? then Err(ei.error)
    else Ok(XpathRange(StripText(startXpath), startXpath, startOffset, si.value,
                       StripText(endXpath), endXpath, endOffset, ei.value,
                       AncestorOf(startXpath, endXpath)))
  }

  /** A range as the constructor leaves it. */
  predicate Built(r: XpathRange)
  {
    NewRange(r.startXpath, r.startOffset, r.endXpath, r.endOffset) == Ok(r)
  }

  /** `same_parent`. */
  predicate SameParent(r: XpathRange)
  {
    r.startContainerXpath == r.endContainerXpath
  }

  /** `same_node`. */
  predicate SameNode(r: XpathRange)
  {
    r.startXpath == r.endXpath
  }

  lemma SameNodeIsSameParent(r: XpathRange)
    requires Built(r) && SameNode(r)
    ensures SameParent(r)
  {
  }

  /** Two text nodes of one element, `p/text()[i]` and `p/text()[j]`, are
      in the same parent, and in the same node exactly when i and j are
      the same digits. */
  lemma SiblingTexts(p: string, i: string, j: string, so: int, eo: int)
    requires |i| >= 1 && AllDigits(i) && |j| >= 1 && AllDigits(j)
    ensures var r := NewRange(p + TextOpen + i + "]", so, p + TextOpen + j + "]", eo);
            r.Ok? && SameParent(r.value) && (SameNode(r.value) <==> i == j) &&
            r.value.startTextIndex == DigitsValue(i) - 1 && r.value.endTextIndex == DigitsValue(j) - 1
  {
    var xi := p + TextOpen + i + "]";
    var xj := p + TextOpen + j + "]";
    PlainSelector(p, i);
    PlainSelector(p, j);
    SelectorParts(p, i, "");
    SelectorParts(p, j, "");
    assert xi == xj ==> i == xi[|p| + |TextOpen|..|xi| - 1];
  }

  /** The round trip for an xpath with no newline after its selector. */
  lemma PlainSelector(p: string, d: string)
    requires |d| >= 1 && AllDigits(d)
    ensures var x := p + TextOpen + d + "]";
            SelectorStart(x) == Some(|p|) && StripText(x) == p && TextIndex(x) == Ok(DigitsValue(d) - 1)
  {
    var x := p + TextOpen + d + "]";
    SelectorRoundTrip(p, d, "");
    assert x + "" == x && p + "" == p;
  }

  /** `__eq__`: offsets and xpaths. */
  predicate Equal(a: XpathRange, b: XpathRange)
  {
    a.startOffset == b.startOffset && a.endOffset == b.endOffset &&
    a.startXpath == b.startXpath && a.endXpath == b.endXpath
  }

  /** On constructed ranges `__eq__` is equality of every field. */
  lemma EqualIsIdentity(a: XpathRange, b: XpathRange)
    requires Built(a) && Built(b)
    ensures Equal(a, b) <==> a == b
  {
  }

  /** `root_at(root_xpath)`. */
  function RootAt(r: XpathRange, root: string): Result<XpathRange, XpathError>
  {
    NewRange(root + r.startXpath, r.startOffset, root + r.endXpath, r.endOffset)
  }

  /** Re-rooting a constructed range always succeeds; it prefixes both
      xpaths and both containers and keeps the offsets, the text indexes
      and whether the range is within one node or one parent. */
  lemma RootAtKeeps(r: XpathRange, root: string)
    requires Built(r)
    ensures RootAt(r, root).Ok?
    ensures var q := RootAt(r, root).value;
            q.startXpath == root + r.startXpath && q.endXpath == root + r.endXpath &&
            q.startOffset == r.startOffset && q.endOffset == r.endOffset &&
            q.startContainerXpath == root + r.startContainerXpath && q.endContainerXpath == root + r.endContainerXpath &&
            q.startTextIndex == r.startTextIndex && q.endTextIndex == r.endTextIndex &&
            (SameNode(q) <==> SameNode(r)) && (SameParent(q) <==> SameParent(r))
  {
    SelectorUnderPrefix(root, r.startXpath);
    SelectorUnderPrefix(root, r.endXpath);
    assert root + r.startXpath == root + r.endXpath ==> r.startXpath == (root + r.startXpath)[|root|..];
    assert root + r.startContainerXpath == root + r.endContainerXpath ==>
           r.startContainerXpath == (root + r.startContainerXpath)[|root|..];
    assert root + r.endXpath == root + r.startXpath ==> r.endXpath == (root + r.endXpath)[|root|..];
  }

  /** An element of the parsed document: an identity (Python compares
      elements by identity), its `text`, its children and its `tail`. */
  datatype Element = Element(id: nat, text: Option<string>, children: seq<Element>, tail: Option<string>)

  /** One text node: the element it is a text of, and the text. */
  datatype TextNode = TextNode(parent: nat, text: string)

  /** `text_node_tree(node)`: the node's text, then each child's text
      nodes followed by that child's tail, which belongs to the node. */
  function TextNodeTree(e: Element): seq<TextNode>
    decreases e, |e.children| + 1
  {
    (if e.text.Some? then [TextNode(e.id, e.text.value)] else []) + ChildTexts(e, 0)
  }

  /** The text nodes that the children of `e` from the i-th on contribute. */
  function ChildTexts(e: Element, i: nat): seq<TextNode>
    requires i <= |e.children|
    decreases e, |e.children| - i
  {
    if i == |e.children| then []
    else
      var c := e.children[i];
      TextNodeTree(c) + (if c.tail.Some? then [TextNode(e.id, c.tail.value)] else []) + ChildTexts(e, i + 1)
  }

  /** The identities in the subtree of `e`. */
  function Ids(e: Element): set<nat>
    decreases e, |e.children| + 1
  {
    {e.id} + ChildIds(e, 0)
  }

  function ChildIds(e: Element, i: nat): set<nat>
    requires i <= |e.children|
    decreases e, |e.children| - i
  {
    if i == |e.children| then {} else Ids(e.children[i]) + ChildIds(e, i + 1)
  }

  /** The texts of the nodes whose parent is `p`, in order. */
  function TextsOf(p: nat, nodes: seq<TextNode>): seq<string>
  {
    if nodes == [] then []
    else (if nodes[0].parent == p then [nodes[0].text] else []) + TextsOf(p, nodes[1..])
  }

  /** What xpath's `text()` selects on an element: its text and then the
      tails of its children, in order. */
  function OwnTexts(e: Element): seq<string>
  {
    (if e.text.Some? then [e.text.value] else []) + Tails(e, 0)
  }

  function Tails(e: Element, i: nat): seq<string>
    requires i <= |e.children|
    decreases |e.children| - i
  {
    if i == |e.children| then []
    else (if e.children[i].tail.Some? then [e.children[i].tail.value] else []) + Tails(e, i + 1)
  }

  lemma {:induction false} TextsOfAppend(p: nat, a: seq<TextNode>, b: seq<TextNode>)
    ensures TextsOf(p, a + b) == TextsOf(p, a) + TextsOf(p, b)
  {
    if a == [] {
      assert a + b == b;
    } else {
      assert (a + b)[1..] == a[1..] + b;
      TextsOfAppend(p, a[1..], b);
    }
  }

  /** Every text node of a subtree belongs to an element of that subtree. */
  lemma {:induction false} ParentsInSubtree(e: Element)
    ensures forall k :: 0 <= k < |TextNodeTree(e)| ==> TextNodeTree(e)[k].parent in Ids(e)
    decreases e, |e.children| + 1
  {
    ChildParentsInSubtree(e, 0);
  }

  lemma {:induction false} ChildParentsInSubtree(e: Element, i: nat)
    requires i <= |e.children|
    ensures forall k :: 0 <= k < |ChildTexts(e, i)| ==> ChildTexts(e, i)[k].parent in Ids(e)
    decreases e, |e.children| - i
  {
    if i < |e.children| {
      var c := e.children[i];
      ParentsInSubtree(c);
      ChildIdsCover(e, i);
      ChildParentsInSubtree(e, i + 1);
    }
  }

  lemma {:induction false} ChildIdsCover(e: Element, i: nat)
    requires i < |e.children|
    ensures Ids(e.children[i]) <= Ids(e)
  {
    ChildIdsFrom(e, 0, i);
  }

  lemma {:induction false} ChildIdsFrom(e: Element, j: nat, i: nat)
    requires j <= i < |e.children|
    ensures Ids(e.children[i]) <= ChildIds(e, j)
    decreases i - j
  {
    if j < i {
      ChildIdsFrom(e, j + 1, i);
    }
  }

  /** A parent absent from a subtree has none of its text nodes. */
  lemma NoTextsOutside(p: nat, e: Element)
    requires p !in Ids(e)
    ensures TextsOf(p, TextNodeTree(e)) == []
  {
    ParentsInSubtree(e);
    NoTextsOf(p, TextNodeTree(e));
  }

  lemma {:induction false} NoTextsOf(p: nat, nodes: seq<TextNode>)
    requires forall k :: 0 <= k < |nodes| ==> nodes[k].parent != p
    ensures TextsOf(p, nodes) == []
  {
    if nodes != [] {
      NoTextsOf(p, nodes[1..]);
    }
  }

  /** When no descendant shares its identity, the text nodes the traversal
      attributes to an element are exactly its own text and its children's
      tails, in document order: the numbering that `text()[N]` uses. */
  lemma TraversalAttributesOwnTexts(e: Element)
    requires e.id !in ChildIds(e, 0)
    ensures TextsOf(e.id, TextNodeTree(e)) == OwnTexts(e)
  {
    var head := if e.text.Some? then [TextNode(e.id, e.text.value)] else [];
    TextsOfAppend(e.id, head, ChildTexts(e, 0));
    ChildTextsAttributeTails(e, 0);
  }

  lemma {:induction false} ChildTextsAttributeTails(e: Element, i: nat)
    requires i <= |e.children| && e.id !in ChildIds(e, i)
    ensures TextsOf(e.id, ChildTexts(e, i)) == Tails(e, i)
    decreases |e.children| - i
  {
    if i < |e.children| {
      var c := e.children[i];
      var tail := if c.tail.Some? then [TextNode(e.id, c.tail.value)] else [];
      TextsOfAppend(e.id, TextNodeTree(c) + tail, ChildTexts(e, i + 1));
      TextsOfAppend(e.id, TextNodeTree(c), tail);
      NoTextsOutside(e.id, c);
      ChildTextsAttributeTails(e, i + 1);
    }
  }

  /** What `root.xpath(xpath)` finds: elements, or text nodes as strings. */
  datatype Hit = ElementHit(element: Element) | TextHit(text: string)

  /** The parsed document's xpath evaluator; lxml is not part of this model. */
  type Document = string -> seq<Hit>

  /** `one_node(root, xpath)`: exactly one result, or InvalidXpathError. */
  function OneNode(doc: Document, xpath: string): (r: Result<Hit, XpathError>)
    ensures r.Ok? <==> |doc(xpath)| == 1
    ensures r.Ok? ==> r.value == doc(xpath)[0]
    ensures r.Err? ==> r.error == InvalidXpath(xpath, |doc(xpath)|)
  {
    var found := doc(xpath);
    if |found| != 1 then Err(InvalidXpath(xpath, |found|)) else Ok(found[0])
  }

  /** `parent == node`: true only when the lookup gave that very element. */
  predicate IsNode(parent: nat, h: Hit)
  {
    h.ElementHit? && h.element.id == parent
  }

  /** The walk of `slice_node` over the text nodes that remain, from the
      counters `starti` and `endi` and the parts collected so far. */
  function Collect(nodes: seq<TextNode>, s: Hit, e: Hit, r: XpathRange, starti: int, endi: int, parts: seq<string>): seq<string>
  {
    if nodes == [] then parts
    else
      var n := nodes[0];
      var si := if IsNode(n.parent, s) then starti + 1 else starti;
      var ei := if si > -1 && IsNode(n.parent, e) then endi + 1 else endi;
      if si > -1 && (r.startTextIndex <= si || (ei > -1 && r.endTextIndex >= ei && |parts| > 0)) then
        if IsNode(n.parent, s) && si == r.startTextIndex then
          Collect(nodes[1..], s, e, r, si, ei, parts + [PySlice(n.text, Some(r.startOffset), None)])
        else if IsNode(n.parent, e) && ei == r.endTextIndex then
          parts + [PySlice(n.text, None, Some(r.endOffset))]
        else
          Collect(nodes[1..], s, e, r, si, ei, parts + [n.text])
      else
        Collect(nodes[1..], s, e, r, si, ei, parts)
  }

  predicate Blank(p: string)
  {
    |p| > 0 && forall i :: 0 <= i < |p| ==> IsSpace(p[i])
  }

  /** `ifilter(lambda p: re.search('^\s+$', p) is None, parts)`. */
  function DropBlank(parts: seq<string>): (r: seq<string>)
    ensures forall i :: 0 <= i < |r| ==> !Blank(r[i])
    ensures |r| <= |parts|
    ensures |r| == |parts| <==> forall i :: 0 <= i < |parts| ==> !Blank(parts[i])
    ensures |parts| == 1 ==> (r == parts <==> !Blank(parts[0])) && (r == [] <==> Blank(parts[0]))
  {
    if parts == [] then []
    else (if Blank(parts[0]) then [] else [parts[0]]) + DropBlank(parts[1..])
  }

  /** Dropping blank parts works part by part: the parts kept from a
      concatenation are those kept from each side, in order. */
  lemma {:induction false} DropBlankAppend(a: seq<string>, b: seq<string>)
    ensures DropBlank(a + b) == DropBlank(a) + DropBlank(b)
    decreases |a|
  {
    if a == [] {
      assert a + b == b;
    } else {
      assert (a + b)[0] == a[0] && (a + b)[1..] == a[1..] + b;
      DropBlankAppend(a[1..], b);
    }
  }

  /** What `slice_node(root, trimmed)` returns or raises. */
  function Slice(r: XpathRange, doc: Document, trimmed: bool): (res: Result<string, XpathError>)
    ensures SameNode(r) && |doc(r.startXpath)| != 1 ==> res == Err(InvalidXpath(r.startXpath, |doc(r.startXpath)|))
    ensures SameNode(r) && |doc(r.startXpath)| == 1 && doc(r.startXpath)[0].TextHit? ==>
              res == Ok(PySlice(doc(r.startXpath)[0].text, Some(r.startOffset), Some(r.endOffset)))
  {
    if SameNode(r) then
      match OneNode(doc, r.startXpath)
      case Err(err) => Err(err)
      case Ok(h) => if h.TextHit? then Ok(PySlice(h.text, Some(r.startOffset), Some(r.endOffset))) else Err(NotAText)
    else if r.commonAncestor.None? then Err(NoCommonAncestor)
    else
      var a := OneNode(doc, r.commonAncestor.value);
      var s := OneNode(doc, r.startContainerXpath);
      var e := OneNode(doc, r.endContainerXpath);
      if a.Err? then Err(a.error)
      else if s.Err? then Err(s.error)
      else if e.Err? then Err(e.error)
      else if !a.value.ElementHit? then Err(NotAnElement)
      else
        var parts := Collect(TextNodeTree(a.value.element), s.value, e.value, r, -1, -1, []);
        Ok(Flatten(if trimmed then DropBlank(parts) else parts))
  }

  /** `slice_node(root, trimmed)`. */
  method SliceNode(r: XpathRange, doc: Document, trimmed: bool) returns (res: Result<string, XpathError>)
    ensures res == Slice(r, doc, trimmed)
  {
    if r.startXpath == r.endXpath {
      var t := OneNode(doc, r.startXpath);
      if t.Err? {
        return Err(t.error);
      }
      if !t.value.TextHit? {
        return Err(NotAText);
      }
      return Ok(PySlice(t.value.text, Some(r.startOffset), Some(r.endOffset)));
    }
    if r.commonAncestor.None? {
      return Err(NoCommonAncestor);
    }
    var ancestor := OneNode(doc, r.commonAncestor.value);
    var startNode := OneNode(doc, r.startContainerXpath);
    var endNode := OneNode(doc, r.endContainerXpath);
    if ancestor.Err? {
      return Err(ancestor.error);
    } else if startNode.Err? {
      return Err(startNode.error);
    } else if endNode.Err? {
      return Err(endNode.error);
    } else if !ancestor.value.ElementHit? {
      return Err(NotAnElement);
    }
    var parts := Walk(TextNodeTree(ancestor.value.element), startNode.value, endNode.value, r);
    res := Ok(Flatten(if trimmed then DropBlank(parts) else parts));
  }

  /** The loop of `slice_node` over `text_node_tree(ancestor)`. */
  method Walk(nodes: seq<TextNode>, s: Hit, e: Hit, r: XpathRange) returns (parts: seq<string>)
    ensures parts == Collect(nodes, s, e, r, -1, -1, [])
  {
    ghost var whole := Collect(nodes, s, e, r, -1, -1, []);
    var starti, endi := -1, -1;
    parts := [];
    var i := 0;
    while i < |nodes|
      invariant 0 <= i <= |nodes|
      invariant Collect(nodes[i..], s, e, r, starti, endi, parts) == whole
    {
      var n := nodes[i];
      assert nodes[i..][0] == n && nodes[i..][1..] == nodes[i + 1..];
      if IsNode(n.parent, s) {
        starti := starti + 1;
      }
      if starti > -1 && IsNode(n.parent, e) {
        endi := endi + 1;
      }
      if starti > -1 && (r.startTextIndex <= starti || (endi > -1 && r.endTextIndex >= endi && |parts| > 0)) {
        if IsNode(n.parent, s) && starti == r.startTextIndex {
          parts := parts + [PySlice(n.text, Some(r.startOffset), None)];
        } else if IsNode(n.parent, e) && endi == r.endTextIndex {
          parts := parts + [PySlice(n.text, None, Some(r.endOffset))];
          break;
        } else {
          parts := parts + [n.text];
        }
      }
      i := i + 1;
    }
    assert parts == whole;
  }

  /** `html.replace('&', '&amp;')`. */
  function EscapeAmp(html: string): (r: string)
    ensures '&' !in html ==> r == html
    ensures |r| >= |html|
  {
    if html == [] then []
    else (if html[0] == '&' then "&amp;" else [html[0]]) + EscapeAmp(html[1..])
  }

  /** `slice_html(html, trimmed)`: the document is parsed from the html
      with every '&' escaped, and `trimmed` is not passed on. */
  method SliceHtml(r: XpathRange, html: string, parse: string -> Document, trimmed: bool) returns (res: Result<string, XpathError>)
    ensures res == Slice(r, parse(EscapeAmp(html)), false)
  {
    var root := parse(EscapeAmp(html));
    res := SliceNode(r, root, false);
  }

  /** How many of the text nodes belong to the element `h` found. */
  function CountOf(h: Hit, nodes: seq<TextNode>): nat
  {
    if nodes == [] then 0 else (if IsNode(nodes[0].parent, h) then 1 else 0) + CountOf(h, nodes[1..])
  }

  /** How many text nodes of `e` come at or after the first text node of
      `s`, once `started`. */
  function EndCount(nodes: seq<TextNode>, s: Hit, e: Hit, started: bool): nat
  {
    if nodes == [] then 0
    else
      var st := started || IsNode(nodes[0].parent, s);
      (if st && IsNode(nodes[0].parent, e) then 1 else 0) + EndCount(nodes[1..], s, e, st)
  }

  function Texts(nodes: seq<TextNode>): seq<string>
  {
    if nodes == [] then [] else [nodes[0].text] + Texts(nodes[1..])
  }

  /** Before the start text node nothing is collected. */
  lemma {:induction false} SkipBeforeStart(xs: seq<TextNode>, rest: seq<TextNode>, s: Hit, e: Hit, r: XpathRange, starti: int, endi: int)
    requires -1 <= starti && starti + CountOf(s, xs) < r.startTextIndex
    ensures Collect(xs + rest, s, e, r, starti, endi, []) ==
            Collect(rest, s, e, r, starti + CountOf(s, xs), endi + EndCount(xs, s, e, starti > -1), [])
  {
    if xs == [] {
      assert xs + rest == rest;
    } else {
      assert (xs + rest)[0] == xs[0] && (xs + rest)[1..] == xs[1..] + rest;
      var n := xs[0];
      var si := if IsNode(n.parent, s) then starti + 1 else starti;
      var ei := if si > -1 && IsNode(n.parent, e) then endi + 1 else endi;
      SkipBeforeStart(xs[1..], rest, s, e, r, si, ei);
    }
  }

  /** The start text node contributes its text from `start_offset` on. */
  lemma StartNode(n: TextNode, rest: seq<TextNode>, s: Hit, e: Hit, r: XpathRange, endi: int)
    requires IsNode(n.parent, s) && r.startTextIndex >= 0
    ensures Collect([n] + rest, s, e, r, r.startTextIndex - 1, endi, []) ==
            Collect(rest, s, e, r, r.startTextIndex, endi + (if IsNode(n.parent, e) then 1 else 0),
                    [PySlice(n.text, Some(r.startOffset), None)])
  {
    assert ([n] + rest)[0] == n && ([n] + rest)[1..] == rest;
    assert [] + [PySlice(n.text, Some(r.startOffset), None)] == [PySlice(n.text, Some(r.startOffset), None)];
  }

  /** Between the start and the end text node every text is collected whole. */
  lemma {:induction false} CollectBetween(xs: seq<TextNode>, rest: seq<TextNode>, s: Hit, e: Hit, r: XpathRange,
                                          starti: int, endi: int, parts: seq<string>)
    requires starti >= r.startTextIndex >= 0 && endi + CountOf(e, xs) < r.endTextIndex
    ensures Collect(xs + rest, s, e, r, starti, endi, parts) ==
            Collect(rest, s, e, r, starti + CountOf(s, xs), endi + CountOf(e, xs), parts + Texts(xs))
  {
    if xs == [] {
      assert xs + rest == rest && parts + Texts(xs) == parts;
    } else {
      assert (xs + rest)[0] == xs[0] && (xs + rest)[1..] == xs[1..] + rest;
      var n := xs[0];
      var si := if IsNode(n.parent, s) then starti + 1 else starti;
      var ei := if IsNode(n.parent, e) then endi + 1 else endi;
      assert Collect(xs + rest, s, e, r, starti, endi, parts) == Collect(xs[1..] + rest, s, e, r, si, ei, parts + [n.text]);
      CollectBetween(xs[1..], rest, s, e, r, si, ei, parts + [n.text]);
      assert Texts(xs) == [n.text] + Texts(xs[1..]);
      assert parts + [n.text] + Texts(xs[1..]) == parts + ([n.text] + Texts(xs[1..]));
    }
  }

  /** The end text node contributes its text up to `end_offset`, and the
      walk stops there. */
  lemma EndNode(n: TextNode, rest: seq<TextNode>, s: Hit, e: Hit, r: XpathRange, starti: int, parts: seq<string>)
    requires IsNode(n.parent, e) && starti >= r.startTextIndex >= 0
    ensures Collect([n] + rest, s, e, r, starti, r.endTextIndex - 1, parts) ==
            parts + [PySlice(n.text, None, Some(r.endOffset))]
  {
    assert ([n] + rest)[0] == n;
  }

  /** A range across text nodes: when the start text node is the
      `start_text_index`-th text of the start element and the end text node
      the `end_text_index`-th text of the end element counted from there,
      the slice is the start node's text from `start_offset`, every text
      node in between, and the end node's text up to `end_offset`. */
  lemma SliceAcross(before: seq<TextNode>, first: TextNode, between: seq<TextNode>, last: TextNode, after: seq<TextNode>,
                    s: Hit, e: Hit, r: XpathRange)
    requires IsNode(first.parent, s) && IsNode(last.parent, e)
    requires CountOf(s, before) == r.startTextIndex
    requires EndCount(before, s, e, false) + (if IsNode(first.parent, e) then 1 else 0) + CountOf(e, between) == r.endTextIndex
    ensures Collect(before + [first] + between + [last] + after, s, e, r, -1, -1, []) ==
            [PySlice(first.text, Some(r.startOffset), None)] + Texts(between) + [PySlice(last.text, None, Some(r.endOffset))]
  {
    var tail := [last] + after;
    var nodes := before + [first] + between + [last] + after;
    assert nodes == before + ([first] + (between + tail));
    SkipBeforeStart(before, [first] + (between + tail), s, e, r, -1, -1);
    var endi := -1 + EndCount(before, s, e, false) + (if IsNode(first.parent, e) then 1 else 0);
    StartNode(first, between + tail, s, e, r, -1 + EndCount(before, s, e, false));
    var head := [PySlice(first.text, Some(r.startOffset), None)];
    CollectBetween(between, tail, s, e, r, r.startTextIndex, endi, head);
    EndNode(last, after, s, e, r, r.startTextIndex + CountOf(s, between), head + Texts(between));
  }

  /** When the start element has too few text nodes, nothing is collected. */
  lemma StartNeverReached(nodes: seq<TextNode>, s: Hit, e: Hit, r: XpathRange)
    requires CountOf(s, nodes) <= r.startTextIndex
    ensures Collect(nodes, s, e, r, -1, -1, []) == []
  {
    SkipBeforeStart(nodes, [], s, e, r, -1, -1);
    assert nodes + [] == nodes;
  }

  /** Two different text nodes of one element have that element's xpath
      as their common ancestor. */
  lemma SiblingAncestor(p: string, i: string, j: string)
    requires i != j
    ensures AncestorOf(p + "/" + i, p + "/" + j) == Some(p) || '/' in i || '/' in j
  {
    if '/' !in i && '/' !in j {
      SplitLast(p, '/', i);
      SplitLast(p, '/', j);
      var c := Split(p, '/');
      assert (c + [i])[..|c|] == c && (c + [j])[..|c|] == c;
      CommonPrefixUnique(c + [i], c + [j], |c|);
    }
  }

  /** The range from the first to the second text node of `p`. */
  lemma FirstToSecond(p: string, so: int, eo: int)
    ensures NewRange(p + "/text()[1]", so, p + "/text()[2]", eo) ==
            Ok(XpathRange(p, p + "/text()[1]", so, 0, p, p + "/text()[2]", eo, 1, Some(p)))
  {
    NthText(p, "1");
    NthText(p, "2");
    FirstSecondAncestor(p);
  }

  /** `p/text()[1]` and `p/text()[2]` belong to `p` and name indexes 0 and 1. */
  lemma NthText(p: string, d: string)
    requires d == "1" || d == "2"
    ensures var x := p + (if d == "1" then "/text()[1]" else "/text()[2]");
            StripText(x) == p && TextIndex(x) == Ok(if d == "1" then 0 else 1)
  {
    TextSelectorLiteral(p, d);
    SmallSelector(d);
    PlainSelector(p, d);
  }

  lemma FirstSecondAncestor(p: string)
    ensures AncestorOf(p + "/text()[1]", p + "/text()[2]") == Some(p)
  {
    TextSelectorLiteral(p, "1");
    TextSelectorLiteral(p, "2");
    SmallSelector("1");
    SmallSelector("2");
    assert "text()[1]"[7] != "text()[2]"[7];
    SiblingAncestor(p, "text()[1]", "text()[2]");
  }

  lemma SmallSelector(d: string)
    requires d == "1" || d == "2"
    ensures '/' !in "text()[" + d + "]" && AllDigits(d) && DigitsValue(d) == d[0] as int - '0' as int
  {
    assert d[..0] == [];
    var t := "text()[" + d + "]";
    forall i | 0 <= i < |t|
      ensures t[i] != '/'
    {
    }
  }

  lemma TextSelectorLiteral(p: string, d: string)
    requires d == "1" || d == "2"
    ensures var sel := if d == "1" then "text()[1]" else "text()[2]";
            p + (if d == "1" then "/text()[1]" else "/text()[2]") == p + TextOpen + d + "]" == p + "/" + sel &&
            sel == "text()[" + d + "]"
  {
  }

  /** An element whose text is followed by one child and that child's
      tail: the range from its first text node at `so` to its second at
      `eo` slices the first text from `so`, the child's text, and the tail
      up to `eo`. */
  lemma SliceAroundChild(doc: Document, p: string, t1: string, mid: string, t2: string, so: int, eo: int, pid: nat, cid: nat)
    requires pid != cid
    requires doc(p) == [ElementHit(Element(pid, Some(t1), [Element(cid, Some(mid), [], Some(t2))], None))]
    ensures NewRange(p + "/text()[1]", so, p + "/text()[2]", eo).Ok?
    ensures Slice(NewRange(p + "/text()[1]", so, p + "/text()[2]", eo).value, doc, false) ==
            Ok(PySlice(t1, Some(so), None) + mid + PySlice(t2, None, Some(eo)))
  {
    FirstToSecond(p, so, eo);
    var r := NewRange(p + "/text()[1]", so, p + "/text()[2]", eo).value;
    var e := Element(pid, Some(t1), [Element(cid, Some(mid), [], Some(t2))], None);
    SliceInsideOne(r, doc, e);
    var nodes := OneChildTree(pid, t1, cid, mid, t2);
    OtherCount(ElementHit(e), TextNode(cid, mid));
    assert r.startTextIndex == 0 && r.endTextIndex == 1;
    SliceAcross([], TextNode(pid, t1), [TextNode(cid, mid)], TextNode(pid, t2), [], ElementHit(e), ElementHit(e), r);
    ThreeParts(PySlice(t1, Some(so), None), TextNode(cid, mid), PySlice(t2, None, Some(eo)));
  }

  /** A range whose ends lie in one element, found once, slices that element's
      text nodes. */
  lemma SliceInsideOne(r: XpathRange, doc: Document, el: Element)
    requires r.startXpath != r.endXpath
    requires r.commonAncestor == Some(r.startContainerXpath) && r.endContainerXpath == r.startContainerXpath
    requires doc(r.startContainerXpath) == [ElementHit(el)]
    ensures Slice(r, doc, false) == Ok(Flatten(Collect(TextNodeTree(el), ElementHit(el), ElementHit(el), r, -1, -1, [])))
  {
  }

  lemma OtherCount(h: Hit, n: TextNode)
    requires h.ElementHit? && h.element.id != n.parent
    ensures CountOf(h, [n]) == 0 && EndCount([], h, h, false) == 0 && CountOf(h, []) == 0
  {
    assert [n][1..] == [];
  }

  lemma OneChildTree(pid: nat, t1: string, cid: nat, mid: string, t2: string) returns (nodes: seq<TextNode>)
    ensures nodes == TextNodeTree(Element(pid, Some(t1), [Element(cid, Some(mid), [], Some(t2))], None))
    ensures nodes == [] + [TextNode(pid, t1)] + [TextNode(cid, mid)] + [TextNode(pid, t2)] + []
  {
    var c := Element(cid, Some(mid), [], Some(t2));
    var e := Element(pid, Some(t1), [c], None);
    assert TextNodeTree(c) == [TextNode(cid, mid)];
    assert ChildTexts(e, 0) == [TextNode(cid, mid), TextNode(pid, t2)];
    nodes := [TextNode(pid, t1), TextNode(cid, mid), TextNode(pid, t2)];
  }

  lemma ThreeParts(a: string, n: TextNode, c: string)
    ensures Flatten([a] + Texts([n]) + [c]) == a + n.text + c
  {
    assert Texts([n]) == [n.text] + Texts([]);
    var parts := [a] + Texts([n]) + [c];
    assert parts == [a, n.text, c];
    assert Flatten(parts) == a + Flatten([n.text, c]);
    assert Flatten([n.text, c]) == n.text + Flatten([c]);
    assert Flatten([c]) == c + [] == c;
    assert a + (n.text + c) == a + n.text + c;
  }

  /** The repository's own example `<b>b<i>a</i>r</b>`: the range from
      `/b[1]/text()[1]` at 0 to `/b[1]/text()[2]` at 1 slices to 'bar'. */
  lemma SliceBar(doc: Document)
    requires doc("/b[1]") == [ElementHit(Element(0, Some("b"), [Element(1, Some("a"), [], Some("r"))], None))]
    ensures NewRange("/b[1]/text()[1]", 0, "/b[1]/text()[2]", 1).Ok?
    ensures Slice(NewRange("/b[1]/text()[1]", 0, "/b[1]/text()[2]", 1).value, doc, false) == Ok("bar")
  {
    SliceAroundChild(doc, "/b[1]", "b", "a", "r", 0, 1, 0, 1);
    BarLiterals();
  }

  lemma BarLiterals()
    ensures "/b[1]" + "/text()[1]" == "/b[1]/text()[1]" && "/b[1]" + "/text()[2]" == "/b[1]/text()[2]"
    ensures PySlice("b", Some(0), None) + "a" + PySlice("r", None, Some(1)) == "bar"
  {
    assert PySlice("b", Some(0), None) == "b" && PySlice("r", None, Some(1)) == "r";
  }
}
