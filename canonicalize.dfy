/**
 * Canonical form of a GoCD XML configuration (edxpipelines/canonicalize.py).
 *
 * An element is a tag, its attributes, its text, its tail and its children.
 * Canonicalizing an element works on a copy: the tail is cleared, every
 * child is canonicalized by the rule for its own tag, and then, for the tags
 * in the rule table, the children are stably sorted by that tag's key.
 * Other tags keep their children in document order.
 */
module Canonicalize {
  import opened Wrappers
  import opened Sorting

  datatype Element = Element(
    tag: string,
    attrs: map<string, string>,
    text: Option<string>,
    tail: Option<string>,
    children: seq<Element>)

  /** `element.get(name)`: the attribute's value, or None. */
  function Get(e: Element, name: string): Option<string>
  {
    if name in e.attrs then Some(e.attrs[name]) else None
  }

  /** The child sort key of each tag in `RULES`; None for every other tag (the default rule, no sorting). */
  function Rule(tag: string): Option<Element -> Key>
  {
    match tag
    case "admins" => Some((e: Element) => [e.text])
    case "agents" => Some((e: Element) => [Get(e, "uuid")])
    case "artifacts" => Some((e: Element) => [Get(e, "src")])
    case "authorization" => Some((e: Element) => [Some(e.tag)])
    case "cruise" => Some((e: Element) => [Some(e.tag), Get(e, "group")])
    case "environmentvariables" => Some((e: Element) => [Get(e, "name")])
    case "jobs" => Some((e: Element) => [Get(e, "name")])
    case "materials" => Some((e: Element) => [Some(e.tag), Get(e, "materialName")])
    case "pipelines" => Some((e: Element) => [Some(e.tag), Get(e, "name")])
    case "roles" => Some((e: Element) => [Get(e, "name")])
    case "security" => Some((e: Element) => [Some(e.tag)])
    case "users" => Some((e: Element) => [e.text])
    case _ => None
  }

  /** Each child canonicalized by the rule for its own tag, in document order. */
  function CanonicalChildren(e: Element): seq<Element>
    decreases e, 0
  {
    seq(|e.children|, i requires 0 <= i < |e.children| => Canonical(e.children[i]))
  }

  /** `canonicalize_element`: the canonical form of an element. */
  function Canonical(e: Element): Element
    decreases e, 1
  {
    var kids := CanonicalChildren(e);
    var sorted := if Rule(e.tag).Some? then SortBy(kids, Rule(e.tag).value) else kids;
    e.(tail := None, children := sorted)
  }

  /** `canonicalize_element(element)`: dispatch on the tag to its canonicalizer. */
  method CanonicalizeElement(element: Element) returns (canon: Element)
    ensures canon == Canonical(element)
    decreases element, 1
  {
    canon := Canonicalizer(element, Rule(element.tag));
  }

  /** The `canonicalizer` built by `canonicalize(child_sort_key)`, applied to `element`. */
  method Canonicalizer(element: Element, childSortKey: Option<Element -> Key>) returns (canon: Element)
    requires childSortKey == Rule(element.tag)
    ensures canon == Canonical(element)
    decreases element, 0
  {
    canon := element.(tail := None);
    var kids: seq<Element> := [];
    var i := 0;
    while i < |canon.children|
      invariant 0 <= i <= |canon.children| && canon.children == element.children
      invariant kids == CanonicalChildren(element)[..i]
    {
      var k := CanonicalizeElement(canon.children[i]);
      kids := kids + [k];
      i := i + 1;
    }
    assert kids == CanonicalChildren(element);
    canon := canon.(children := kids);
    if childSortKey.Some? {
      canon := canon.(children := SortBy(canon.children, childSortKey.value));
    }
  }

  /** No element of the tree has a tail. */
  ghost predicate NoTails(e: Element)
  {
    e.tail == None && forall i | 0 <= i < |e.children| :: NoTails(e.children[i])
  }

  /**
   * The canonical form keeps the tag, attributes and text, holds exactly the
   * canonicalized children, sorted by the tag's key when the tag has a rule
   * (keeping document order among equal keys) and in document order
   * otherwise.
   */
  lemma CanonicalShape(e: Element)
    ensures var r := Canonical(e);
      r.tag == e.tag && r.attrs == e.attrs && r.text == e.text && r.tail == None &&
      multiset(r.children) == multiset(CanonicalChildren(e)) &&
      (Rule(e.tag).None? ==> r.children == CanonicalChildren(e)) &&
      (Rule(e.tag).Some? ==>
        (SortedBy(r.children, Rule(e.tag).value) &&
         forall k :: WithKey(r.children, Rule(e.tag).value, k) == WithKey(CanonicalChildren(e), Rule(e.tag).value, k)))
  {
    if Rule(e.tag).Some? {
      SortByProperties(CanonicalChildren(e), Rule(e.tag).value);
    }
  }

  /** Every tail in the canonical tree is cleared. */
  lemma {:induction false} CanonicalHasNoTails(e: Element)
    ensures NoTails(Canonical(e))
    decreases e
  {
    var r := Canonical(e);
    CanonicalShape(e);
    forall i | 0 <= i < |r.children| ensures NoTails(r.children[i]) {
      var j := CanonicalChildOf(e, r.children[i]);
      CanonicalHasNoTails(e.children[j]);
    }
  }

  /** Each child of the canonical form is the canonical form of some child of the input. */
  lemma CanonicalChildOf(e: Element, c: Element) returns (j: nat)
    requires c in Canonical(e).children
    ensures j < |e.children| && c == Canonical(e.children[j])
  {
    CanonicalShape(e);
    assert c in multiset(CanonicalChildren(e));
    var kids := CanonicalChildren(e);
    j :| 0 <= j < |kids| && kids[j] == c;
  }

  /** Canonicalizing a canonical tree changes nothing: the output is a canonical form. */
  lemma {:induction false} CanonicalIdempotent(e: Element)
    ensures Canonical(Canonical(e)) == Canonical(e)
    decreases e
  {
    var r := Canonical(e);
    CanonicalShape(e);
    var kids := CanonicalChildren(r);
    forall i | 0 <= i < |r.children| ensures kids[i] == r.children[i] {
      var j := CanonicalChildOf(e, r.children[i]);
      CanonicalIdempotent(e.children[j]);
    }
    assert kids == r.children;
    if Rule(r.tag).Some? {
      SortBySorted(kids, Rule(r.tag).value);
    }
  }

  /** A parsed configuration document: its root element. */
  datatype ElementTree = ElementTree(root: Element)

  /** `canonicalize_gocd`: a new document whose root is the canonical form of the old root. */
  function CanonicalizeGocd(config: ElementTree): ElementTree
  {
    ElementTree(Canonical(config.root))
  }

  /** A canonicalized document has no tails and is its own canonical form. */
  lemma CanonicalizeGocdCanonical(config: ElementTree)
    ensures NoTails(CanonicalizeGocd(config).root)
    ensures CanonicalizeGocd(CanonicalizeGocd(config)) == CanonicalizeGocd(config)
  {
    CanonicalHasNoTails(config.root);
    CanonicalIdempotent(config.root);
  }
}
