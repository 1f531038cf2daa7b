/**
 * An already-parsed XML element tree, read the way `xml.etree.ElementTree`
 * reads it: `find` and `findall` look at direct children only, in document
 * order, and `get(key, default)` falls back to `default` only when the
 * attribute is absent.
 */
module Xml {
  import opened Common
  import opened Numbers
  import opened Seqs

  /**
   * An element: its tag, its attributes, its text and its child elements.
   * A missing text (`None` in ElementTree) is the empty string here: every
   * reader of it writes `elem.text or default`, which treats both alike.
   */
  datatype Element = Element(tag: string, attrs: map<string, string>, text: string, children: seq<Element>)

  /** Why parsing a test report fails: an unknown root tag, or `int()` refusing an attribute. */
  datatype ParseError = UnexpectedRoot(tag: string) | InvalidInteger(text: string)

  /** `elem.get(key, default)`. */
  function Get(e: Element, key: string, default: string): string
  {
    if key in e.attrs then e.attrs[key] else default
  }

  /** The direct children of `e` whose tag is `tag`, in document order (`elem.findall(tag)`). */
  function FindAll(e: Element, tag: string): (r: seq<Element>)
    ensures forall i :: 0 <= i < |r| ==> r[i].tag == tag && r[i] in e.children
  {
    ChildrenTagged(e.children, tag)
  }

  function ChildrenTagged(cs: seq<Element>, tag: string): (r: seq<Element>)
    ensures |r| <= |cs|
    ensures forall i :: 0 <= i < |r| ==> r[i].tag == tag && r[i] in cs
  {
    if cs == [] then []
    else (if cs[0].tag == tag then [cs[0]] else []) + ChildrenTagged(cs[1..], tag)
  }

  /** The test `findall(tag)` applies to each child. */
  function TagIs(tag: string): Element -> bool
  {
    (x: Element) => x.tag == tag
  }

  /** Selecting the tagged children is the comprehension `[x for x in cs if x.tag == tag]`. */
  lemma {:induction false} ChildrenTaggedFilter(cs: seq<Element>, tag: string)
    ensures ChildrenTagged(cs, tag) == Filter(TagIs(tag), cs)
  {
    if cs != [] {
      ChildrenTaggedFilter(cs[1..], tag);
    }
  }

  /**
   * `findall(tag)` returns every direct child tagged `tag`, as often as it
   * occurs among the children, in document order, and nothing else.
   */
  lemma FindAllSelects(e: Element, tag: string)
    ensures forall x :: x in FindAll(e, tag) <==> x in e.children && x.tag == tag
    ensures Subsequence(FindAll(e, tag), e.children)
    ensures forall x :: multiset(FindAll(e, tag))[x] == if x.tag == tag then multiset(e.children)[x] else 0
  {
    ChildrenTaggedFilter(e.children, tag);
    FilterMembershipAll(TagIs(tag), e.children);
    FilterIsSubsequence(TagIs(tag), e.children);
    FilterCountAll(TagIs(tag), e.children);
  }

  /** The first element of the tagged children is the first child carrying the tag. */
  lemma {:induction false} FirstTagged(cs: seq<Element>, tag: string)
    requires ChildrenTagged(cs, tag) != []
    ensures exists i :: 0 <= i < |cs| && cs[i] == ChildrenTagged(cs, tag)[0] && forall j :: 0 <= j < i ==> cs[j].tag != tag
  {
    if cs[0].tag == tag {
      assert cs[0] == ChildrenTagged(cs, tag)[0];
    } else {
      FirstTagged(cs[1..], tag);
      var i :| 0 <= i < |cs[1..]| && cs[1..][i] == ChildrenTagged(cs[1..], tag)[0]
        && forall j :: 0 <= j < i ==> cs[1..][j].tag != tag;
      assert cs[i + 1] == ChildrenTagged(cs, tag)[0];
      assert forall j :: 0 <= j < i + 1 ==> cs[j].tag != tag by {
        forall j | 0 < j < i + 1 ensures cs[j].tag != tag {
          assert cs[j] == cs[1..][j - 1];
        }
      }
    }
  }

  /** The first direct child of `e` tagged `tag`, if any (`elem.find(tag)`). */
  function Find(e: Element, tag: string): (r: Option<Element>)
    ensures r.Some? <==> exists i :: 0 <= i < |e.children| && e.children[i].tag == tag
    ensures r.Some? ==> r.value.tag == tag && r.value in e.children
    ensures r.Some? ==>
      exists i :: 0 <= i < |e.children| && e.children[i] == r.value && forall j :: 0 <= j < i ==> e.children[j].tag != tag
  {
    var all := FindAll(e, tag);
    if all == [] then
      NoneWhenNoneTagged(e.children, tag);
      None
    else
      FirstTagged(e.children, tag);
      Some(all[0])
  }

  lemma {:induction false} NoneWhenNoneTagged(cs: seq<Element>, tag: string)
    ensures ChildrenTagged(cs, tag) == [] <==> forall i :: 0 <= i < |cs| ==> cs[i].tag != tag
  {
    if cs != [] {
      NoneWhenNoneTagged(cs[1..], tag);
      assert forall i :: 1 <= i < |cs| ==> cs[i] == cs[1..][i - 1];
    }
  }

  /** When every child carries the tag, `findall` returns all of them. */
  lemma {:induction false} AllTagged(cs: seq<Element>, tag: string)
    requires forall i :: 0 <= i < |cs| ==> cs[i].tag == tag
    ensures ChildrenTagged(cs, tag) == cs
  {
    if cs != [] {
      AllTagged(cs[1..], tag);
    }
  }

  /** `int(elem.get(key, default))`: the attribute's integer, or the ValueError. */
  function IntAttr(e: Element, key: string, default: string): (r: Result<int, ParseError>)
    ensures r.Err? <==> !IsDecimal(Get(e, key, default))
    ensures r.Err? ==> r.error == InvalidInteger(Get(e, key, default))
    ensures r.Ok? ==> ParseInt(Get(e, key, default)) == Some(r.value)
  {
    var s := Get(e, key, default);
    match ParseInt(s)
    case Some(n) => Ok(n)
    case None => Err(InvalidInteger(s))
  }
}
