/** The parsed HTML document as the analysis sees it, and the two lookups it
    uses on it: `find` (first match) and `find_all` (every match, in order).

    The parser itself is not part of this model. A document is the sequence
    of its elements in document order (the order in which a depth-first walk
    of the tree meets their start tags), which is the order `find` and
    `find_all` scan in. */
module Soup {
  import opened Wrappers

  /** One element of the parsed tree.
      - `name`: the tag name as the parser reports it;
      - `attrs`: the single-valued attributes;
      - `rel`: the tokens of the multi-valued `rel` attribute (empty when absent);
      - `str`: the element's `.string`, present only when it has exactly one
        string child (directly or through a single child element);
      - `text`: what `get_text(strip=True)` returns for the element, taken as
        given. */
  datatype Element = Element(
    name: string,
    attrs: map<string, string>,
    rel: seq<string>,
    str: Option<string>,
    text: string)

  type Document = seq<Element>

  /** A `find`/`find_all` query: a tag name and at most one attribute test,
      as in `find("meta", attrs={"name": "description"})`. */
  datatype AttrTest = AttrTest(key: string, value: string)
  datatype Filter = Filter(name: string, attr: Option<AttrTest>)

  /** The one multi-valued attribute the analysis queries. */
  const RelKey := "rel"

  /** `element.get(key)` */
  function Get(e: Element, key: string): Option<string> {
    if key in e.attrs then Some(e.attrs[key]) else None
  }

  /** Python truthiness of `element.get(key)`: present and not the empty string. */
  predicate Truthy(v: Option<string>) {
    v.Some? && v.value != ""
  }

  /** A single-valued attribute matches by equality; the multi-valued `rel`
      matches when any of its tokens equals the wanted value. */
  predicate AttrMatches(e: Element, t: AttrTest) {
    if t.key == RelKey then t.value in e.rel
    else t.key in e.attrs && e.attrs[t.key] == t.value
  }

  predicate Matches(f: Filter, e: Element) {
    e.name == f.name && (f.attr.None? || AttrMatches(e, f.attr.value))
  }

  /** `i` is the position of the first element of `doc` that `f` selects. */
  predicate IsFirstMatch(doc: Document, f: Filter, i: int) {
    0 <= i < |doc| && Matches(f, doc[i]) && forall j :: 0 <= j < i ==> !Matches(f, doc[j])
  }

  /** Position of the first element `f` selects, if any. */
  function FindIndex(doc: Document, f: Filter): (r: Option<nat>)
    ensures r.Some? ==> IsFirstMatch(doc, f, r.value)
    ensures r.None? ==> forall i :: 0 <= i < |doc| ==> !Matches(f, doc[i])
    decreases |doc|
  {
    if |doc| == 0 then None
    else if Matches(f, doc[0]) then Some(0)
    else
      match FindIndex(doc[1..], f)
      case None => None
      case Some(i) => Some(i + 1)
  }

  /** `soup.find(...)`: the first element `f` selects, or None when there is none. */
  function Find(doc: Document, f: Filter): (r: Option<Element>)
    ensures forall i :: IsFirstMatch(doc, f, i) ==> r == Some(doc[i])
    ensures r.None? <==> forall i :: 0 <= i < |doc| ==> !Matches(f, doc[i])
  {
    match FindIndex(doc, f)
    case None => None
    case Some(i) => Some(doc[i])
  }

  /** `soup.find_all(...)`: every element `f` selects, in document order. */
  function FindAll(doc: Document, f: Filter): (r: Document)
    ensures |r| <= |doc|
    ensures forall k :: 0 <= k < |r| ==> Matches(f, r[k]) && r[k] in doc
    ensures forall i :: 0 <= i < |doc| && Matches(f, doc[i]) ==> doc[i] in r
    decreases |doc|
  {
    if |doc| == 0 then []
    else if Matches(f, doc[0]) then [doc[0]] + FindAll(doc[1..], f)
    else FindAll(doc[1..], f)
  }

  /** `find_all` keeps document order: the matches of a concatenation are the
      matches of the first part followed by those of the second. */
  lemma {:induction false} FindAllConcat(a: Document, b: Document, f: Filter)
    ensures FindAll(a + b, f) == FindAll(a, f) + FindAll(b, f)
    decreases |a|
  {
    if |a| == 0 {
      assert a + b == b;
    } else {
      assert (a + b)[1..] == a[1..] + b;
      FindAllConcat(a[1..], b, f);
    }
  }

  /** `find` is the head of `find_all`. */
  lemma {:induction false} FindIsHeadOfFindAll(doc: Document, f: Filter)
    ensures Find(doc, f) == if FindAll(doc, f) == [] then None else Some(FindAll(doc, f)[0])
    decreases |doc|
  {
    if |doc| > 0 {
      if Matches(f, doc[0]) {
        assert IsFirstMatch(doc, f, 0);
      } else {
        FindIsHeadOfFindAll(doc[1..], f);
        match FindIndex(doc[1..], f)
        case None =>
        case Some(i) =>
          assert IsFirstMatch(doc, f, i + 1) by {
            forall j | 0 <= j < i + 1 ensures !Matches(f, doc[j]) {
              if j > 0 { assert doc[j] == doc[1..][j - 1]; }
            }
          }
      }
    }
  }

  /** Once `a` holds a match, nothing after it is consulted by `find`. */
  lemma FindIgnoresLater(a: Document, b: Document, f: Filter)
    requires Find(a, f).Some?
    ensures Find(a + b, f) == Find(a, f)
  {
    FindAllConcat(a, b, f);
    FindIsHeadOfFindAll(a, f);
    FindIsHeadOfFindAll(a + b, f);
  }

  /** Two documents with the same `find_all` answer have the same `find` answer. */
  lemma FindFollowsFindAll(x: Document, y: Document, f: Filter)
    requires FindAll(x, f) == FindAll(y, f)
    ensures Find(x, f) == Find(y, f)
  {
    FindIsHeadOfFindAll(x, f);
    FindIsHeadOfFindAll(y, f);
  }

  /** `find_all` on a one-element document. */
  lemma FindAllSingle(e: Element, f: Filter)
    ensures FindAll([e], f) == if Matches(f, e) then [e] else []
  {
    assert [e][1..] == [];
  }

  /** An element the filter does not select changes neither lookup. */
  lemma FindSkipsNonMatching(a: Document, e: Element, b: Document, f: Filter)
    requires !Matches(f, e)
    ensures FindAll(a + [e] + b, f) == FindAll(a + b, f)
    ensures Find(a + [e] + b, f) == Find(a + b, f)
  {
    assert FindAll(a + [e] + b, f) == FindAll(a + b, f) by {
      FindAllSingle(e, f);
      FindAllConcat(a + [e], b, f);
      FindAllConcat(a, [e], f);
      FindAllConcat(a, b, f);
    }
    FindFollowsFindAll(a + [e] + b, a + b, f);
  }
}
