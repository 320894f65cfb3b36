/** `basic_seo_analysis`: the five on-page fields read from a parsed document.
    The page URL the function also receives is never used, so it is not a
    parameter here. */
module SeoAnalysis {
  import opened Wrappers
  import opened PyStrings
  import opened Soup

  const TitleFilter := Filter("title", None)
  const DescriptionFilter := Filter("meta", Some(AttrTest("name", "description")))
  const H1Filter := Filter("h1", None)
  const CanonicalFilter := Filter("link", Some(AttrTest(RelKey, "canonical")))
  const ImgFilter := Filter("img", None)

  /** The record the analysis returns. An entry of `imagesWithoutAlt` is the
      image's `src`, or None when it has none. */
  datatype SeoReport = SeoReport(
    title: Option<string>,
    description: Option<string>,
    h1Tags: seq<string>,
    canonical: Option<string>,
    imagesWithoutAlt: seq<Option<string>>)

  /** The one way the analysis fails: the first `<title>` has no single string
      child, so there is nothing to strip. */
  datatype AnalysisError = TitleWithoutString

  /** The first `<title>`'s string, stripped; None when there is no `<title>`. */
  function Title(doc: Document): (r: Result<Option<string>, AnalysisError>)
    ensures r == Ok(None) <==> forall i :: 0 <= i < |doc| ==> doc[i].name != "title"
    ensures forall i :: IsFirstMatch(doc, TitleFilter, i) ==>
      r == match doc[i].str
           case None => Err(TitleWithoutString)
           case Some(s) => Ok(Some(Strip(s)))
  {
    match Find(doc, TitleFilter)
    case None => Ok(None)
    case Some(t) =>
      match t.str
      case None => Err(TitleWithoutString)
      case Some(s) => Ok(Some(Strip(s)))
  }

  /** The `content` of the first `<meta name="description">`, stripped, when that
      content is present and non-empty. Later matching tags are never looked at. */
  function Description(doc: Document): (r: Option<string>)
    ensures (forall i :: 0 <= i < |doc| ==> !Matches(DescriptionFilter, doc[i])) ==> r == None
    ensures forall i :: IsFirstMatch(doc, DescriptionFilter, i) ==>
      r == if Truthy(Get(doc[i], "content")) then Some(Strip(doc[i].attrs["content"])) else None
  {
    match Find(doc, DescriptionFilter)
    case None => None
    case Some(tag) =>
      if Truthy(Get(tag, "content")) then Some(Strip(tag.attrs["content"])) else None
  }

  /** The text of every `<h1>`, in document order. */
  function H1Tags(doc: Document): (r: seq<string>)
    ensures |r| == |FindAll(doc, H1Filter)|
  {
    var hs := FindAll(doc, H1Filter);
    seq(|hs|, k requires 0 <= k < |hs| => hs[k].text)
  }

  /** The `href` of the first `<link>` whose `rel` tokens include `canonical`,
      stripped, when that `href` is present and non-empty. */
  function Canonical(doc: Document): (r: Option<string>)
    ensures (forall i :: 0 <= i < |doc| ==> !Matches(CanonicalFilter, doc[i])) ==> r == None
    ensures forall i :: IsFirstMatch(doc, CanonicalFilter, i) ==>
      r == if Truthy(Get(doc[i], "href")) then Some(Strip(doc[i].attrs["href"])) else None
  {
    match Find(doc, CanonicalFilter)
    case None => None
    case Some(link) =>
      if Truthy(Get(link, "href")) then Some(Strip(link.attrs["href"])) else None
  }

  /** The `src` of each image whose `alt` is missing or empty, in order. The
      result is as long as the input exactly when no image has a usable `alt`. */
  function SrcsWithoutAlt(images: seq<Element>): (r: seq<Option<string>>)
    ensures |r| <= |images|
    ensures |r| == |images| <==> forall k :: 0 <= k < |images| ==> !Truthy(Get(images[k], "alt"))
    decreases |images|
  {
    if |images| == 0 then []
    else
      var rest := SrcsWithoutAlt(images[1..]);
      assert forall k :: 1 <= k < |images| ==> images[k] == images[1..][k - 1];
      if Truthy(Get(images[0], "alt")) then rest else [Get(images[0], "src")] + rest
  }

  /** The `src` of every `<img>` without a usable `alt`, in document order. */
  function ImagesWithoutAlt(doc: Document): (r: seq<Option<string>>)
    ensures |r| <= |FindAll(doc, ImgFilter)|
  {
    SrcsWithoutAlt(FindAll(doc, ImgFilter))
  }

  /** `basic_seo_analysis`: fails exactly when the title lookup fails, and
      otherwise holds each field's extraction. */
  function BasicSeoAnalysis(doc: Document): (r: Result<SeoReport, AnalysisError>)
    ensures r.Err? <==> Title(doc).Err?
    ensures r.Ok? ==>
      (r.value.title == Title(doc).value && r.value.description == Description(doc)
       && r.value.h1Tags == H1Tags(doc) && r.value.canonical == Canonical(doc)
       && r.value.imagesWithoutAlt == ImagesWithoutAlt(doc))
  {
    match Title(doc)
    case Err(e) => Err(e)
    case Ok(title) =>
      Ok(SeoReport(title, Description(doc), H1Tags(doc), Canonical(doc), ImagesWithoutAlt(doc)))
  }

  // ---------------------------------------------------------------------------
  // Properties

  /** `H1Tags` has exactly one entry per `<h1>`, in document order: splitting the
      document at any element splits the list there. */
  lemma H1TagsPerElement(a: Document, e: Element, b: Document)
    ensures H1Tags(a + [e] + b) == H1Tags(a) + (if e.name == "h1" then [e.text] else []) + H1Tags(b)
  {
    FindAllSingle(e, H1Filter);
    FindAllConcat(a + [e], b, H1Filter);
    FindAllConcat(a, [e], H1Filter);
  }

  lemma {:induction false} SrcsWithoutAltConcat(x: seq<Element>, y: seq<Element>)
    ensures SrcsWithoutAlt(x + y) == SrcsWithoutAlt(x) + SrcsWithoutAlt(y)
    decreases |x|
  {
    if |x| == 0 {
      assert x + y == y;
    } else {
      assert (x + y)[1..] == x[1..] + y;
      SrcsWithoutAltConcat(x[1..], y);
    }
  }

  /** `ImagesWithoutAlt` lists the `src` of exactly those `<img>` elements whose
      `alt` is missing or empty, in document order; an image with any non-empty
      `alt`, whitespace included, adds nothing. */
  lemma ImagesWithoutAltPerElement(a: Document, e: Element, b: Document)
    ensures ImagesWithoutAlt(a + [e] + b) ==
      ImagesWithoutAlt(a)
      + (if e.name == "img" && !Truthy(Get(e, "alt")) then [Get(e, "src")] else [])
      + ImagesWithoutAlt(b)
  {
    var imgs, mid, rest := FindAll(a, ImgFilter), FindAll([e], ImgFilter), FindAll(b, ImgFilter);
    assert FindAll(a + [e] + b, ImgFilter) == imgs + mid + rest by {
      FindAllConcat(a + [e], b, ImgFilter);
      FindAllConcat(a, [e], ImgFilter);
    }
    assert SrcsWithoutAlt(mid) == if e.name == "img" && !Truthy(Get(e, "alt")) then [Get(e, "src")] else [] by {
      FindAllSingle(e, ImgFilter);
      assert [e][1..] == [];
    }
    SrcsWithoutAltConcat(imgs + mid, rest);
    SrcsWithoutAltConcat(imgs, mid);
  }

  /** `title`, `description` and `canonical` come from the first matching tag
      only: appending anything after a document that already has one changes
      nothing. */
  lemma FirstTagDecides(a: Document, b: Document)
    ensures Find(a, TitleFilter).Some? ==> Title(a + b) == Title(a)
    ensures Find(a, DescriptionFilter).Some? ==> Description(a + b) == Description(a)
    ensures Find(a, CanonicalFilter).Some? ==> Canonical(a + b) == Canonical(a)
  {
    if Find(a, TitleFilter).Some? { FindIgnoresLater(a, b, TitleFilter); }
    if Find(a, DescriptionFilter).Some? { FindIgnoresLater(a, b, DescriptionFilter); }
    if Find(a, CanonicalFilter).Some? { FindIgnoresLater(a, b, CanonicalFilter); }
  }

  /** An element that one of the five lookups selects. */
  predicate Consulted(e: Element) {
    Matches(TitleFilter, e) || Matches(DescriptionFilter, e) || Matches(H1Filter, e)
    || Matches(CanonicalFilter, e) || Matches(ImgFilter, e)
  }

  /** Inserting an element none of the lookups selects (a `<p>`, a
      `<meta name="viewport">`, a `<link rel="stylesheet">`, ...) leaves the
      whole analysis unchanged. */
  lemma UnconsultedElementIgnored(a: Document, e: Element, b: Document)
    requires !Consulted(e)
    ensures BasicSeoAnalysis(a + [e] + b) == BasicSeoAnalysis(a + b)
  {
    var x, y := a + [e] + b, a + b;
    assert Title(x) == Title(y) by { FindSkipsNonMatching(a, e, b, TitleFilter); }
    assert Description(x) == Description(y) by { FindSkipsNonMatching(a, e, b, DescriptionFilter); }
    assert H1Tags(x) == H1Tags(y) by { FindSkipsNonMatching(a, e, b, H1Filter); }
    assert Canonical(x) == Canonical(y) by { FindSkipsNonMatching(a, e, b, CanonicalFilter); }
    assert ImagesWithoutAlt(x) == ImagesWithoutAlt(y) by { FindSkipsNonMatching(a, e, b, ImgFilter); }
  }

  /** A description made only of whitespace is reported as the empty string,
      not as missing. */
  lemma WhitespaceDescriptionIsEmpty(doc: Document, i: int)
    requires IsFirstMatch(doc, DescriptionFilter, i)
    requires Truthy(Get(doc[i], "content")) && AllSpace(doc[i].attrs["content"])
    ensures Description(doc) == Some("")
  {
  }
}
