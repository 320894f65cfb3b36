# SEO analyzer: on-page extraction and the analyze handler, in Dafny

This project models the logic of `app.py` of a small Flask SEO analyzer:

- `basic_seo_analysis`, which reads five fields from a parsed HTML page: the
  page title, the meta description, the texts of the `<h1>` headings, the
  canonical link and the `src` of every image without an `alt` text;
- the part of the `/analyze` handler that prefixes the submitted URL with
  `http://` when it does not start with `http`, fetches it, accepts the
  response only when its status is exactly 200, and then runs the analysis.

Modules:

- `Wrappers` (`wrappers.dfy`): `Option` and `Result`.
- `PyStrings` (`py_strings.dfy`): Python's `str.strip()` (with the exact
  character set of `str.isspace()`) and `str.startswith`.
- `Soup` (`soup.dfy`): the parsed document as a sequence of elements in
  document order, and the `find` / `find_all` lookups over it. An element has a
  tag name, its single-valued attributes, the tokens of its multi-valued `rel`
  attribute, its `.string` (present only when it has a single string child) and
  the result of `get_text(strip=True)`, taken as given.
- `SeoAnalysis` (`seo_analysis.dfy`): the five extractors, `basic_seo_analysis`
  itself, and the properties of the fields.
- `App` (`app.dfy`): URL prefixing, the status test and the handler outcome.
  The network is a parameter `fetch: string -> FetchOutcome` (a response with
  its status and parsed body, or an exception with its message).

Failures that raise an uncaught exception in the program are explicit values
here: a `<title>` whose `.string` is None (`.strip()` on None) is
`AnalysisError.TitleWithoutString`, and a form without a `url` field
(`.startswith` on None) is `Crash.MissingUrlField`; both become a
`ServerError` page.

The model follows `app.py` as written: the code does not trim the submitted URL and has no
empty-input error (an empty input becomes `http://`); it recognises a scheme
only by the literal prefix `http` (so `httpbin.org` is left alone); it accepts
only status 200 rather than any 2xx; the canonical link must have a non-empty
`href` and is stripped; an image counts as having alt text when its `alt` is
any non-empty string, whitespace included; and there is no scoring, link
classification or probing, robots.txt, sitemap, viewport or structured-data
check in the code.

## Model

| member | source | states |
|---|---|---|
| PyStrings.TrimStart | app.py:14 | leading-whitespace removal: the result is a suffix of the input, what was dropped is all whitespace, and the result does not start with whitespace |
| PyStrings.TrimEnd | app.py:14 | trailing-whitespace removal: the result is a prefix of the input, what was dropped is all whitespace, and the result does not end with whitespace |
| PyStrings.Strip | app.py:21 | `str.strip()`: no whitespace at either end of the result, never longer than the input, and empty exactly when the input is all whitespace |
| PyStrings.TrimStartSkips | app.py:14 | whitespace followed by text that starts with a non-space loses exactly the whitespace |
| PyStrings.TrimEndSkips | app.py:14 | text ending in a non-space followed by whitespace loses exactly the whitespace |
| PyStrings.StripUnique | app.py:32 | for any split into leading whitespace, a core without boundary whitespace, and trailing whitespace, `strip` returns the core |
| PyStrings.StripIdempotent | app.py:21 | stripping twice equals stripping once |
| Soup.FindIndex | app.py:19 | the index returned is the first element the filter selects; None means no element is selected |
| Soup.Find | app.py:30 | `find` returns the element at the first matching position, and None exactly when nothing matches |
| Soup.FindAll | app.py:36 | `find_all` returns only matching elements of the document, every matching element, and never more than the document has |
| Soup.FindAllConcat | app.py:25 | `find_all` preserves document order: on a concatenation it returns the first part's matches followed by the second's |
| Soup.FindAllSingle | app.py:36 | on a one-element document `find_all` returns that element exactly when it matches |
| Soup.FindIsHeadOfFindAll | app.py:19 | `find` returns None when `find_all` is empty, and otherwise the first element `find_all` returns |
| Soup.FindFollowsFindAll | app.py:30 | documents with equal `find_all` answers have equal `find` answers |
| Soup.FindIgnoresLater | app.py:19 | once a document prefix holds a match, whatever follows it cannot change `find` |
| Soup.FindSkipsNonMatching | app.py:36 | inserting an element the filter does not select changes neither `find` nor `find_all` |
| SeoAnalysis.Title | app.py:14 | `title` is None exactly when the document has no `<title>`; otherwise the first `<title>`'s string stripped, or the error when that element has no single string child |
| SeoAnalysis.Description | app.py:18-22 | `description` is None when there is no `<meta name="description">`; otherwise it depends only on the first one: None when its `content` is absent or empty, else `content` stripped |
| SeoAnalysis.Canonical | app.py:29-33 | `canonical` is None when no `<link>` has `canonical` among its `rel` tokens; otherwise it depends only on the first: None when its `href` is absent or empty, else `href` stripped |
| SeoAnalysis.SrcsWithoutAlt | app.py:37 | the list comprehension over images is never longer than its input, and has the input's length exactly when no image has a non-empty `alt` |
| SeoAnalysis.ImagesWithoutAlt | app.py:36-38 | `images_without_alt` has at most one entry per `<img>` |
| SeoAnalysis.BasicSeoAnalysis | app.py:9-40 | the analysis fails exactly when the title lookup fails, and otherwise its record holds the five extracted fields |
| SeoAnalysis.H1Tags | app.py:25 | `h1_tags` has one entry per `<h1>` element that `find_all` returns; `H1TagsPerElement` fixes each entry and the order |
| SeoAnalysis.H1TagsPerElement | app.py:25 | `h1_tags` has exactly one entry, the element's text, per `<h1>` element, in document order |
| SeoAnalysis.SrcsWithoutAltConcat | app.py:37 | the comprehension over images distributes over concatenation (order is kept) |
| SeoAnalysis.ImagesWithoutAltPerElement | app.py:36-38 | `images_without_alt` holds the `src` (or None) of exactly those `<img>` elements whose `alt` is absent or empty, in document order; an image with any non-empty `alt`, even whitespace, adds nothing |
| SeoAnalysis.FirstTagDecides | app.py:14-33 | title, description and canonical come from the first matching tag: appending anything after it leaves each unchanged |
| SeoAnalysis.UnconsultedElementIgnored | app.py:9-40 | an element none of the five lookups selects has no effect on the analysis |
| SeoAnalysis.WhitespaceDescriptionIsEmpty | app.py:20-21 | a whitespace-only description is reported as the empty string, not as missing |
| App.NormalizeUrl | app.py:49-50 | the prefixed URL always starts with `http`; an input starting with `http` is returned unchanged, any other input gets `http://` in front |
| App.NormalizeUrlIdempotent | app.py:49-50 | prefixing twice equals prefixing once |
| App.NormalizeUrlExamples | app.py:49-50 | `httpbin.org` is not prefixed, `HTTPS://…` is, `example.com` becomes `http://example.com`, the empty input becomes `http://` |
| App.Respond | app.py:52-60 | after the fetch, the results page appears exactly when the response has status 200 and its page can be analysed, and then holds that page's report; any other status gives "Failed to fetch the URL"; an exception gives "Error fetching URL: " and its message; a status-200 page whose analysis fails is a server error carrying that failure, and that is the only server error |
| App.Analyze | app.py:47-60 | a missing `url` field is the one form-level server error; otherwise the answer is the response to fetching the prefixed URL |
| App.OnlyStatus200IsAnalysed | app.py:54-55 | for a page that can be analysed, the results page appears exactly when the status is 200; 201 to 299 give the error page |
| App.AnalyzeFetchesNormalizedUrl | app.py:48-53 | the handler's outcome depends on the network only through the prefixed URL |

## Left out

- HTML tokenising and parsing (`BeautifulSoup(html, "html.parser")`): the document is given as its element sequence; tag-name case folding and tree building are the parser's business.
- `get_text(strip=True)`: taken as the element's given `text`; only count and order of the `h1` entries are modelled.
- Filter values containing spaces, which a multi-valued attribute would match against its joined tokens: the two filters used (`description`, `canonical`) contain none.
- The network request (`requests.get` with its 10-second timeout and User-Agent header) and the exception types it raises: a `fetch` parameter stands for it, and an exception is represented by its message.
- The PageSpeed Insights call (app.py:62-77): an external service with an opaque JSON payload; the results page's `pagespeed` value is not modelled. Its API key is read from an environment variable named after the key itself, so the call is effectively never made.
- Flask routing, form access and template rendering (app.py:1-7, 42-44, 79, 81-82): the pages are modelled as the `Page` values they render.
- The `url` argument of `basic_seo_analysis`: it is never used by the function.
