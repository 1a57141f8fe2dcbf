/** The workshop list page's helpers: the amount handed to checkout for a
    workshop's price text, the "popular" slice of the list, and the
    normalised search query from the URL. */
module WorkshopPage {
  import opened Js
  import PriceText

  /** What `price(p)` returns: the number 1 for "Free", otherwise
      `parseFloat` of the stripped text (parsing is not modelled). */
  datatype Amount = One | ParseFloatOf(text: string)

  /** `price(p)` for a string price. */
  function Price(p: string): (a: Amount)
    ensures a == One <==> p == "Free"
    ensures a.ParseFloatOf? ==> a.text == PriceText.StripNonNumeric(p)
  {
    if p == "Free" then One
    else
      PriceText.CommaReplaceIsNoOp(p);
      ParseFloatOf(PriceText.PriceText(p))
  }

  /** "1,999 Rs" is charged as `parseFloat("1999")`, and "Free" as 1. */
  lemma PriceExamples()
    ensures Price("1,999 Rs") == ParseFloatOf("1999")
    ensures Price("Free") == One
  {
    PriceText.Example("1,999 Rs");
  }

  /** `workshops.slice(0, 2)`: the first two workshops, or all of them when
      there are fewer. */
  function Popular<T>(workshops: seq<T>): (r: seq<T>)
    ensures |r| == if |workshops| < 2 then |workshops| else 2
    ensures forall i :: 0 <= i < |r| ==> r[i] == workshops[i]
  {
    if |workshops| < 2 then workshops else workshops[..2]
  }

  /** Lower-casing of one character. Only A-Z are mapped; other scripts'
      case mappings are not modelled. */
  function ToLowerChar(c: char): (d: char)
    ensures !('A' <= d <= 'Z')
    ensures !('A' <= c <= 'Z') ==> d == c
  {
    if 'A' <= c <= 'Z' then (c as int - 'A' as int + 'a' as int) as char else c
  }

  function ToLower(s: string): (r: string)
    ensures |r| == |s|
    ensures forall i :: 0 <= i < |s| ==> r[i] == ToLowerChar(s[i])
  {
    if s == "" then "" else [ToLowerChar(s[0])] + ToLower(s[1..])
  }

  /** `searchParams.get("search")?.toLowerCase() || ""`: an absent
      parameter (`null`) gives "". */
  function SearchQuery(search: Option<string>): (q: string)
    ensures search.None? ==> q == ""
    ensures search.Some? ==> q == ToLower(search.value)
    ensures forall i :: 0 <= i < |q| ==> !('A' <= q[i] <= 'Z')
  {
    match search
    case None => ""
    case Some(s) => ToLower(s)
  }

  /** Normalising an already normalised query changes nothing. */
  lemma SearchQueryIdempotent(search: Option<string>)
    ensures SearchQuery(Some(SearchQuery(search))) == SearchQuery(search)
  {
    var q := SearchQuery(search);
    assert ToLower(q) == q;
  }

  /** Two queries that differ only in the case of A-Z normalise alike. */
  lemma SearchQueryIgnoresCase(a: string, b: string)
    requires |a| == |b|
    requires forall i :: 0 <= i < |a| ==> ToLowerChar(a[i]) == ToLowerChar(b[i])
    ensures SearchQuery(Some(a)) == SearchQuery(Some(b))
  {
  }
}
