/** The sitemap endpoint: a fixed list of site pages rendered into one
    Sitemaps protocol 0.9 `<urlset>` document, every entry stamped with the
    same `lastmod`. The document text is reproduced character for character;
    `ParseDocument` reads it back and is the partner of `Document`. */
module Sitemap {
  import opened Js

  /** One page: its URL, its priority (a JavaScript number) and its change
      frequency. */
  datatype Page = Page(loc: string, priority: real, changefreq: string)

  /** The site's origin; every listed URL starts with it. */
  const Site := "https://learningdestiny.in/"

  const StaticPages: seq<Page> := [
    Page(Site, 1.0, "daily"),
    Page(Site + "landing-page", 0.8, "weekly"),
    Page(Site + "courses", 0.8, "weekly"),
    Page(Site + "about-us", 0.8, "monthly"),
    Page(Site + "events", 0.8, "weekly"),
    Page(Site + "workshops", 0.8, "weekly"),
    Page(Site + "inten", 0.8, "weekly"),
    Page(Site + "sign-in", 0.8, "monthly"),
    Page(Site + "login", 0.8, "monthly"),
    Page(Site + "terms", 0.8, "monthly"),
    Page(Site + "privacy-policy", 0.8, "monthly"),
    Page(Site + "shipping-policy", 0.8, "monthly"),
    Page(Site + "cancellation-policy", 0.8, "monthly")
  ]

  /** The priorities the list uses; only these are rendered. */
  predicate KnownPriority(p: real)
  {
    p == 1.0 || p == 0.8
  }

  /** JavaScript prints the number 1.0 as "1" and 0.8 as "0.8". */
  function RenderPriority(p: real): (s: string)
    requires KnownPriority(p)
    ensures p == 1.0 ==> s == "1"
    ensures p == 0.8 ==> s == "0.8"
  {
    if p == 1.0 then "1" else "0.8"
  }

  const Header := "<?xml version=\"1.0\" encoding=\"UTF-8\"?>\n<urlset xmlns=\"http://www.sitemaps.org/schemas/sitemap/0.9\">\n"
  const Footer := "\n</urlset>"

  const UrlOpen := "\n  <url>\n    <loc>"
  const LocClose := "</loc>\n    <lastmod>"
  const LastmodClose := "</lastmod>\n    <changefreq>"
  const ChangefreqClose := "</changefreq>\n    <priority>"
  const PriorityClose := "</priority>\n  </url>"

  /** The template literal for one page. */
  function UrlBlock(p: Page, lastmod: string): string
    requires KnownPriority(p.priority)
  {
    UrlOpen + (p.loc + (LocClose + (lastmod + (LastmodClose + (p.changefreq
    + (ChangefreqClose + (RenderPriority(p.priority) + PriorityClose)))))))
  }

  predicate AllKnownPriorities(pages: seq<Page>)
  {
    forall i :: 0 <= i < |pages| ==> KnownPriority(pages[i].priority)
  }

  /** `pages.map(block).join('')`. */
  function Blocks(pages: seq<Page>, lastmod: string): string
    requires AllKnownPriorities(pages)
  {
    if pages == [] then "" else UrlBlock(pages[0], lastmod) + Blocks(pages[1..], lastmod)
  }

  /** The whole document. */
  function Document(pages: seq<Page>, lastmod: string): string
    requires AllKnownPriorities(pages)
  {
    Header + Blocks(pages, lastmod) + Footer
  }

  /** The handler's reply: status, the Content-Type it sets, and the body. */
  datatype Reply = Reply(status: int, contentType: Option<string>, body: string)

  /** The handler. `lastmod` is the formatted current time, or `None` when
      formatting threw; the clock and the date formatting are not modelled. */
  function Handler(lastmod: Option<string>): (r: Reply)
    ensures lastmod.Some? ==> r == Reply(200, Some("application/xml"), Document(StaticPages, lastmod.value))
    ensures lastmod.None? ==> r == Reply(500, None, "Error generating sitemap")
  {
    match lastmod
    case Some(stamp) => Reply(200, Some("application/xml"), Document(StaticPages, stamp))
    case None => Reply(500, None, "Error generating sitemap")
  }

  // ----- Reading a document back -----

  /** One `<url>` element as read back from a document. */
  datatype Entry = Entry(loc: string, lastmod: string, changefreq: string, priority: string)

  /** The entries a list of pages should produce, in list order, all with the
      same `lastmod`. */
  function Entries(pages: seq<Page>, lastmod: string): (es: seq<Entry>)
    requires AllKnownPriorities(pages)
    ensures |es| == |pages|
    ensures forall i :: 0 <= i < |pages| ==>
              es[i] == Entry(pages[i].loc, lastmod, pages[i].changefreq, RenderPriority(pages[i].priority))
  {
    if pages == [] then []
    else [Entry(pages[0].loc, lastmod, pages[0].changefreq, RenderPriority(pages[0].priority))]
         + Entries(pages[1..], lastmod)
  }

  function StripPrefix(lit: string, s: string): (r: Option<string>)
    ensures r.Some? ==> |r.value| == |s| - |lit|
  {
    if |lit| <= |s| && s[..|lit|] == lit then Some(s[|lit|..]) else None
  }

  predicate NoAngle(s: string)
  {
    '<' !in s
  }

  /** Character data up to the next `<`, and what follows. */
  function ReadText(s: string): (r: (string, string))
    ensures r.0 + r.1 == s
    ensures NoAngle(r.0)
    ensures r.1 == "" || r.1[0] == '<'
  {
    if s == "" || s[0] == '<' then ("", s)
    else
      var (text, rest) := ReadText(s[1..]);
      ([s[0]] + text, rest)
  }

  function ParseBlock(s: string): (r: Option<(Entry, string)>)
    ensures r.Some? ==> |r.value.1| < |s|
  {
    match StripPrefix(UrlOpen, s)
    case None => None
    case Some(s1) =>
      var (loc, s2) := ReadText(s1);
      match StripPrefix(LocClose, s2)
      case None => None
      case Some(s3) =>
        var (lastmod, s4) := ReadText(s3);
        match StripPrefix(LastmodClose, s4)
        case None => None
        case Some(s5) =>
          var (changefreq, s6) := ReadText(s5);
          match StripPrefix(ChangefreqClose, s6)
          case None => None
          case Some(s7) =>
            var (priority, s8) := ReadText(s7);
            match StripPrefix(PriorityClose, s8)
            case None => None
            case Some(s9) => Some((Entry(loc, lastmod, changefreq, priority), s9))
  }

  function ParseBlocks(s: string): Option<seq<Entry>>
    decreases |s|
  {
    if s == "" then Some([])
    else
      match ParseBlock(s)
      case None => None
      case Some((e, rest)) =>
        match ParseBlocks(rest)
        case None => None
        case Some(es) => Some([e] + es)
  }

  /** The `<url>` entries of a document, or `None` if it is not of this shape. */
  function ParseDocument(doc: string): Option<seq<Entry>>
  {
    match StripPrefix(Header, doc)
    case None => None
    case Some(b) =>
      if |b| >= |Footer| && b[|b| - |Footer|..] == Footer then ParseBlocks(b[..|b| - |Footer|])
      else None
  }

  lemma AppendAssoc(a: string, b: string, c: string)
    ensures (a + b) + c == a + (b + c)
  {
  }

  lemma StripPrefixOf(lit: string, rest: string)
    ensures StripPrefix(lit, lit + rest) == Some(rest)
  {
    assert (lit + rest)[..|lit|] == lit;
    assert (lit + rest)[|lit|..] == rest;
  }

  lemma {:induction false} ReadTextOf(text: string, rest: string)
    requires NoAngle(text) && rest != "" && rest[0] == '<'
    ensures ReadText(text + rest) == (text, rest)
  {
    if text == "" {
      assert text + rest == rest;
    } else {
      assert text[0] in text;
      assert (text + rest)[1..] == text[1..] + rest;
      ReadTextOf(text[1..], rest);
      assert [text[0]] + text[1..] == text;
    }
  }

  /** Page fields the reader can recover: no `<` inside them. */
  predicate Readable(p: Page, lastmod: string)
  {
    KnownPriority(p.priority) && NoAngle(p.loc) && NoAngle(p.changefreq) && NoAngle(lastmod)
  }

  lemma ParseBlockOf(p: Page, lastmod: string, rest: string)
    requires Readable(p, lastmod)
    ensures ParseBlock(UrlBlock(p, lastmod) + rest)
            == Some((Entry(p.loc, lastmod, p.changefreq, RenderPriority(p.priority)), rest))
  {
    var pr := RenderPriority(p.priority);
    assert NoAngle(pr);
    var t9 := PriorityClose + rest;
    var t8 := pr + t9;
    AppendAssoc(pr, PriorityClose, rest);
    var t7 := ChangefreqClose + t8;
    AppendAssoc(ChangefreqClose, pr + PriorityClose, rest);
    var t6 := p.changefreq + t7;
    AppendAssoc(p.changefreq, ChangefreqClose + (pr + PriorityClose), rest);
    var t5 := LastmodClose + t6;
    AppendAssoc(LastmodClose, p.changefreq + (ChangefreqClose + (pr + PriorityClose)), rest);
    var t4 := lastmod + t5;
    AppendAssoc(lastmod, LastmodClose + (p.changefreq + (ChangefreqClose + (pr + PriorityClose))), rest);
    var t3 := LocClose + t4;
    AppendAssoc(LocClose, lastmod + (LastmodClose + (p.changefreq + (ChangefreqClose + (pr + PriorityClose)))), rest);
    var t2 := p.loc + t3;
    AppendAssoc(p.loc, LocClose + (lastmod + (LastmodClose + (p.changefreq + (ChangefreqClose + (pr + PriorityClose))))), rest);
    AppendAssoc(UrlOpen, p.loc + (LocClose + (lastmod + (LastmodClose + (p.changefreq + (ChangefreqClose + (pr + PriorityClose)))))), rest);
    assert UrlBlock(p, lastmod) + rest == UrlOpen + t2;
    StripPrefixOf(UrlOpen, t2);
    ReadTextOf(p.loc, t3);
    StripPrefixOf(LocClose, t4);
    ReadTextOf(lastmod, t5);
    StripPrefixOf(LastmodClose, t6);
    ReadTextOf(p.changefreq, t7);
    StripPrefixOf(ChangefreqClose, t8);
    ReadTextOf(pr, t9);
    StripPrefixOf(PriorityClose, rest);
  }

  predicate AllReadable(pages: seq<Page>, lastmod: string)
  {
    forall i :: 0 <= i < |pages| ==> Readable(pages[i], lastmod)
  }

  lemma {:induction false} ParseBlocksOf(pages: seq<Page>, lastmod: string)
    requires AllReadable(pages, lastmod)
    ensures ParseBlocks(Blocks(pages, lastmod)) == Some(Entries(pages, lastmod))
  {
    if pages != [] {
      var tail := pages[1..];
      assert AllReadable(tail, lastmod) by {
        forall i | 0 <= i < |tail| ensures Readable(tail[i], lastmod) {
          assert tail[i] == pages[i + 1];
        }
      }
      var rest := Blocks(tail, lastmod);
      var block := UrlBlock(pages[0], lastmod);
      assert Blocks(pages, lastmod) == block + rest;
      ParseBlockOf(pages[0], lastmod, rest);
      ParseBlocksOf(tail, lastmod);
      assert block != "";
      assert Entries(pages, lastmod)
             == [Entry(pages[0].loc, lastmod, pages[0].changefreq, RenderPriority(pages[0].priority))]
                + Entries(tail, lastmod);
    }
  }

  /** Reading the document back yields exactly one entry per page, in list
      order, each with that page's `loc`, `changefreq` and rendered priority
      and the one shared `lastmod`. */
  lemma RoundTrip(pages: seq<Page>, lastmod: string)
    requires AllReadable(pages, lastmod)
    ensures ParseDocument(Document(pages, lastmod)) == Some(Entries(pages, lastmod))
  {
    var blocks := Blocks(pages, lastmod);
    assert Document(pages, lastmod) == Header + (blocks + Footer);
    StripPrefixOf(Header, blocks + Footer);
    var b := blocks + Footer;
    assert b[|b| - |Footer|..] == Footer;
    assert b[..|b| - |Footer|] == blocks;
    ParseBlocksOf(pages, lastmod);
  }

  /** The shape `yyyy-MM-dd'T'HH:mm:ssXXX` produces (W3C Datetime with
      seconds and a `Z` or `±hh:mm` offset), as the Sitemaps protocol asks. */
  predicate IsW3cDateTime(s: string)
  {
    && (|s| == 20 || |s| == 25)
    && (forall i :: i in {0, 1, 2, 3, 5, 6, 8, 9, 11, 12, 14, 15, 17, 18} ==> '0' <= s[i] <= '9')
    && s[4] == '-' && s[7] == '-' && s[10] == 'T' && s[13] == ':' && s[16] == ':'
    && (if |s| == 20 then s[19] == 'Z'
        else (s[19] == '+' || s[19] == '-') && '0' <= s[20] <= '9' && '0' <= s[21] <= '9'
             && s[22] == ':' && '0' <= s[23] <= '9' && '0' <= s[24] <= '9')
  }

  lemma W3cDateTimeHasNoAngle(s: string)
    requires IsW3cDateTime(s)
    ensures NoAngle(s)
  {
    forall i | 0 <= i < |s| ensures s[i] != '<' {
      if i in {0, 1, 2, 3, 5, 6, 8, 9, 11, 12, 14, 15, 17, 18} {
        assert '0' <= s[i] <= '9';
      }
    }
  }

  lemma StaticPagesReadable(lastmod: string)
    requires NoAngle(lastmod)
    ensures AllReadable(StaticPages, lastmod)
  {
    forall i | 0 <= i < |StaticPages| ensures Readable(StaticPages[i], lastmod) {
      PageReadable(i);
    }
  }

  /** Each listed page's URL and change frequency hold no `<`. */
  lemma PageReadable(i: nat)
    requires i < |StaticPages|
    ensures NoAngle(StaticPages[i].loc) && NoAngle(StaticPages[i].changefreq)
  {
    assert StaticPages[i].changefreq in {"daily", "weekly", "monthly"};
    if i == 0 {
      LocReadable0();
    } else if i == 1 {
      LocReadable1();
    } else if i == 2 {
      LocReadable2();
    } else if i == 3 {
      LocReadable3();
    } else if i == 4 {
      LocReadable4();
    } else if i == 5 {
      LocReadable5();
    } else if i == 6 {
      LocReadable6();
    } else if i == 7 {
      LocReadable7();
    } else if i == 8 {
      LocReadable8();
    } else if i == 9 {
      LocReadable9();
    } else if i == 10 {
      LocReadable10();
    } else if i == 11 {
      LocReadable11();
    } else if i == 12 {
      LocReadable12();
    }
  }

  /** The site's base URL holds no `<`, and neither does any page URL
      built from it with a path that holds none. */
  lemma SiteReadable()
    ensures NoAngle(Site)
  {
  }

  lemma NoAngleAfterSite(path: string)
    requires NoAngle(path)
    ensures NoAngle(Site + path)
  {
    SiteReadable();
  }

  // The URL of the page at each index of the list holds no `<`.
  lemma LocReadable0() ensures NoAngle(StaticPages[0].loc) { SiteReadable(); }
  lemma LocReadable1() ensures NoAngle(StaticPages[1].loc) { NoAngleAfterSite("landing-page"); }
  lemma LocReadable2() ensures NoAngle(StaticPages[2].loc) { NoAngleAfterSite("courses"); }
  lemma LocReadable3() ensures NoAngle(StaticPages[3].loc) { NoAngleAfterSite("about-us"); }
  lemma LocReadable4() ensures NoAngle(StaticPages[4].loc) { NoAngleAfterSite("events"); }
  lemma LocReadable5() ensures NoAngle(StaticPages[5].loc) { NoAngleAfterSite("workshops"); }
  lemma LocReadable6() ensures NoAngle(StaticPages[6].loc) { NoAngleAfterSite("inten"); }
  lemma LocReadable7() ensures NoAngle(StaticPages[7].loc) { NoAngleAfterSite("sign-in"); }
  lemma LocReadable8() ensures NoAngle(StaticPages[8].loc) { NoAngleAfterSite("login"); }
  lemma LocReadable9() ensures NoAngle(StaticPages[9].loc) { NoAngleAfterSite("terms"); }
  lemma LocReadable10() ensures NoAngle(StaticPages[10].loc) { NoAngleAfterSite("privacy-policy"); }
  lemma LocReadable11() ensures NoAngle(StaticPages[11].loc) { NoAngleAfterSite("shipping-policy"); }
  lemma LocReadable12() ensures NoAngle(StaticPages[12].loc) { NoAngleAfterSite("cancellation-policy"); }

  /** The served document: the XML declaration and the sitemaps.org
      `<urlset>` first, `</urlset>` last, and in between exactly thirteen
      entries, one per listed page in list order, all stamped with the
      same `lastmod`. */
  lemma ServedDocument(lastmod: string)
    requires IsW3cDateTime(lastmod)
    ensures var doc := Handler(Some(lastmod)).body;
            && doc[..|Header|] == Header
            && doc[|doc| - |Footer|..] == Footer
            && ParseDocument(doc) == Some(Entries(StaticPages, lastmod))
            && |Entries(StaticPages, lastmod)| == 13
            && (forall i :: 0 <= i < 13 ==>
                  Entries(StaticPages, lastmod)[i].loc == StaticPages[i].loc
                  && Entries(StaticPages, lastmod)[i].lastmod == lastmod)
  {
    W3cDateTimeHasNoAngle(lastmod);
    StaticPagesReadable(lastmod);
    DocumentFraming(StaticPages, lastmod);
    RoundTrip(StaticPages, lastmod);
  }

  /** Every document starts with the header and ends with the footer. */
  lemma DocumentFraming(pages: seq<Page>, lastmod: string)
    requires AllKnownPriorities(pages)
    ensures var doc := Document(pages, lastmod);
            && |doc| >= |Header| + |Footer|
            && doc[..|Header|] == Header
            && doc[|doc| - |Footer|..] == Footer
  {
    var blocks := Blocks(pages, lastmod);
    var doc := Document(pages, lastmod);
    assert doc == Header + (blocks + Footer);
    assert doc == (Header + blocks) + Footer;
  }
}
