/** The SEO and performance handler: the five-check SEO score and its
    letter grade, the XML sitemap (Sitemaps protocol 0.9), content
    suggestions, the media performance audit, per-section meta tags with
    their fallback chains, robots.txt, and the action routing. Every query
    result is `None` when the store reported an error (the handler then reads
    it as an empty result). A `TypeError` raised by a string method on a
    non-string value becomes `Err` (the handler's HTTP 500). */
module SeoPerformance {
  import opened Values
  import opened Tables

  const SiteUrl := "https://space-corporate-landing.com"
  const DefaultTitle := "SPACE - Organizing Exhibitions & Conferences"
  const DefaultDescription := "Premier event management company specializing in exhibitions and conferences."
  const DefaultKeywords := "events, exhibitions, conferences, event management, Dubai, UAE"
  const DefaultOgImage := "/images/hero_background_20260101_120022.png"
  const TypeError := "TypeError"

  /** Some section's content satisfies `bad`. */
  predicate AnyContent(rows: seq<Section>, bad: Content -> bool)
  {
    rows != [] && (AnyContent(rows[..|rows| - 1], bad) || bad(rows[|rows| - 1].content))
  }

  /** A section found in a prefix is found in the whole sequence. */
  lemma {:induction false} AnyContentPrefix(rows: seq<Section>, n: nat, bad: Content -> bool)
    requires n <= |rows|
    ensures AnyContent(rows[..n], bad) ==> AnyContent(rows, bad)
    decreases |rows|
  {
    if n < |rows| {
      assert rows[..|rows| - 1][..n] == rows[..n];
      AnyContentPrefix(rows[..|rows| - 1], n, bad);
    } else {
      assert rows[..n] == rows;
    }
  }

  lemma AnyContentSnoc(rows: seq<Section>, i: nat, bad: Content -> bool)
    requires i < |rows|
    ensures AnyContent(rows[..i + 1], bad) <==> AnyContent(rows[..i], bad) || bad(rows[i].content)
  {
    assert rows[..i + 1][..i] == rows[..i];
  }

  /** `AnyContent` is "some section's content is bad". */
  lemma {:induction false} AnyContentIff(rows: seq<Section>, bad: Content -> bool)
    ensures AnyContent(rows, bad) <==> exists k :: 0 <= k < |rows| && bad(rows[k].content)
    decreases |rows|
  {
    if rows != [] {
      var init := rows[..|rows| - 1];
      AnyContentIff(init, bad);
      if exists k :: 0 <= k < |rows| && bad(rows[k].content) {
        var k :| 0 <= k < |rows| && bad(rows[k].content);
        if k < |init| {
          assert init[k] == rows[k];
        }
      }
    }
  }

  /** The rows a published-sections query hands to the handler. */
  function PublishedRows(query: Option<seq<Section>>): seq<Section>
  {
    if query.Some? then Published(query.value) else []
  }

  // ---------------------------------------------------------------------
  // seo_score

  /** Title check: present, non-empty and at most 60 long. */
  predicate TitleOk(c: Content)
  {
    var t := Prop(c, "title");
    Truthy(t) && Length(t).Some? && 0 < Length(t).value <= 60
  }

  /** Meta-description check: between 120 and 160 long, inclusive. */
  predicate MetaDescriptionOk(c: Content)
  {
    var m := Prop(c, "meta_description");
    Truthy(m) && Length(m).Some? && 120 <= Length(m).value <= 160
  }

  /** Content-length check: a description at least 100 long. */
  predicate DescriptionOk(c: Content)
  {
    var d := Prop(c, "description");
    Truthy(d) && Length(d).Some? && Length(d).value >= 100
  }

  /** Alt-text check: no hero image, or an alt text for it. */
  predicate AltOk(c: Content)
  {
    !Truthy(Prop(c, "hero_image")) || Truthy(Prop(c, "hero_image_alt"))
  }

  /** `title.toLowerCase().includes(word)` on a string title. */
  predicate TitleMentions(c: Content, word: string)
  {
    var t := Prop(c, "title");
    Truthy(t) && t.value.Str? && Contains(Lower(t.value.s), word)
  }

  /** Keyword check: keywords present, or a title mentioning "event". */
  predicate KeywordsOk(c: Content)
  {
    Truthy(Prop(c, "keywords")) || TitleMentions(c, "event")
  }

  /** The keyword check calls `toLowerCase` on a truthy title that is not a
      string when there are no keywords, and that throws. */
  predicate ScoreThrows(c: Content)
  {
    !Truthy(Prop(c, "keywords")) && Truthy(Prop(c, "title")) && !IsString(Prop(c, "title"))
  }

  /** Points earned by one section: 10, 15, 10, 10 and 5 for the title,
      meta-description, content-length, alt-text and keyword checks. */
  function SectionScore(s: Section): nat
  {
    var c := s.content;
    (if TitleOk(c) then 10 else 0) + (if MetaDescriptionOk(c) then 15 else 0) +
    (if DescriptionOk(c) then 10 else 0) + (if AltOk(c) then 10 else 0) + (if KeywordsOk(c) then 5 else 0)
  }

  /** Issues pushed for one section, in the handler's order. */
  function SectionIssues(s: Section): seq<string>
  {
    var c := s.content;
    (if TitleOk(c) then [] else [s.name + ": Title missing or too long"]) +
    (if MetaDescriptionOk(c) then [] else [s.name + ": Meta description missing or wrong length"]) +
    (if DescriptionOk(c) then [] else [s.name + ": Content too short"]) +
    (if AltOk(c) then [] else [s.name + ": Image missing alt text"]) +
    (if KeywordsOk(c) then [] else [s.name + ": Missing target keywords"])
  }

  /** The points a section misses: the weights of the checks it fails. */
  function MissedPoints(s: Section): nat
  {
    var c := s.content;
    (if TitleOk(c) then 0 else 10) + (if MetaDescriptionOk(c) then 0 else 15) +
    (if DescriptionOk(c) then 0 else 10) + (if AltOk(c) then 0 else 10) + (if KeywordsOk(c) then 0 else 5)
  }

  /** The number of checks a section fails. */
  function FailedChecks(s: Section): nat
  {
    var c := s.content;
    (if TitleOk(c) then 0 else 1) + (if MetaDescriptionOk(c) then 0 else 1) +
    (if DescriptionOk(c) then 0 else 1) + (if AltOk(c) then 0 else 1) + (if KeywordsOk(c) then 0 else 1)
  }

  /** Each section is worth 50 points; every check either earns its points
      or reports exactly one issue. */
  lemma SectionScoreBounds(s: Section)
    ensures SectionScore(s) + MissedPoints(s) == 50
    ensures |SectionIssues(s)| == FailedChecks(s)
    ensures SectionScore(s) == 50 <==> SectionIssues(s) == []
  {
  }
  /** Total points earned by the first sections. */
  function TotalScore(rows: seq<Section>): nat
  {
    if rows == [] then 0 else TotalScore(rows[..|rows| - 1]) + SectionScore(rows[|rows| - 1])
  }

  /** All issues of the sections, section by section. */
  function TotalIssues(rows: seq<Section>): seq<string>
  {
    if rows == [] then [] else TotalIssues(rows[..|rows| - 1]) + SectionIssues(rows[|rows| - 1])
  }

  /** The score never exceeds the maximum of 50 per section. */
  lemma {:induction false} TotalScoreBounds(rows: seq<Section>)
    ensures TotalScore(rows) <= 50 * |rows|
    ensures TotalScore(rows) == 50 * |rows| <==> TotalIssues(rows) == []
  {
    if rows != [] {
      TotalScoreBounds(rows[..|rows| - 1]);
      SectionScoreBounds(rows[|rows| - 1]);
    }
  }

  /** `Math.round(score / maxScore * 100)` when `maxScore > 0`, else 0: the
      integer nearest to the percentage, halves rounded up. */
  function Percent(score: int, maxScore: int): (p: int)
    ensures maxScore <= 0 ==> p == 0
    ensures maxScore > 0 ==> -maxScore <= 200 * score - 2 * maxScore * p < maxScore
    ensures 0 <= score <= maxScore ==> 0 <= p <= 100
    ensures 0 < maxScore == score ==> p == 100
  {
    if maxScore <= 0 then 0
    else
      var p := (200 * score + maxScore) / (2 * maxScore);
      PercentBounds(score, maxScore, p);
      p
  }

  lemma PercentBounds(score: int, maxScore: int, p: int)
    requires maxScore > 0 && p == (200 * score + maxScore) / (2 * maxScore)
    ensures -maxScore <= 200 * score - 2 * maxScore * p < maxScore
    ensures 0 <= score <= maxScore ==> 0 <= p <= 100
    ensures score == maxScore ==> p == 100
  {
    var n, d := 200 * score + maxScore, 2 * maxScore;
    var r := n % d;
    assert n == d * p + r && 0 <= r < d;
    assert d * p == 2 * (maxScore * p);
    if 0 <= score <= maxScore {
      if p > 100 {
        MulMonotone(d, 101, p);
      }
      if p < 0 {
        MulMonotone(d, p, -1);
      }
      if score == maxScore && p < 100 {
        MulMonotone(d, p, 99);
      }
    }
  }

  lemma MulMonotone(a: int, b: int, c: int)
    requires a > 0 && b <= c
    ensures a * b <= a * c
  {
  }

  datatype Grade = A | B | C | D | F

  /** The letter grade of a percentage. */
  function GradeOf(p: int): Grade
  {
    if p >= 90 then A else if p >= 80 then B else if p >= 70 then C else if p >= 60 then D else F
  }

  function GradeRank(g: Grade): nat
  {
    match g
    case A => 4
    case B => 3
    case C => 2
    case D => 1
    case F => 0
  }

  /** A higher percentage never gets a worse grade. */
  lemma GradeMonotone(p: int, q: int)
    requires p <= q
    ensures GradeRank(GradeOf(p)) <= GradeRank(GradeOf(q))
  {
  }

  datatype ScoreReport = ScoreReport(seoScore: int, current: nat, maximum: nat, issues: seq<string>, grade: Grade)

  /** True when some section makes the keyword check throw. */
  predicate AnyScoreThrows(rows: seq<Section>)
  {
    AnyContent(rows, ScoreThrows)
  }

  lemma ScoreStep(rows: seq<Section>, i: nat)
    requires i < |rows|
    ensures TotalScore(rows[..i + 1]) == TotalScore(rows[..i]) + SectionScore(rows[i])
    ensures TotalIssues(rows[..i + 1]) == TotalIssues(rows[..i]) + SectionIssues(rows[i])
  {
    assert rows[..i + 1][..i] == rows[..i];
  }

  /** `seo_score`: five checks per published section, accumulated in order. */
  method SeoScore(query: Option<seq<Section>>) returns (r: Result<ScoreReport, string>)
    ensures var rows := PublishedRows(query);
      && (r.Err? <==> AnyScoreThrows(rows))
      && (r.Ok? ==>
            && r.value.current == TotalScore(rows)
            && r.value.maximum == 50 * |rows|
            && r.value.issues == TotalIssues(rows)
            && r.value.seoScore == Percent(TotalScore(rows), 50 * |rows|)
            && r.value.grade == GradeOf(r.value.seoScore))
  {
    var rows := PublishedRows(query);
    var score, maxScore, issues := 0, 0, [];
    var i := 0;
    while i < |rows|
      invariant 0 <= i <= |rows|
      invariant score == TotalScore(rows[..i]) && maxScore == 50 * i
      invariant issues == TotalIssues(rows[..i])
      invariant !AnyScoreThrows(rows[..i])
    {
      // The five checks of one section; the keyword check, last of them,
      // is the one that can throw.
      var s := rows[i];
      AnyContentSnoc(rows, i, ScoreThrows);
      if ScoreThrows(s.content) {
        AnyContentPrefix(rows, i + 1, ScoreThrows);
        return Err(TypeError);
      }
      ScoreStep(rows, i);
      score, maxScore := score + SectionScore(s), maxScore + 50;
      issues := issues + SectionIssues(s);
      i := i + 1;
    }
    assert rows[..i] == rows;
    var percent := Percent(score, maxScore);
    r := Ok(ScoreReport(percent, score, maxScore, issues, GradeOf(percent)));
  }

  /** The reported score is a percentage: 0 without sections, 100 (grade A)
      when every check of every section passes. */
  lemma ScoreReportBounds(rows: seq<Section>)
    ensures 0 <= Percent(TotalScore(rows), 50 * |rows|) <= 100
    ensures rows == [] ==> Percent(TotalScore(rows), 50 * |rows|) == 0
    ensures rows != [] && TotalIssues(rows) == [] ==>
      Percent(TotalScore(rows), 50 * |rows|) == 100 && GradeOf(Percent(TotalScore(rows), 50 * |rows|)) == A
  {
    var total, maximum := TotalScore(rows), 50 * |rows|;
    TotalScoreBounds(rows);
    assert 0 <= total <= maximum;
  }

  // ---------------------------------------------------------------------
  // generate_sitemap

  datatype UrlEntry = UrlEntry(loc: string, lastmod: string, changefreq: string, priority: string)

  /** A section appears in the sitemap when it is published and not `home`. */
  predicate Listed(s: Section)
  {
    s.isPublished && s.key != "home"
  }

  /** The entries for the sections, in table order; `day` renders an update
      time as its ISO date (`toISOString().split('T')[0]`). */
  function SectionUrls(rows: seq<Section>, day: int -> string): seq<UrlEntry>
  {
    if rows == [] then []
    else SectionUrls(rows[..|rows| - 1], day) +
         (var s := rows[|rows| - 1];
          if Listed(s) then [SectionUrl(s, day)] else [])
  }

  /** The entry of one section: its anchor on the site, monthly, priority 0.8. */
  function SectionUrl(s: Section, day: int -> string): (e: UrlEntry)
    ensures e.loc == SiteUrl + "/#" + s.key && e.lastmod == day(s.updatedAt)
  {
    UrlEntry(SiteUrl + "/#" + s.key, day(s.updatedAt), "monthly", "0.8")
  }

  /** Sitemap entries are produced section by section: the entries of two
      consecutive runs of rows are those of the first then those of the second. */
  lemma {:induction false} SectionUrlsAppend(a: seq<Section>, b: seq<Section>, day: int -> string)
    ensures SectionUrls(a + b, day) == SectionUrls(a, day) + SectionUrls(b, day)
    decreases |b|
  {
    if b != [] {
      var b' := b[..|b| - 1];
      assert (a + b)[..|a + b| - 1] == a + b';
      assert (a + b)[|a + b| - 1] == b[|b| - 1];
      SectionUrlsAppend(a, b', day);
    } else {
      assert a + b == a;
    }
  }

  /** The number of listed sections. */
  function ListedCount(rows: seq<Section>): nat
  {
    if rows == [] then 0 else (if Listed(rows[0]) then 1 else 0) + ListedCount(rows[1..])
  }

  /** One entry per listed section, each pointing at that section's anchor,
      and no entry for any other section. */
  lemma {:induction false} SectionUrlsCover(rows: seq<Section>, day: int -> string)
    ensures |SectionUrls(rows, day)| == ListedCount(rows)
    ensures forall s :: s in rows && Listed(s) ==>
      SectionUrl(s, day) in SectionUrls(rows, day)
    ensures forall e :: e in SectionUrls(rows, day) ==>
      exists s :: s in rows && Listed(s) && e == SectionUrl(s, day)
    decreases |rows|
  {
    if rows != [] {
      var head, tail := rows[..1], rows[1..];
      assert rows == head + tail;
      SectionUrlsAppend(head, tail, day);
      SectionUrlsCover(tail, day);
      assert head[..0] == [];
      forall s | s in rows && Listed(s)
        ensures SectionUrl(s, day) in SectionUrls(rows, day)
      {
        if s !in tail {
          assert s == rows[0];
        }
      }
    }
  }

  /** All entries of the sitemap: the site root first, then the sections. */
  function SitemapUrls(rows: seq<Section>, today: string, day: int -> string): (r: seq<UrlEntry>)
    ensures |r| >= 1 && r[0] == UrlEntry(SiteUrl, today, "weekly", "1.0")
  {
    [UrlEntry(SiteUrl, today, "weekly", "1.0")] + SectionUrls(rows, day)
  }

  const XmlHead := "<?xml version=\"1.0\" encoding=\"UTF-8\"?>\n<urlset xmlns=\"http://www.sitemaps.org/schemas/sitemap/0.9\">"
  const XmlTail := "\n</urlset>"

  /** One `<url>` element, on its own indented lines. */
  function UrlXml(e: UrlEntry): string
  {
    "\n  <url>\n    <loc>" + e.loc + "</loc>\n    <lastmod>" + e.lastmod + "</lastmod>\n    <changefreq>"
    + e.changefreq + "</changefreq>\n    <priority>" + e.priority + "</priority>\n  </url>"
  }

  function UrlsXml(es: seq<UrlEntry>): string
  {
    if es == [] then "" else UrlsXml(es[..|es| - 1]) + UrlXml(es[|es| - 1])
  }

  lemma UrlsXmlSnoc(es: seq<UrlEntry>, e: UrlEntry)
    ensures UrlsXml(es + [e]) == UrlsXml(es) + UrlXml(e)
  {
    assert (es + [e])[..|es|] == es;
  }

  /** The `<url>` elements the loop appends for the sections, skipping `home`. */
  function SectionsXml(rows: seq<Section>, day: int -> string): string
  {
    if rows == [] then ""
    else
      var s := rows[|rows| - 1];
      SectionsXml(rows[..|rows| - 1], day) + (if s.key != "home" then UrlXml(SectionUrl(s, day)) else "")
  }

  lemma SectionsXmlStep(rows: seq<Section>, i: nat, day: int -> string)
    requires i < |rows|
    ensures SectionsXml(rows[..i + 1], day) ==
      SectionsXml(rows[..i], day) + (if rows[i].key != "home" then UrlXml(SectionUrl(rows[i], day)) else "")
  {
    assert rows[..i + 1][..i] == rows[..i];
  }

  /** Over published rows, the appended elements are those of the section entries. */
  lemma {:induction false} SectionsXmlIsUrls(rows: seq<Section>, day: int -> string)
    requires forall k :: 0 <= k < |rows| ==> rows[k].isPublished
    ensures SectionsXml(rows, day) == UrlsXml(SectionUrls(rows, day))
  {
    if rows != [] {
      var n := |rows| - 1;
      var s := rows[n];
      var init := rows[..n];
      assert forall k :: 0 <= k < n ==> init[k] == rows[k];
      SectionsXmlIsUrls(init, day);
      assert s.isPublished;
      assert SectionsXml(rows, day) == SectionsXml(init, day) + (if s.key != "home" then UrlXml(SectionUrl(s, day)) else "");
      assert SectionUrls(rows, day) == SectionUrls(init, day) + (if Listed(s) then [SectionUrl(s, day)] else []);
      if Listed(s) {
        UrlsXmlSnoc(SectionUrls(init, day), SectionUrl(s, day));
      } else {
        assert SectionUrls(init, day) + [] == SectionUrls(init, day);
        assert SectionsXml(init, day) + "" == SectionsXml(init, day);
      }
    }
  }

  lemma {:induction false} UrlsXmlCons(e: UrlEntry, es: seq<UrlEntry>)
    ensures UrlsXml([e] + es) == UrlXml(e) + UrlsXml(es)
    decreases |es|
  {
    if es == [] {
      assert [e] + es == [e];
      assert [e][..0] == [];
      assert UrlXml(e) + "" == UrlXml(e);
    } else {
      var init := es[..|es| - 1];
      assert ([e] + es)[..|es|] == [e] + init;
      UrlsXmlCons(e, init);
      ConcatAssoc(UrlXml(e), UrlsXml(init), UrlXml(es[|es| - 1]));
    }
  }

  /** One turn of the sitemap loop: a `<url>` element for a section other
      than `home`, nothing for `home`. */
  method AppendSection(xml: string, ghost head: string, rows: seq<Section>, i: nat, day: int -> string)
    returns (next: string)
    requires i < |rows|
    requires xml == head + SectionsXml(rows[..i], day)
    ensures next == head + SectionsXml(rows[..i + 1], day)
  {
    var s := rows[i];
    SectionsXmlStep(rows, i, day);
    if s.key != "home" {
      var e := UrlEntry(SiteUrl + "/#" + s.key, day(s.updatedAt), "monthly", "0.8");
      assert e == SectionUrl(s, day);
      ConcatAssoc(head, SectionsXml(rows[..i], day), UrlXml(e));
      next := xml + UrlXml(e);
    } else {
      assert SectionsXml(rows[..i], day) + "" == SectionsXml(rows[..i], day);
      next := xml;
    }
  }

  /** `generate_sitemap`: the document the handler builds with `+=`. */
  method GenerateSitemap(query: Option<seq<Section>>, today: string, day: int -> string) returns (xml: string)
    ensures xml == XmlHead + UrlsXml(SitemapUrls(PublishedRows(query), today, day)) + XmlTail
  {
    var rows := PublishedRows(query);
    var root := UrlEntry(SiteUrl, today, "weekly", "1.0");
    xml := XmlHead + UrlXml(root);
    ghost var head := xml;
    assert xml == head + SectionsXml(rows[..0], day);
    var i := 0;
    while i < |rows|
      invariant 0 <= i <= |rows|
      invariant xml == head + SectionsXml(rows[..i], day)
    {
      xml := AppendSection(xml, head, rows, i, day);
      i := i + 1;
    }
    assert rows[..i] == rows;
    xml := xml + XmlTail;
    SitemapXmlIsUrls(rows, root, day);
  }

  /** The document body is the elements of all sitemap entries. */
  lemma SitemapXmlIsUrls(rows: seq<Section>, root: UrlEntry, day: int -> string)
    requires forall s :: s in rows ==> s.isPublished
    ensures XmlHead + UrlXml(root) + SectionsXml(rows, day) == XmlHead + UrlsXml([root] + SectionUrls(rows, day))
  {
    assert forall k :: 0 <= k < |rows| ==> rows[k].isPublished by {
      forall k | 0 <= k < |rows| ensures rows[k].isPublished {
        assert rows[k] in rows;
      }
    }
    SectionsXmlIsUrls(rows, day);
    UrlsXmlCons(root, SectionUrls(rows, day));
    ConcatAssoc(XmlHead, UrlXml(root), UrlsXml(SectionUrls(rows, day)));
  }

  /** Every published section except `home` is listed under its anchor, and
      only those, after the site root. */
  lemma SitemapListsPublishedSections(table: seq<Section>, today: string, day: int -> string)
    ensures var urls := SitemapUrls(Published(table), today, day);
      && |urls| == 1 + ListedCount(Published(table))
      && (forall s :: s in table && s.isPublished && s.key != "home" ==> SectionUrl(s, day) in urls[1..])
      && (forall e :: e in urls[1..] ==>
            exists s :: s in table && s.isPublished && s.key != "home" && e == SectionUrl(s, day))
  {
    var rows := Published(table);
    var urls := SitemapUrls(rows, today, day);
    SectionUrlsCover(rows, day);
    assert urls[1..] == SectionUrls(rows, day);
  }

  // ---------------------------------------------------------------------
  // optimize_content

  datatype Suggestion = Suggestion(section: string, kind: string, priority: string)

  /** The description is shorter than 100. */
  predicate ShortDescription(c: Content)
  {
    var d := Prop(c, "description");
    Truthy(d) && Length(d).Some? && Length(d).value < 100
  }

  /** A truthy string description not mentioning "contact". */
  predicate MissingCallToAction(c: Content)
  {
    var d := Prop(c, "description");
    Truthy(d) && d.value.Str? && !Contains(Lower(d.value.s), "contact")
  }

  /** A truthy string title not mentioning "event". */
  predicate MissingKeyword(c: Content)
  {
    var t := Prop(c, "title");
    Truthy(t) && t.value.Str? && !Contains(Lower(t.value.s), "event")
  }

  /** `toLowerCase` on a truthy title or description that is not a string throws. */
  predicate SuggestThrows(c: Content)
  {
    (Truthy(Prop(c, "title")) && !IsString(Prop(c, "title"))) ||
    (Truthy(Prop(c, "description")) && !IsString(Prop(c, "description")))
  }

  /** The suggestions for one section, in the handler's order. */
  function SectionSuggestions(s: Section): (r: seq<Suggestion>)
    ensures |r| <= 3
    ensures Suggestion(s.name, "content_length", "medium") in r <==> ShortDescription(s.content)
    ensures Suggestion(s.name, "keywords", "high") in r <==> MissingKeyword(s.content)
    ensures Suggestion(s.name, "cta", "low") in r <==> MissingCallToAction(s.content)
  {
    var c := s.content;
    (if ShortDescription(c) then [Suggestion(s.name, "content_length", "medium")] else []) +
    (if MissingKeyword(c) then [Suggestion(s.name, "keywords", "high")] else []) +
    (if MissingCallToAction(c) then [Suggestion(s.name, "cta", "low")] else [])
  }

  function AllSuggestions(rows: seq<Section>): seq<Suggestion>
  {
    if rows == [] then [] else AllSuggestions(rows[..|rows| - 1]) + SectionSuggestions(rows[|rows| - 1])
  }

  /** At most three suggestions per section. */
  lemma {:induction false} AllSuggestionsBound(rows: seq<Section>)
    ensures |AllSuggestions(rows)| <= 3 * |rows|
  {
    if rows != [] {
      AllSuggestionsBound(rows[..|rows| - 1]);
    }
  }

  datatype ContentAdvice = ContentAdvice(optimizations: seq<Suggestion>, totalSections: nat)

  /** `optimize_content`: suggestions for every published section. */
  method OptimizeContent(query: Option<seq<Section>>) returns (r: Result<ContentAdvice, string>)
    ensures var rows := PublishedRows(query);
      && (r.Err? <==> AnyContent(rows, SuggestThrows))
      && (r.Ok? ==> r.value == ContentAdvice(AllSuggestions(rows), |rows|))
  {
    var rows := PublishedRows(query);
    var optimizations := [];
    var i := 0;
    while i < |rows|
      invariant 0 <= i <= |rows|
      invariant optimizations == AllSuggestions(rows[..i])
      invariant !AnyContent(rows[..i], SuggestThrows)
    {
      // Length, keyword and call-to-action checks; the last two lower-case
      // the title and the description, and that throws on a non-string.
      var s := rows[i];
      var prefix := rows[..i + 1];
      assert prefix[..|prefix| - 1] == rows[..i] && prefix[|prefix| - 1] == s;
      assert AnyContent(prefix, SuggestThrows) <==> AnyContent(rows[..i], SuggestThrows) || SuggestThrows(s.content);
      if SuggestThrows(s.content) {
        AnyContentPrefix(rows, i + 1, SuggestThrows);
        return Err(TypeError);
      }
      assert AllSuggestions(prefix) == AllSuggestions(rows[..i]) + SectionSuggestions(s);
      optimizations := optimizations + SectionSuggestions(s);
      i := i + 1;
    }
    assert rows[..i] == rows;
    r := Ok(ContentAdvice(optimizations, |rows|));
  }

  // ---------------------------------------------------------------------
  // performance_audit

  const OneMiB := 1024 * 1024
  const PngLimit := 500 * 1024

  datatype PerformanceIssue = LargeImage(file: string) | FormatOptimization(file: string)

  /** `file_type?.startsWith('image/') && file_size > 1 MiB`. */
  predicate IsLargeImage(a: MediaAsset)
  {
    a.fileType.Some? && StartsWith(a.fileType.value, "image/") && a.fileSize.Some? && a.fileSize.value > OneMiB
  }

  /** `file_type === 'image/png' && file_size > 500 KiB`. */
  predicate IsHeavyPng(a: MediaAsset)
  {
    a.fileType == Some("image/png") && a.fileSize.Some? && a.fileSize.value > PngLimit
  }

  function AssetIssues(a: MediaAsset): seq<PerformanceIssue>
  {
    (if IsLargeImage(a) then [LargeImage(a.fileName)] else []) +
    (if IsHeavyPng(a) then [FormatOptimization(a.fileName)] else [])
  }

  function AllAssetIssues(assets: seq<MediaAsset>): seq<PerformanceIssue>
  {
    if assets == [] then [] else AllAssetIssues(assets[..|assets| - 1]) + AssetIssues(assets[|assets| - 1])
  }

  /** A PNG over 1 MiB is flagged twice: as a large image, then for its format. */
  lemma LargePngFlaggedTwice(a: MediaAsset)
    requires a.fileType == Some("image/png") && a.fileSize.Some? && a.fileSize.value > OneMiB
    ensures AssetIssues(a) == [LargeImage(a.fileName), FormatOptimization(a.fileName)]
  {
    assert StartsWith("image/png", "image/");
  }

  /** An asset is flagged as large exactly when it is an image over 1 MiB,
      and for its format exactly when it is a PNG over 500 KiB; so only
      images are flagged, and nothing at or under 500 KiB. */
  lemma FlagsNeedSize(a: MediaAsset)
    ensures LargeImage(a.fileName) in AssetIssues(a) <==>
      a.fileType.Some? && StartsWith(a.fileType.value, "image/") && a.fileSize.Some? && a.fileSize.value > 1048576
    ensures FormatOptimization(a.fileName) in AssetIssues(a) <==>
      a.fileType == Some("image/png") && a.fileSize.Some? && a.fileSize.value > 512000
    ensures AssetIssues(a) != [] ==> a.fileType.Some? && StartsWith(a.fileType.value, "image/")
    ensures AssetIssues(a) != [] ==> a.fileSize.Some? && a.fileSize.value > PngLimit
  {
    if IsHeavyPng(a) {
      assert StartsWith("image/png", "image/");
    }
  }

  datatype Recommendation = Recommendation(category: string, suggestion: string, impact: string)

  /** The four general recommendations every audit carries. */
  const GeneralRecommendations := [
    Recommendation("Images", "Implement lazy loading for images below the fold", "high"),
    Recommendation("Caching", "Enable browser caching for static assets", "high"),
    Recommendation("Minification", "Minify CSS and JavaScript files", "medium"),
    Recommendation("CDN", "Use a Content Delivery Network for global performance", "high")
  ]

  datatype Audit = Audit(issues: seq<PerformanceIssue>, recommendations: seq<Recommendation>, totalBytes: int)

  lemma AuditStep(assets: seq<MediaAsset>, i: nat)
    requires i < |assets|
    ensures AllAssetIssues(assets[..i + 1]) == AllAssetIssues(assets[..i]) + AssetIssues(assets[i])
    ensures TotalSize(assets[..i + 1]) == TotalSize(assets[..i]) + SizeOrZero(assets[i])
  {
    assert assets[..i + 1][..i] == assets[..i];
  }

  /** The two checks `performance_audit` makes on one asset, in order. */
  method AuditAsset(a: MediaAsset) returns (found: seq<PerformanceIssue>)
    ensures found == AssetIssues(a)
    ensures |found| <= 2
  {
    found := [];
    if IsLargeImage(a) {
      found := found + [LargeImage(a.fileName)];
    }
    if IsHeavyPng(a) {
      found := found + [FormatOptimization(a.fileName)];
    }
  }

  /** `performance_audit` over the active assets. */
  method PerformanceAudit(query: Option<seq<MediaAsset>>) returns (audit: Audit)
    ensures var assets := if query.Some? then ActiveAssets(query.value) else [];
      && audit.issues == AllAssetIssues(assets)
      && audit.totalBytes == TotalSize(assets)
      && audit.recommendations == GeneralRecommendations
  {
    var assets := if query.Some? then ActiveAssets(query.value) else [];
    var issues, totalSize := [], 0;
    var i := 0;
    while i < |assets|
      invariant 0 <= i <= |assets|
      invariant issues == AllAssetIssues(assets[..i])
      invariant totalSize == TotalSize(assets[..i])
    {
      AuditStep(assets, i);
      var found := AuditAsset(assets[i]);
      issues := issues + found;
      totalSize := totalSize + (if assets[i].fileSize.Some? then assets[i].fileSize.value else 0);
      i := i + 1;
    }
    assert assets[..i] == assets;
    audit := Audit(issues, GeneralRecommendations, totalSize);
  }

  // ---------------------------------------------------------------------
  // generate_meta_tags

  datatype MetaTags = MetaTags(
    title: Json, description: Json, keywords: Json,
    ogTitle: Json, ogDescription: Json, ogImage: Json,
    twitterCard: string, twitterTitle: Json, twitterDescription: Json)

  /** `content[own] || content.description?.substring(0, 160) || default`:
      a description that is neither missing, null nor a string throws. */
  function DescriptionTag(c: Content, own: string): (r: Result<Json, string>)
    ensures Truthy(Prop(c, own)) ==> r == Ok(c[own])
    ensures !Truthy(Prop(c, own)) && Prop(c, "description") in {None, Some(Null), Some(Str(""))} ==>
      r == Ok(Str(DefaultDescription))
    ensures !Truthy(Prop(c, own)) && Truthy(Prop(c, "description")) && IsString(Prop(c, "description")) ==>
      var d := c["description"].s;
      r.Ok? && r.value.Str? && StartsWith(d, r.value.s) && |r.value.s| == (if |d| < 160 then |d| else 160)
    ensures r.Err? <==>
      (!Truthy(Prop(c, own)) && Prop(c, "description").Some? && !c["description"].Null? && !c["description"].Str?)
  {
    if Truthy(Prop(c, own)) then Ok(c[own])
    else match Prop(c, "description")
      case None => Ok(Str(DefaultDescription))
      case Some(Null) => Ok(Str(DefaultDescription))
      case Some(Str(s)) =>
        var cut := Take(s, 160);
        if cut != "" then Ok(Str(cut)) else Ok(Str(DefaultDescription))
      case Some(_) => Err(TypeError)
  }

  /** The tags of one section, with every fallback chain of the handler. */
  function SectionMetaTags(c: Content): (r: Result<MetaTags, string>)
    ensures r.Ok? ==> r.value.twitterCard == "summary_large_image"
    ensures r.Ok? ==> Truthy(Some(r.value.title)) && Truthy(Some(r.value.ogImage))
    ensures r.Err? <==>
      DescriptionTag(c, "meta_description").Err? || DescriptionTag(c, "og_description").Err? ||
      DescriptionTag(c, "twitter_description").Err?
  {
    var title := Or(Prop(c, "title"), Str(DefaultTitle));
    var description := DescriptionTag(c, "meta_description");
    var ogDescription := DescriptionTag(c, "og_description");
    var twitterDescription := DescriptionTag(c, "twitter_description");
    if description.Err? || ogDescription.Err? || twitterDescription.Err? then Err(TypeError)
    else Ok(MetaTags(
      title,
      description.value,
      Or(Prop(c, "keywords"), Str(DefaultKeywords)),
      Or(Prop(c, "og_title"), Or(Prop(c, "title"), Str(DefaultTitle))),
      ogDescription.value,
      Or(Prop(c, "og_image"), Or(Prop(c, "hero_image"), Str(DefaultOgImage))),
      "summary_large_image",
      Or(Prop(c, "twitter_title"), Or(Prop(c, "title"), Str(DefaultTitle))),
      twitterDescription.value))
  }

  /** The title-like tags: each takes the first truthy field of its chain,
      else the fixed default. */
  lemma SectionMetaTitles(c: Content)
    requires SectionMetaTags(c).Ok?
    ensures var t := SectionMetaTags(c).value;
      && (Truthy(Prop(c, "title")) ==> t.title == c["title"])
      && (!Truthy(Prop(c, "title")) ==> t.title == Str(DefaultTitle))
      && (Truthy(Prop(c, "keywords")) ==> t.keywords == c["keywords"])
      && (!Truthy(Prop(c, "keywords")) ==> t.keywords == Str(DefaultKeywords))
      && (Truthy(Prop(c, "og_title")) ==> t.ogTitle == c["og_title"])
      && (!Truthy(Prop(c, "og_title")) && Truthy(Prop(c, "title")) ==> t.ogTitle == c["title"])
      && (!Truthy(Prop(c, "og_title")) && !Truthy(Prop(c, "title")) ==> t.ogTitle == Str(DefaultTitle))
      && (Truthy(Prop(c, "twitter_title")) ==> t.twitterTitle == c["twitter_title"])
      && (!Truthy(Prop(c, "twitter_title")) && Truthy(Prop(c, "title")) ==> t.twitterTitle == c["title"])
      && (!Truthy(Prop(c, "twitter_title")) && !Truthy(Prop(c, "title")) ==> t.twitterTitle == Str(DefaultTitle))
      && (Truthy(Prop(c, "og_image")) ==> t.ogImage == c["og_image"])
      && (!Truthy(Prop(c, "og_image")) && Truthy(Prop(c, "hero_image")) ==> t.ogImage == c["hero_image"])
      && (!Truthy(Prop(c, "og_image")) && !Truthy(Prop(c, "hero_image")) ==> t.ogImage == Str(DefaultOgImage))
  {
  }

  /** The three description tags follow the description rule, each with its
      own field first: the own field when truthy, else the first 160
      characters of a non-empty string `description`, else the default. */
  lemma SectionMetaDescriptions(c: Content)
    requires SectionMetaTags(c).Ok?
    ensures var t := SectionMetaTags(c).value;
      && Ok(t.description) == DescriptionTag(c, "meta_description")
      && Ok(t.ogDescription) == DescriptionTag(c, "og_description")
      && Ok(t.twitterDescription) == DescriptionTag(c, "twitter_description")
    ensures var t := SectionMetaTags(c).value;
      !Truthy(Prop(c, "meta_description")) && !Truthy(Prop(c, "description")) ==> t.description == Str(DefaultDescription)
    ensures var t := SectionMetaTags(c).value;
      !Truthy(Prop(c, "meta_description")) && Truthy(Prop(c, "description")) && IsString(Prop(c, "description")) ==>
      t.description.Str? && StartsWith(c["description"].s, t.description.s) && |t.description.s| <= 160
  {
  }

  /** Building the tags of this content throws. */
  predicate MetaThrows(c: Content)
  {
    SectionMetaTags(c).Err?
  }

  /** The map `rows.forEach(s => m[s.key] = f(s.content))` builds when no
      call fails: a later section with the same key overwrites an earlier one. */
  function KeyedMap<T>(rows: seq<Section>, f: Content -> Result<T, string>): map<string, T>
  {
    if rows == [] then map[]
    else
      var s := rows[|rows| - 1];
      var m := KeyedMap(rows[..|rows| - 1], f);
      if f(s.content).Ok? then m[s.key := f(s.content).value] else m
  }

  lemma KeyedMapSnoc<T>(rows: seq<Section>, i: nat, f: Content -> Result<T, string>)
    requires i < |rows|
    ensures KeyedMap(rows[..i + 1], f) ==
      if f(rows[i].content).Ok? then KeyedMap(rows[..i], f)[rows[i].key := f(rows[i].content).value]
      else KeyedMap(rows[..i], f)
  {
    assert rows[..i + 1][..i] == rows[..i];
  }

  /** With no failing call, the map has a key exactly for each section's key. */
  lemma {:induction false} KeyedMapKeys<T>(rows: seq<Section>, f: Content -> Result<T, string>)
    requires forall k :: 0 <= k < |rows| ==> f(rows[k].content).Ok?
    ensures forall key :: key in KeyedMap(rows, f) <==> exists k :: 0 <= k < |rows| && rows[k].key == key
  {
    if rows != [] {
      var n := |rows| - 1;
      var init := rows[..n];
      assert forall k :: 0 <= k < |init| ==> init[k] == rows[k];
      KeyedMapKeys(init, f);
      assert f(rows[n].content).Ok?;
      assert KeyedMap(rows, f) == KeyedMap(init, f)[rows[n].key := f(rows[n].content).value];
      forall key
        ensures key in KeyedMap(rows, f) <==> exists k :: 0 <= k < |rows| && rows[k].key == key
      {
        if key == rows[n].key {
          assert 0 <= n < |rows| && rows[n].key == key;
        } else {
          if key in KeyedMap(init, f) {
            var k :| 0 <= k < |init| && init[k].key == key;
            assert 0 <= k < |rows| && rows[k].key == key;
          }
          if exists k :: 0 <= k < |rows| && rows[k].key == key {
            var k :| 0 <= k < |rows| && rows[k].key == key;
            assert k < n && init[k] == rows[k];
          }
        }
      }
    }
  }

  /** With no failing call, a key holds the value of the last section with that key. */
  lemma {:induction false} KeyedMapValues<T>(rows: seq<Section>, f: Content -> Result<T, string>, i: int)
    requires forall k :: 0 <= k < |rows| ==> f(rows[k].content).Ok?
    requires 0 <= i < |rows|
    requires forall j :: i < j < |rows| ==> rows[j].key != rows[i].key
    ensures rows[i].key in KeyedMap(rows, f)
    ensures f(rows[i].content) == Ok(KeyedMap(rows, f)[rows[i].key])
  {
    var n := |rows| - 1;
    var init := rows[..n];
    assert f(rows[n].content).Ok?;
    assert KeyedMap(rows, f) == KeyedMap(init, f)[rows[n].key := f(rows[n].content).value];
    if i < n {
      assert forall k :: 0 <= k < |init| ==> init[k] == rows[k];
      KeyedMapValues(init, f, i);
    }
  }

  /** Each key maps to the value of the last section with that key. */
  lemma KeyedMapLastWins<T>(rows: seq<Section>, f: Content -> Result<T, string>)
    requires forall k :: 0 <= k < |rows| ==> f(rows[k].content).Ok?
    ensures forall key :: key in KeyedMap(rows, f) <==> exists k :: 0 <= k < |rows| && rows[k].key == key
    ensures forall k :: 0 <= k < |rows| && (forall j :: k < j < |rows| ==> rows[j].key != rows[k].key) ==>
      f(rows[k].content) == Ok(KeyedMap(rows, f)[rows[k].key])
  {
    KeyedMapKeys(rows, f);
    forall k | 0 <= k < |rows| && (forall j :: k < j < |rows| ==> rows[j].key != rows[k].key)
      ensures f(rows[k].content) == Ok(KeyedMap(rows, f)[rows[k].key])
    {
      KeyedMapValues(rows, f, k);
    }
  }

  /** The tags of the published sections, keyed by section key. */
  lemma MetaMapLastWins(rows: seq<Section>)
    requires !AnyContent(rows, MetaThrows)
    ensures forall key :: key in KeyedMap(rows, SectionMetaTags) <==> exists k :: 0 <= k < |rows| && rows[k].key == key
    ensures forall k :: 0 <= k < |rows| && (forall j :: k < j < |rows| ==> rows[j].key != rows[k].key) ==>
      SectionMetaTags(rows[k].content) == Ok(KeyedMap(rows, SectionMetaTags)[rows[k].key])
  {
    AnyContentIff(rows, MetaThrows);
    KeyedMapLastWins(rows, SectionMetaTags);
  }

  /** `generate_meta_tags`: one entry per published section key. */
  method GenerateMetaTags(query: Option<seq<Section>>) returns (r: Result<map<string, MetaTags>, string>)
    ensures var rows := PublishedRows(query);
      && (r.Err? <==> AnyContent(rows, MetaThrows))
      && (r.Ok? ==> r.value == KeyedMap(rows, SectionMetaTags))
  {
    var rows := PublishedRows(query);
    var tags := map[];
    var i := 0;
    while i < |rows|
      invariant 0 <= i <= |rows|
      invariant !AnyContent(rows[..i], MetaThrows)
      invariant tags == KeyedMap(rows[..i], SectionMetaTags)
    {
      var t := SectionMetaTags(rows[i].content);
      AnyContentSnoc(rows, i, MetaThrows);
      KeyedMapSnoc(rows, i, SectionMetaTags);
      if t.Err? {
        AnyContentPrefix(rows, i + 1, MetaThrows);
        return Err(t.error);
      }
      tags := tags[rows[i].key := t.value];
      i := i + 1;
    }
    assert rows[..i] == rows;
    r := Ok(tags);
  }

  // ---------------------------------------------------------------------
  // generate_robots and routing

  const RobotsTxt := "User-agent: *\nAllow: /\n\n# Sitemap\nSitemap: https://space-corporate-landing.com/sitemap.xml\n\n# Crawl-delay\nCrawl-delay: 1\n\n# Disallow admin areas\nDisallow: /admin/\nDisallow: /#/admin/"

  datatype Endpoint =
    | Preflight
    | Sitemap | Robots | OptimizeContentAction | PerformanceAuditAction | MetaTagsAction
    | SeoScoreAction
    | Invalid

  /** The handler's dispatch: POST actions from the body, GET actions from
      the query string, everything else a 400. */
  function Route(httpMethod: string, action: Option<string>): (e: Endpoint)
    ensures e == Invalid <==>
      httpMethod != "OPTIONS" &&
      !(httpMethod == "POST" && action.Some? &&
        action.value in {"generate_sitemap", "generate_robots", "optimize_content", "performance_audit", "generate_meta_tags"}) &&
      !(httpMethod == "GET" && action == Some("seo_score"))
    ensures e == Preflight <==> httpMethod == "OPTIONS"
    ensures e == Sitemap <==> httpMethod == "POST" && action == Some("generate_sitemap")
    ensures e == Robots <==> httpMethod == "POST" && action == Some("generate_robots")
    ensures e == OptimizeContentAction <==> httpMethod == "POST" && action == Some("optimize_content")
    ensures e == PerformanceAuditAction <==> httpMethod == "POST" && action == Some("performance_audit")
    ensures e == MetaTagsAction <==> httpMethod == "POST" && action == Some("generate_meta_tags")
    ensures e == SeoScoreAction <==> httpMethod == "GET" && action == Some("seo_score")
  {
    if httpMethod == "OPTIONS" then Preflight
    else if httpMethod == "POST" && action == Some("generate_sitemap") then Sitemap
    else if httpMethod == "POST" && action == Some("generate_robots") then Robots
    else if httpMethod == "POST" && action == Some("optimize_content") then OptimizeContentAction
    else if httpMethod == "POST" && action == Some("performance_audit") then PerformanceAuditAction
    else if httpMethod == "POST" && action == Some("generate_meta_tags") then MetaTagsAction
    else if httpMethod == "GET" && action == Some("seo_score") then SeoScoreAction
    else Invalid
  }

  /** The status of a routed request: 400 for an invalid one, 200 otherwise
      unless the action failed (500). */
  function Status(e: Endpoint, failed: bool): (code: int)
    ensures e == Invalid ==> code == 400
    ensures e != Invalid ==> (code == 500 <==> failed && e != Preflight)
    ensures code == 200 <==> e != Invalid && (e == Preflight || !failed)
  {
    if e == Invalid then 400 else if failed && e != Preflight then 500 else 200
  }
}
