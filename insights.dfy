/**
  Insights.js: the analysis feed, an instance of the coordinator whose entries
  are articles, searched by title, summary, category, author and impact level,
  with an impact badge and an author line that falls back to the editorial desk.
 */
module Insights {
  import opened Wrappers
  import opened Text
  import opened Net
  import opened Display
  import opened Search
  import opened ContentCache
  import opened Coordination

  /** A record of `./Insights/index.json`. `author` may be absent from a record: the detail
      header supplies a default for it. */
  datatype Article = Article(
    title: string,
    summary: string,
    category: string,
    author: Option<string>,
    impactLevel: string,
    date: string,
    fileName: string)

  /** The author as the search reads it once a missing author is skipped: the empty string,
      which no non-empty term is contained in. */
  function AuthorField(a: Article): (field: string)
    ensures a.author.Some? ==> field == a.author.value
    ensures a.author.None? ==> field == ""
  {
    match a.author
    case Some(name) => name
    case None => ""
  }

  /** The searched fields, in the order the handler tests them. */
  function Searchable(a: Article): seq<string>
  {
    [a.title, a.summary, a.category, AuthorField(a), a.impactLevel]
  }

  const Page: Config<Article> := Config(
    "./Insights/index.json",
    Searchable,
    "Signal lost. Unable to retrieve feed.",
    "No analysis found.",
    Some(Source((a: Article) => a.fileName, "./Insights/", "Error 404", "Article file not found.")))

  const ImpactTable: seq<(string, string)> := [("Strategic", "#a855f7"), ("Critical", "#facc15")]

  /** The impact badge colour, the same chain on the card and in the detail header: purple for
      Strategic, gold for Critical, crimson for any other level. */
  function ImpactColor(level: string): (colour: string)
    ensures colour == "#a855f7" <==> level == "Strategic"
    ensures colour == "#facc15" <==> level == "Critical"
    ensures colour == "#fb7185" <==> level != "Strategic" && level != "Critical"
  {
    Badge(level, ImpactTable, "#fb7185")
  }

  /** The detail header's author: the article's author when it is present and non-empty,
      "RanjanLabs Editorial" otherwise; never empty. */
  function AuthorLine(a: Article): (line: string)
    ensures line != ""
    ensures a.author.Some? && a.author.value != "" ==> line == a.author.value
    ensures a.author.None? || a.author.value == "" ==> line == "RanjanLabs Editorial"
  {
    OrElse(AuthorField(a), "RanjanLabs Editorial")
  }

  /** A non-empty term lists an article exactly when one of its five fields contains it, a
      missing author matching nothing. */
  lemma SearchMatchesAnyField(all: seq<Article>, raw: string, a: Article)
    requires raw != ""
    ensures var term := Lower(raw);
      a in Listed(all, Searchable, raw) <==>
        (a in all &&
         (Contains(Lower(a.title), term) || Contains(Lower(a.summary), term) || Contains(Lower(a.category), term) ||
          (a.author.Some? && Contains(Lower(a.author.value), term)) || Contains(Lower(a.impactLevel), term)))
  {
    ListedMember(all, Searchable, raw, a);
    var term := Lower(raw);
    assert term != "";
    if a.author.None? {
      assert !Contains(Lower(AuthorField(a)), term);
    }
    SameFields(a, term);
  }

  /** `AnyFieldContains` over `Searchable(a)` is the five-way disjunction of the handler. */
  lemma SameFields(a: Article, term: string)
    ensures AnyFieldContains(Searchable(a), term) <==>
      (Contains(Lower(a.title), term) || Contains(Lower(a.summary), term) || Contains(Lower(a.category), term) ||
       Contains(Lower(AuthorField(a)), term) || Contains(Lower(a.impactLevel), term))
  {
    var fs := Searchable(a);
    if AnyFieldContains(fs, term) {
      var i :| 0 <= i < |fs| && Contains(Lower(fs[i]), term);
      assert i == 0 || i == 1 || i == 2 || i == 3 || i == 4;
    }
    if Contains(Lower(a.title), term) { assert Contains(Lower(fs[0]), term); }
    if Contains(Lower(a.summary), term) { assert Contains(Lower(fs[1]), term); }
    if Contains(Lower(a.category), term) { assert Contains(Lower(fs[2]), term); }
    if Contains(Lower(AuthorField(a)), term) { assert Contains(Lower(fs[3]), term); }
    if Contains(Lower(a.impactLevel), term) { assert Contains(Lower(fs[4]), term); }
  }

  /** The filter callback as written reaches `art.author.toLowerCase()` when title, summary and
      category all miss; on an article without an author that call throws a TypeError. */
  predicate Throws(a: Article, term: string): (b: bool)
    // only an authorless article throws, and never on the empty term (every title contains it)
    ensures b ==> a.author.None? && term != ""
  {
    ContainsEmpty(Lower(a.title));
    a.author.None? && !Contains(Lower(a.title), term) && !Contains(Lower(a.summary), term) && !Contains(Lower(a.category), term)
  }

  /** The filter callback as written, on an article it does not throw on. */
  predicate KeptAsWritten(a: Article, term: string): (b: bool)
    requires !Throws(a, term)
    // where it does not throw, the callback keeps exactly the articles the corrected search keeps
    ensures b <==> AnyFieldContains(Searchable(a), term)
  {
    SameFields(a, term);
    Contains(Lower(a.title), term) || Contains(Lower(a.summary), term) || Contains(Lower(a.category), term) ||
    Contains(Lower(a.author.value), term) || Contains(Lower(a.impactLevel), term)
  }

  /** `allNews.filter(...)` as written: `None` when the callback throws on some article, which
      aborts the whole handler; otherwise the corrected search's list. */
  function FilterAsWritten(all: seq<Article>, term: string): (r: Option<seq<Article>>)
    ensures r.None? <==> exists i :: 0 <= i < |all| && Throws(all[i], term)
    ensures r.Some? ==> r.value == Matching(all, Searchable, term)
    decreases |all|
  {
    if all == [] then Some([])
    else if Throws(all[0], term) then None
    else
      match FilterAsWritten(all[1..], term)
      case None =>
        assert exists i :: 0 <= i < |all[1..]| && Throws(all[1..][i], term);
        None
      case Some(rest) =>
        assert forall i :: 0 < i < |all| ==> all[i] == all[1..][i - 1];
        Some(if KeptAsWritten(all[0], term) then [all[0]] + rest else rest)
  }

  /** An article the search keeps. */
  function SignedArticle(): (a: Article)
    ensures a.author == Some("b")
  {
    Article("a", "a", "a", Some("b"), "a", "", "signed.md")
  }

  /** An article without an author. */
  function UnsignedArticle(): (a: Article)
    ensures a.author.None?
  {
    Article("a", "a", "a", None, "a", "", "unsigned.md")
  }

  /** The signed article matches "b" on its author. */
  lemma SignedArticleMatches()
    ensures AnyFieldContains(Searchable(SignedArticle()), "b")
  {
    assert Lower("b") == "b";
    assert Contains("b", "b");
    assert Contains(Lower(Searchable(SignedArticle())[3]), "b");
  }

  /** The unsigned article misses "b" on every field, so the callback reaches its author. */
  lemma UnsignedArticleMisses()
    ensures Throws(UnsignedArticle(), "b")
    ensures !AnyFieldContains(Searchable(UnsignedArticle()), "b")
  {
    var u := UnsignedArticle();
    assert Lower("a") == "a";
    assert Lower("") == "";
    assert !Contains("a"[1..], "b");
    assert !Contains("a", "b");
    assert !Contains("", "b");
    forall i | 0 <= i < |Searchable(u)|
      ensures !Contains(Lower(Searchable(u)[i]), "b")
    {
      assert Searchable(u)[i] == "a" || Searchable(u)[i] == "";
    }
  }

  /** Searching "b" in a feed holding an authorless article: as written the handler throws and
      the grid is not re-rendered, although the corrected search lists the signed article. */
  lemma AuthorlessArticleAbortsSearch()
    ensures FilterAsWritten([SignedArticle(), UnsignedArticle()], "b").None?
    ensures Matching([SignedArticle(), UnsignedArticle()], Searchable, "b") == [SignedArticle()]
  {
    var s, u := SignedArticle(), UnsignedArticle();
    SignedArticleMatches();
    UnsignedArticleMisses();
    assert Throws([s, u][1], "b");
    assert [s, u][1..] == [u];
    assert [u][1..] == [];
  }

  /** `fetchNews`. */
  method FetchNews(c: Coordinator<Article>, response: IndexResponse<Article>) returns (request: string)
    requires c.config == Page
    modifies c
    ensures request == "./Insights/index.json"
    ensures response.Loaded? ==> c.entries == response.entries && c.grid == Render(response.entries, "No analysis found.")
    ensures !response.Loaded? ==> c.entries == old(c.entries) && c.grid == Notice("Signal lost. Unable to retrieve feed.")
    ensures c.cache == old(c.cache) && c.view == old(c.view) && c.viewer == old(c.viewer)
  {
    request := c.LoadIndex(response);
  }

  /** The search box handler as written: the empty term lists every article; otherwise the grid
      shows the filtered list, unless the filter throws, in which case it keeps what it showed. */
  method SearchNewsAsWritten(c: Coordinator<Article>, raw: string)
    requires c.config == Page
    modifies c
    ensures var term := Lower(raw);
      c.grid == (if term == "" then Render(c.entries, "No analysis found.")
                 else match FilterAsWritten(c.entries, term)
                      case Some(kept) => Render(kept, "No analysis found.")
                      case None => old(c.grid))
    ensures c.entries == old(c.entries) && c.cache == old(c.cache) && c.view == old(c.view) && c.viewer == old(c.viewer)
  {
    var term := Lower(raw);
    if term == "" {
      c.grid := Render(c.entries, "No analysis found.");
      return;
    }
    var filtered := FilterAsWritten(c.entries, term);
    if filtered.Some? {
      c.grid := Render(filtered.value, "No analysis found.");
    }
  }

  /** The search box handler as intended, a missing author matching nothing. */
  method SearchNews(c: Coordinator<Article>, raw: string)
    requires c.config == Page
    modifies c
    ensures c.grid == Render(Listed(c.entries, Searchable, raw), "No analysis found.")
    ensures c.entries == old(c.entries) && c.cache == old(c.cache) && c.view == old(c.view) && c.viewer == old(c.viewer)
  {
    c.Search(raw);
  }

  /** `loadArticle`. */
  method LoadArticle(c: Coordinator<Article>, a: Article, response: TextResponse) returns (request: Option<string>)
    requires c.config == Page
    modifies c
    ensures c.view == Detail
    ensures Hit(old(c.cache), a.fileName) ==>
      request.None? && c.cache == old(c.cache) && c.viewer == Document(a, RenderMarkdown(c.marked, old(c.cache)[a.fileName]))
    ensures !Hit(old(c.cache), a.fileName) ==> request == Some("./Insights/" + a.fileName)
    ensures !Hit(old(c.cache), a.fileName) && response.Ok? ==>
      c.cache == old(c.cache)[a.fileName := response.text] && c.viewer == Document(a, RenderMarkdown(c.marked, response.text))
    ensures !Hit(old(c.cache), a.fileName) && !response.Ok? ==>
      c.cache == old(c.cache) && c.viewer == Failure(a, "Error 404", "Article file not found.")
    ensures c.entries == old(c.entries) && c.grid == old(c.grid)
  {
    request := c.Open(a, response);
  }

  /** `closeArticle`. */
  method CloseArticle(c: Coordinator<Article>)
    requires c.config == Page
    modifies c
    ensures c.view == Listing && c.viewer == Blank
    ensures c.entries == old(c.entries) && c.cache == old(c.cache) && c.grid == old(c.grid)
  {
    c.Close();
  }
}
