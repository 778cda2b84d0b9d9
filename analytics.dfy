/**
  Analytics.js: the report dashboard, an instance of the coordinator whose
  entries are reports, searched by title, summary and scope. Its listing view
  also holds the KPI section, which is hidden and shown together with the grid.
 */
module Analytics {
  import opened Wrappers
  import opened Text
  import opened Net
  import opened Display
  import opened Search
  import opened ContentCache
  import opened Coordination

  /** A record of `./Analytics/index.json`. */
  datatype Report = Report(title: string, summary: string, scope: string, date: string, fileName: string)

  function Searchable(r: Report): seq<string>
  {
    [r.title, r.summary, r.scope]
  }

  const Page: Config<Report> := Config(
    "./Analytics/index.json",
    Searchable,
    "Data link severed.",
    "No records found.",
    Some(Source((r: Report) => r.fileName, "./Analytics/", "Access Denied", "Report file not found.")))

  const ScopeTable: seq<(string, string)> := [("Security", "#f472b6"), ("Forecasting", "#facc15")]

  /** The scope badge colour: pink for Security, yellow for Forecasting, teal for any other scope. */
  function ScopeColor(scope: string): (colour: string)
    ensures colour == "#f472b6" <==> scope == "Security"
    ensures colour == "#facc15" <==> scope == "Forecasting"
    ensures colour == "#2dd4bf" <==> scope != "Security" && scope != "Forecasting"
  {
    Badge(scope, ScopeTable, "#2dd4bf")
  }

  /** A non-empty term lists a report exactly when its title, summary or scope contains it. */
  lemma SearchMatchesThreeFields(all: seq<Report>, raw: string, r: Report)
    requires raw != ""
    ensures var term := Lower(raw);
      r in Listed(all, Searchable, raw) <==>
        (r in all &&
         (Contains(Lower(r.title), term) || Contains(Lower(r.summary), term) || Contains(Lower(r.scope), term)))
  {
    ListedMember(all, Searchable, raw, r);
    var fs, term := Searchable(r), Lower(raw);
    if AnyFieldContains(fs, term) {
      var i :| 0 <= i < |fs| && Contains(Lower(fs[i]), term);
      assert i == 0 || i == 1 || i == 2;
    }
    if Contains(Lower(r.title), term) { assert Contains(Lower(fs[0]), term); }
    if Contains(Lower(r.summary), term) { assert Contains(Lower(fs[1]), term); }
    if Contains(Lower(r.scope), term) { assert Contains(Lower(fs[2]), term); }
  }

  /** `fetchReports`. */
  method FetchReports(c: Coordinator<Report>, response: IndexResponse<Report>) returns (request: string)
    requires c.config == Page
    modifies c
    ensures request == "./Analytics/index.json"
    ensures response.Loaded? ==> c.entries == response.entries && c.grid == Render(response.entries, "No records found.")
    ensures !response.Loaded? ==> c.entries == old(c.entries) && c.grid == Notice("Data link severed.")
    ensures c.cache == old(c.cache) && c.view == old(c.view) && c.viewer == old(c.viewer)
  {
    request := c.LoadIndex(response);
  }

  /** The search box handler. */
  method SearchReports(c: Coordinator<Report>, raw: string)
    requires c.config == Page
    modifies c
    ensures c.grid == Render(Listed(c.entries, Searchable, raw), "No records found.")
    ensures c.entries == old(c.entries) && c.cache == old(c.cache) && c.view == old(c.view) && c.viewer == old(c.viewer)
  {
    c.Search(raw);
  }

  /** `loadReport`: the detail view hides the grid, the KPI section and the hero. */
  method LoadReport(c: Coordinator<Report>, r: Report, response: TextResponse) returns (request: Option<string>)
    requires c.config == Page
    modifies c
    ensures c.view == Detail
    ensures Hit(old(c.cache), r.fileName) ==>
      request.None? && c.cache == old(c.cache) && c.viewer == Document(r, RenderMarkdown(c.marked, old(c.cache)[r.fileName]))
    ensures !Hit(old(c.cache), r.fileName) ==> request == Some("./Analytics/" + r.fileName)
    ensures !Hit(old(c.cache), r.fileName) && response.Ok? ==>
      c.cache == old(c.cache)[r.fileName := response.text] && c.viewer == Document(r, RenderMarkdown(c.marked, response.text))
    ensures !Hit(old(c.cache), r.fileName) && !response.Ok? ==>
      c.cache == old(c.cache) && c.viewer == Failure(r, "Access Denied", "Report file not found.")
    ensures c.entries == old(c.entries) && c.grid == old(c.grid)
  {
    request := c.Open(r, response);
  }

  /** `closeReport`: the listing view shows the hero, the KPI section and the grid again. */
  method CloseReport(c: Coordinator<Report>)
    requires c.config == Page
    modifies c
    ensures c.view == Listing && c.viewer == Blank
    ensures c.entries == old(c.entries) && c.cache == old(c.cache) && c.grid == old(c.grid)
  {
    c.Close();
  }
}
