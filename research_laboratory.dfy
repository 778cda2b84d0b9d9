/**
  ResearchLaboratory.js: the documentation grid, an instance of the coordinator
  whose entries are documents, searched by title and category only, with a badge
  coloured by classification.
 */
module ResearchLaboratory {
  import opened Wrappers
  import opened Text
  import opened Net
  import opened Display
  import opened Search
  import opened ContentCache
  import opened Coordination

  /** A record of `./ResearchLaboratory/index.json`. */
  datatype Doc = Doc(
    id: string,
    title: string,
    summary: string,
    category: string,
    classification: string,
    date: string,
    fileName: string)

  /** Only the title and the category are searched; the summary is not. */
  function Searchable(d: Doc): seq<string>
  {
    [d.title, d.category]
  }

  const Page: Config<Doc> := Config(
    "./ResearchLaboratory/index.json",
    Searchable,
    "System Error: Database unreachable.",
    "No data modules found.",
    Some(Source((d: Doc) => d.fileName, "./ResearchLaboratory/", "Error 404", "Data corrupted.")))

  const ClassificationTable: seq<(string, string)> := [("Confidential", "#f472b6"), ("Level 3 Access", "#06b6d4")]

  /** The access badge colour: pink for Confidential, cyan for Level 3 Access, slate otherwise. */
  function ClassificationColor(classification: string): (colour: string)
    ensures colour == "#f472b6" <==> classification == "Confidential"
    ensures colour == "#06b6d4" <==> classification == "Level 3 Access"
    ensures colour == "#94a3b8" <==> classification != "Confidential" && classification != "Level 3 Access"
  {
    Badge(classification, ClassificationTable, "#94a3b8")
  }

  /** A non-empty term lists a document exactly when its title or category contains it; a term
      found only in the summary lists nothing. */
  lemma SearchMatchesTitleOrCategory(all: seq<Doc>, raw: string, d: Doc)
    requires raw != ""
    ensures var term := Lower(raw);
      d in Listed(all, Searchable, raw) <==>
        (d in all && (Contains(Lower(d.title), term) || Contains(Lower(d.category), term)))
  {
    ListedMember(all, Searchable, raw, d);
    var fs, term := Searchable(d), Lower(raw);
    if AnyFieldContains(fs, term) {
      var i :| 0 <= i < |fs| && Contains(Lower(fs[i]), term);
      assert i == 0 || i == 1;
    }
    if Contains(Lower(d.title), term) { assert Contains(Lower(fs[0]), term); }
    if Contains(Lower(d.category), term) { assert Contains(Lower(fs[1]), term); }
  }

  /** `fetchDocs`. */
  method FetchDocs(c: Coordinator<Doc>, response: IndexResponse<Doc>) returns (request: string)
    requires c.config == Page
    modifies c
    ensures request == "./ResearchLaboratory/index.json"
    ensures response.Loaded? ==> c.entries == response.entries && c.grid == Render(response.entries, "No data modules found.")
    ensures !response.Loaded? ==> c.entries == old(c.entries) && c.grid == Notice("System Error: Database unreachable.")
    ensures c.cache == old(c.cache) && c.view == old(c.view) && c.viewer == old(c.viewer)
  {
    request := c.LoadIndex(response);
  }

  /** The search box handler. */
  method SearchDocs(c: Coordinator<Doc>, raw: string)
    requires c.config == Page
    modifies c
    ensures c.grid == Render(Listed(c.entries, Searchable, raw), "No data modules found.")
    ensures c.entries == old(c.entries) && c.cache == old(c.cache) && c.view == old(c.view) && c.viewer == old(c.viewer)
  {
    c.Search(raw);
  }

  /** `loadDocument`. */
  method LoadDocument(c: Coordinator<Doc>, d: Doc, response: TextResponse) returns (request: Option<string>)
    requires c.config == Page
    modifies c
    ensures c.view == Detail
    ensures Hit(old(c.cache), d.fileName) ==>
      request.None? && c.cache == old(c.cache) && c.viewer == Document(d, RenderMarkdown(c.marked, old(c.cache)[d.fileName]))
    ensures !Hit(old(c.cache), d.fileName) ==> request == Some("./ResearchLaboratory/" + d.fileName)
    ensures !Hit(old(c.cache), d.fileName) && response.Ok? ==>
      c.cache == old(c.cache)[d.fileName := response.text] && c.viewer == Document(d, RenderMarkdown(c.marked, response.text))
    ensures !Hit(old(c.cache), d.fileName) && !response.Ok? ==>
      c.cache == old(c.cache) && c.viewer == Failure(d, "Error 404", "Data corrupted.")
    ensures c.entries == old(c.entries) && c.grid == old(c.grid)
  {
    request := c.Open(d, response);
  }

  /** `closeDocument`. */
  method CloseDocument(c: Coordinator<Doc>)
    requires c.config == Page
    modifies c
    ensures c.view == Listing && c.viewer == Blank
    ensures c.entries == old(c.entries) && c.cache == old(c.cache) && c.grid == old(c.grid)
  {
    c.Close();
  }
}
