/**
  ToolLab.js: the tool workbench. The index fills a sidebar of tool links, the
  search box narrows the sidebar (with no empty-term shortcut), and a selected
  tool's HTML file replaces the display area.
 */
module ToolLab {
  import opened Wrappers
  import opened Text
  import opened Net
  import opened Display
  import opened Search

  /** A record of `./ToolLab/index.json`, as the workbench reads it. */
  datatype Tool = Tool(title: string, searchableContent: string, iconSVG: string, iconURL: string, fileName: string)

  const IndexPath := "./ToolLab/index.json"
  const BasePath := "./ToolLab/"
  const EmptyNotice := "No tools found."
  const LoadError := "Failed to load tools."

  function Searchable(tool: Tool): seq<string>
  {
    [tool.title, tool.searchableContent]
  }

  /** The sidebar link's icon: the tool's inline SVG first, its image URL second, the default
      toolbox SVG otherwise (the reverse of the app store's precedence). */
  function SidebarIcon(tool: Tool): (icon: Icon)
    ensures icon.InlineSvg? <==> tool.iconSVG != ""
    ensures icon.InlineSvg? ==> icon.markup == tool.iconSVG
    ensures icon.Image? <==> tool.iconSVG == "" && tool.iconURL != ""
    ensures icon.Image? ==> icon.url == tool.iconURL
    ensures icon.DefaultIcon? <==> tool.iconSVG == "" && tool.iconURL == ""
  {
    if tool.iconSVG != "" then InlineSvg(tool.iconSVG)
    else if tool.iconURL != "" then Image(tool.iconURL)
    else DefaultIcon
  }

  /** The tools the search box lists: the filter runs even for the empty term. */
  function Filtered(all: seq<Tool>, raw: string): (shown: seq<Tool>)
    ensures forall i :: 0 <= i < |shown| ==> shown[i] in all
    ensures multiset(shown) <= multiset(all)
    // every tool the term matches is listed, as often as the index holds it
    ensures forall i :: 0 <= i < |all| && AnyFieldContains(Searchable(all[i]), Lower(raw)) ==>
      multiset(shown)[all[i]] == multiset(all)[all[i]]
  {
    Matching(all, Searchable, Lower(raw))
  }

  /** Running the filter on the empty term lists what the other pages' shortcut lists, so the
      workbench's search is the shared search. */
  lemma FilteredIsListed(all: seq<Tool>, raw: string)
    ensures Filtered(all, raw) == Listed(all, Searchable, raw)
  {
    if Lower(raw) == "" {
      EmptyTermMatchesAll(all, Searchable);
    }
  }

  /** A term lists a tool exactly when its title or searchable content contains it. */
  lemma SearchMatchesTitleOrContent(all: seq<Tool>, raw: string, tool: Tool)
    ensures var term := Lower(raw);
      tool in Filtered(all, raw) <==>
        (tool in all && (Contains(Lower(tool.title), term) || Contains(Lower(tool.searchableContent), term)))
  {
    FilteredIsListed(all, raw);
    var fs, term := Searchable(tool), Lower(raw);
    if term == "" {
      ContainsEmpty(Lower(tool.title));
    } else {
      ListedMember(all, Searchable, raw, tool);
      if AnyFieldContains(fs, term) {
        var i :| 0 <= i < |fs| && Contains(Lower(fs[i]), term);
        assert i == 0 || i == 1;
      }
      if Contains(Lower(tool.title), term) { assert Contains(Lower(fs[0]), term); }
      if Contains(Lower(tool.searchableContent), term) { assert Contains(Lower(fs[1]), term); }
    }
  }

  /** The display area: as the page's markup has it, a tool's HTML, or the error naming the
      file that could not be loaded. */
  datatype Output = Welcome | ToolHtml(html: string) | LoadFailure(fileName: string)

  class Workbench {
    var allTools: seq<Tool>
    /** `#toolListContainer`: one link per tool, or a notice. */
    var sidebar: Grid<Tool>
    var display: Output

    constructor ()
      ensures allTools == [] && sidebar == Cards([]) && display == Welcome
    {
      allTools := [];
      sidebar := Cards([]);
      display := Welcome;
    }

    /** `fetchTools`: success keeps the index and links every tool; failure keeps the index and
        shows the load error in the sidebar. */
    method FetchTools(response: IndexResponse<Tool>) returns (request: string)
      modifies this`allTools, this`sidebar
      ensures request == IndexPath
      ensures response.Loaded? ==> allTools == response.entries && sidebar == Render(response.entries, EmptyNotice)
      ensures !response.Loaded? ==> allTools == old(allTools) && sidebar == Notice(LoadError)
    {
      request := IndexPath;
      if response.Loaded? {
        allTools := response.entries;
        sidebar := Render(allTools, EmptyNotice);
      } else {
        sidebar := Notice(LoadError);
      }
    }

    /** `loadTool`: fetch `./ToolLab/<fileName>`; an ok body becomes the display's HTML, a
        non-ok status or a thrown error shows the failure naming the file. Nothing is cached. */
    method LoadTool(tool: Tool, response: TextResponse) returns (request: string)
      modifies this`display
      ensures request == BasePath + tool.fileName
      ensures response.Ok? ==> display == ToolHtml(response.text)
      ensures !response.Ok? ==> display == LoadFailure(tool.fileName)
    {
      request := BasePath + tool.fileName;
      if response.Ok? {
        display := ToolHtml(response.text);
      } else {
        display := LoadFailure(tool.fileName);
      }
    }

    /** The search box handler: re-render the sidebar from the filtered index. */
    method Search(raw: string)
      modifies this`sidebar
      ensures sidebar == Render(Filtered(allTools, raw), EmptyNotice)
    {
      var term := Lower(raw);
      var filtered := Matching(allTools, Searchable, term);
      sidebar := Render(filtered, EmptyNotice);
    }
  }
}
