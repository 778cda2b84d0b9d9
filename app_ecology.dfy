/**
  AppEcology.js: the app store page, an instance of the coordinator whose entries
  are apps, searched by title and description, with an icon, a status badge and
  an APK download action per app.
 */
module AppEcology {
  import opened Wrappers
  import opened Text
  import opened Net
  import opened Display
  import opened Search
  import opened ContentCache
  import opened Coordination

  /** A record of `./AppStore/index.json`. An absent optional field is the empty string,
      which JavaScript treats as falsy just like `undefined`. */
  datatype App = App(
    title: string,
    description: string,
    tagline: string,
    status: string,
    iconURL: string,
    logoSVG: string,
    apkLink: string,
    fileName: string)

  function Searchable(app: App): seq<string>
  {
    [app.title, app.description]
  }

  const Page: Config<App> := Config(
    "./AppStore/index.json",
    Searchable,
    "Store currently unavailable.",
    "No matching apps found.",
    Some(Source((app: App) => app.fileName, "./AppStore/", "Unavailable", "Description not found.")))

  /** `getIconHtml`: the icon image when `iconURL` is set, else the inline `logoSVG` when that is
      set, else the default rounded-square SVG. An image or inline icon is never empty. */
  function AppIcon(app: App): (icon: Icon)
    ensures icon.Image? <==> app.iconURL != ""
    ensures icon.Image? ==> icon.url == app.iconURL
    ensures icon.InlineSvg? <==> app.iconURL == "" && app.logoSVG != ""
    ensures icon.InlineSvg? ==> icon.markup == app.logoSVG
    ensures icon.DefaultIcon? <==> app.iconURL == "" && app.logoSVG == ""
  {
    if app.iconURL != "" then Image(app.iconURL)
    else if app.logoSVG != "" then InlineSvg(app.logoSVG)
    else DefaultIcon
  }

  const StatusTable: seq<(string, string)> := [("GA", "#34d399"), ("Beta", "#facc15"), ("Experimental", "#f472b6")]

  /** The status badge colour of a card: green for GA, yellow for Beta, pink for Experimental,
      slate for any other status; each colour identifies its status. */
  function StatusColor(status: string): (colour: string)
    ensures colour == "#34d399" <==> status == "GA"
    ensures colour == "#facc15" <==> status == "Beta"
    ensures colour == "#f472b6" <==> status == "Experimental"
    ensures colour == "#94a3b8" <==> status != "GA" && status != "Beta" && status != "Experimental"
  {
    Badge(status, StatusTable, "#94a3b8")
  }

  /** The pill at the right of a card: "APK" when the app has a download link, "VIEW" otherwise. */
  function CardLabel(app: App): (pill: string)
    ensures pill == "APK" <==> app.apkLink != ""
    ensures pill == "VIEW" <==> app.apkLink == ""
  {
    if app.apkLink != "" then "APK" else "VIEW"
  }

  /** The detail header's action: a download link to the APK, or an inert install button. */
  datatype Action = Download(link: string) | Install

  function ActionButton(app: App): (action: Action)
    ensures action.Download? <==> CardLabel(app) == "APK"
    ensures action.Download? ==> action.link == app.apkLink
  {
    if app.apkLink != "" then Download(app.apkLink) else Install
  }

  /** A non-empty term lists an app exactly when its title or description contains it. */
  lemma SearchMatchesTitleOrDescription(all: seq<App>, raw: string, app: App)
    requires raw != ""
    ensures var term := Lower(raw);
      app in Listed(all, Searchable, raw) <==>
        (app in all && (Contains(Lower(app.title), term) || Contains(Lower(app.description), term)))
  {
    ListedMember(all, Searchable, raw, app);
    var fs, term := Searchable(app), Lower(raw);
    if AnyFieldContains(fs, term) {
      var i :| 0 <= i < |fs| && Contains(Lower(fs[i]), term);
      assert i == 0 || i == 1;
    }
    if Contains(Lower(app.title), term) { assert Contains(Lower(fs[0]), term); }
    if Contains(Lower(app.description), term) { assert Contains(Lower(fs[1]), term); }
  }

  /** `fetchApps`. */
  method FetchApps(c: Coordinator<App>, response: IndexResponse<App>) returns (request: string)
    requires c.config == Page
    modifies c
    ensures request == "./AppStore/index.json"
    ensures response.Loaded? ==> c.entries == response.entries && c.grid == Render(response.entries, "No matching apps found.")
    ensures !response.Loaded? ==> c.entries == old(c.entries) && c.grid == Notice("Store currently unavailable.")
    ensures c.cache == old(c.cache) && c.view == old(c.view) && c.viewer == old(c.viewer)
  {
    request := c.LoadIndex(response);
  }

  /** The search box handler. */
  method SearchApps(c: Coordinator<App>, raw: string)
    requires c.config == Page
    modifies c
    ensures c.grid == Render(Listed(c.entries, Searchable, raw), "No matching apps found.")
    ensures c.entries == old(c.entries) && c.cache == old(c.cache) && c.view == old(c.view) && c.viewer == old(c.viewer)
  {
    c.Search(raw);
  }

  /** `loadAppDetails` as written: it hides the grid and the hero, then builds the header from a
      template that reads `statusColor`, a name bound only inside the card loop of
      `renderAppGrid`. The ReferenceError rejects the async function before the cache is
      consulted, so nothing is fetched, cached or shown: the page is left in the detail view
      with the old (cleared) viewer. */
  method LoadAppDetailsAsWritten(c: Coordinator<App>, app: App) returns (request: Option<string>)
    requires c.config == Page
    modifies c
    ensures request.None?
    ensures c.view == Detail
    ensures c.entries == old(c.entries) && c.cache == old(c.cache) && c.grid == old(c.grid) && c.viewer == old(c.viewer)
  {
    c.view := Detail;
    request := None;
  }

  /** `loadAppDetails` as intended, with the header's badge coloured by `StatusColor(app.status)`:
      the coordinator's cached-or-fetched detail under `./AppStore/`. */
  method LoadAppDetails(c: Coordinator<App>, app: App, response: TextResponse) returns (request: Option<string>)
    requires c.config == Page
    modifies c
    ensures c.view == Detail
    ensures Hit(old(c.cache), app.fileName) ==>
      request.None? && c.cache == old(c.cache) && c.viewer == Document(app, RenderMarkdown(c.marked, old(c.cache)[app.fileName]))
    ensures !Hit(old(c.cache), app.fileName) ==> request == Some("./AppStore/" + app.fileName)
    ensures !Hit(old(c.cache), app.fileName) && response.Ok? ==>
      c.cache == old(c.cache)[app.fileName := response.text] && c.viewer == Document(app, RenderMarkdown(c.marked, response.text))
    ensures !Hit(old(c.cache), app.fileName) && !response.Ok? ==>
      c.cache == old(c.cache) && c.viewer == Failure(app, "Unavailable", "Description not found.")
    ensures c.entries == old(c.entries) && c.grid == old(c.grid)
  {
    request := c.Open(app, response);
  }

  /** The two versions on a fresh page and a reachable description: as written, opening the app
      requests nothing and leaves the viewer blank; as intended, it requests the description,
      caches it and shows it. */
  method DetailNeverRendersAsWritten() returns (asWritten: Option<string>, intended: Option<string>,
                                                 shownAsWritten: Viewer<App>, shownIntended: Viewer<App>)
    ensures asWritten.None? && shownAsWritten == Blank
    ensures intended == Some("./AppStore/notes.md") && shownIntended == Document(NotesApp(), "<pre># Notes</pre>")
  {
    var app := NotesApp();
    var before := new Coordinator(Page, None);
    asWritten := LoadAppDetailsAsWritten(before, app);
    shownAsWritten := before.viewer;
    var after := new Coordinator(Page, None);
    assert !Hit(after.cache, app.fileName);
    intended := LoadAppDetails(after, app, Ok("# Notes"));
    assert "./AppStore/" + app.fileName == "./AppStore/notes.md";
    assert RenderMarkdown(None, "# Notes") == "<pre># Notes</pre>";
    shownIntended := after.viewer;
  }

  /** The sample app of `DetailNeverRendersAsWritten`. */
  function NotesApp(): (app: App)
    ensures app.fileName == "notes.md" && app.status == "GA"
  {
    App("Notes", "A notebook", "Write things down", "GA", "", "", "", "notes.md")
  }

  /** `closeAppDetails`. */
  method CloseAppDetails(c: Coordinator<App>)
    requires c.config == Page
    modifies c
    ensures c.view == Listing && c.viewer == Blank
    ensures c.entries == old(c.entries) && c.cache == old(c.cache) && c.grid == old(c.grid)
  {
    c.Close();
  }
}
