/**
  MatrixLibrary.js: the asset exchange, an instance of the coordinator with no
  content files: the detail view is built from the asset's own fields. Assets
  are searched by title, description, stack and category, and priced with a
  colour that tells free, dollar-priced and other assets apart.
 */
module MatrixLibrary {
  import opened Wrappers
  import opened Text
  import opened Net
  import opened Display
  import opened Search
  import opened Coordination

  /** A record of `./MatrixLibrary/index.json`. */
  datatype Asset = Asset(
    title: string,
    description: string,
    stack: string,
    category: string,
    price: string,
    releaseDate: string,
    link: string)

  function Searchable(asset: Asset): seq<string>
  {
    [asset.title, asset.description, asset.stack, asset.category]
  }

  const Page: Config<Asset> := Config(
    "./MatrixLibrary/index.json",
    Searchable,
    "Exchange offline.",
    "No assets found.",
    None)

  /** An asset is free when its price is exactly "Open Source" or "Free". */
  predicate IsFree(asset: Asset)
  {
    asset.price == "Open Source" || asset.price == "Free"
  }

  /** The card's price colour: green for a free asset, pink for a price mentioning a dollar
      sign, amber for anything else. */
  function PriceColor(asset: Asset): (colour: string)
    ensures colour == "#34d399" <==> IsFree(asset)
    ensures colour == "#f472b6" <==> !IsFree(asset) && Contains(asset.price, "$")
    ensures colour == "#fbbf24" <==> !IsFree(asset) && !Contains(asset.price, "$")
  {
    if IsFree(asset) then "#34d399"
    else if Contains(asset.price, "$") then "#f472b6"
    else "#fbbf24"
  }

  /** The detail page's launch button: its text and background. */
  datatype LaunchButton = LaunchButton(text: string, background: string, target: string)

  /** A free asset offers "Access Source" on green, any other "Launch Project" on amber; both
      open the asset's link. */
  function Launch(asset: Asset): (button: LaunchButton)
    ensures button.text == "Access Source" <==> IsFree(asset)
    ensures button.text == "Launch Project" <==> !IsFree(asset)
    ensures button.background == "#34d399" <==> IsFree(asset)
    ensures button.target == asset.link
  {
    if IsFree(asset) then LaunchButton("Access Source", "#34d399", asset.link)
    else LaunchButton("Launch Project", "#f59e0b", asset.link)
  }

  /** The card and the detail page agree: the price is green exactly when the detail offers the
      source, and the launch button is green exactly when the price is. */
  lemma CardAgreesWithDetail(asset: Asset)
    ensures PriceColor(asset) == "#34d399" <==> Launch(asset).text == "Access Source"
    ensures PriceColor(asset) == Launch(asset).background || !IsFree(asset)
  {
  }

  /** A non-empty term lists an asset exactly when its title, description, stack or category
      contains it. */
  lemma SearchMatchesFourFields(all: seq<Asset>, raw: string, asset: Asset)
    requires raw != ""
    ensures var term := Lower(raw);
      asset in Listed(all, Searchable, raw) <==>
        (asset in all &&
         (Contains(Lower(asset.title), term) || Contains(Lower(asset.description), term) ||
          Contains(Lower(asset.stack), term) || Contains(Lower(asset.category), term)))
  {
    ListedMember(all, Searchable, raw, asset);
    var fs, term := Searchable(asset), Lower(raw);
    if AnyFieldContains(fs, term) {
      var i :| 0 <= i < |fs| && Contains(Lower(fs[i]), term);
      assert i == 0 || i == 1 || i == 2 || i == 3;
    }
    if Contains(Lower(asset.title), term) { assert Contains(Lower(fs[0]), term); }
    if Contains(Lower(asset.description), term) { assert Contains(Lower(fs[1]), term); }
    if Contains(Lower(asset.stack), term) { assert Contains(Lower(fs[2]), term); }
    if Contains(Lower(asset.category), term) { assert Contains(Lower(fs[3]), term); }
  }

  /** `fetchMarket`. */
  method FetchMarket(c: Coordinator<Asset>, response: IndexResponse<Asset>) returns (request: string)
    requires c.config == Page
    modifies c
    ensures request == "./MatrixLibrary/index.json"
    ensures response.Loaded? ==> c.entries == response.entries && c.grid == Render(response.entries, "No assets found.")
    ensures !response.Loaded? ==> c.entries == old(c.entries) && c.grid == Notice("Exchange offline.")
    ensures c.cache == old(c.cache) && c.view == old(c.view) && c.viewer == old(c.viewer)
  {
    request := c.LoadIndex(response);
  }

  /** The search box handler. */
  method SearchMarket(c: Coordinator<Asset>, raw: string)
    requires c.config == Page
    modifies c
    ensures c.grid == Render(Listed(c.entries, Searchable, raw), "No assets found.")
    ensures c.entries == old(c.entries) && c.cache == old(c.cache) && c.view == old(c.view) && c.viewer == old(c.viewer)
  {
    c.Search(raw);
  }

  /** `loadAssetDetails`: synchronous, no fetch and no cache; the viewer shows the asset itself
      with its `Launch` button. */
  method LoadAssetDetails(c: Coordinator<Asset>, asset: Asset)
    requires c.config == Page
    modifies c
    ensures c.view == Detail && c.viewer == Summary(asset)
    ensures c.entries == old(c.entries) && c.cache == old(c.cache) && c.grid == old(c.grid)
  {
    c.OpenSummary(asset);
  }

  /** `closeAssetDetails`. */
  method CloseAssetDetails(c: Coordinator<Asset>)
    requires c.config == Page
    modifies c
    ensures c.view == Listing && c.viewer == Blank
    ensures c.entries == old(c.entries) && c.cache == old(c.cache) && c.grid == old(c.grid)
  {
    c.Close();
  }
}
