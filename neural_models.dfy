/**
  NeuralModels.js: the model registry page, an instance of the coordinator whose
  entries are models, searched by name, type, description and task.
 */
module NeuralModels {
  import opened Wrappers
  import opened Text
  import opened Net
  import opened Display
  import opened Search
  import opened ContentCache
  import opened Coordination

  /** A record of `./NeuralModels/index.json`. `accuracy` is `parseFloat(model.accuracy)`,
      `None` when that is NaN. */
  datatype Model = Model(
    name: string,
    modelType: string,
    description: string,
    task: string,
    accuracy: Option<real>,
    fileName: string)

  /** The card's accuracy colour: yellow below 90, green from 99, blue otherwise and for an
      accuracy that is not a number (every comparison with NaN is false). */
  function AccuracyColor(m: Model): (colour: string)
    ensures colour == "#facc15" <==> m.accuracy.Some? && m.accuracy.value < 90.0
    ensures colour == "#34d399" <==> m.accuracy.Some? && m.accuracy.value >= 99.0
    ensures colour == "#60a5fa" <==> m.accuracy.None? || 90.0 <= m.accuracy.value < 99.0
  {
    match m.accuracy
    case Some(a) => if a < 90.0 then "#facc15" else if a >= 99.0 then "#34d399" else "#60a5fa"
    case None => "#60a5fa"
  }

  /** The detail header's colour: green from 99, else pink for a type mentioning
      "Experimental", else blue. */
  function DetailColor(m: Model): (colour: string)
    ensures colour == "#34d399" <==> m.accuracy.Some? && m.accuracy.value >= 99.0
    ensures colour == "#f472b6" <==> !(m.accuracy.Some? && m.accuracy.value >= 99.0) && Contains(m.modelType, "Experimental")
    ensures colour == "#60a5fa" <==> !(m.accuracy.Some? && m.accuracy.value >= 99.0) && !Contains(m.modelType, "Experimental")
  {
    if m.accuracy.Some? && m.accuracy.value >= 99.0 then "#34d399"
    else if Contains(m.modelType, "Experimental") then "#f472b6"
    else "#60a5fa"
  }

  /** The card and the detail header highlight the same models in green; a model the card
      shows in yellow is never green in its header. */
  lemma CardAndHeaderAgreeOnGreen(m: Model)
    ensures AccuracyColor(m) == "#34d399" <==> DetailColor(m) == "#34d399"
    ensures AccuracyColor(m) == "#facc15" ==> DetailColor(m) != "#34d399"
  {
  }

  /** The fields the search handler tests, in the order it tests them. */
  function Searchable(m: Model): seq<string>
  {
    [m.name, m.modelType, m.description, m.task]
  }

  const Page: Config<Model> := Config(
    "./NeuralModels/index.json",
    Searchable,
    "Neural Core offline.",
    "No matching models found.",
    Some(Source((m: Model) => m.fileName, "./NeuralModels/", "Error", "Spec sheet not found.")))

  /** A non-empty term lists a model exactly when its name, type, description or task,
      lower-cased, contains the lower-cased term. */
  lemma SearchMatchesFourFields(all: seq<Model>, raw: string, m: Model)
    requires raw != ""
    ensures var term := Lower(raw);
      m in Listed(all, Searchable, raw) <==>
        (m in all &&
         (Contains(Lower(m.name), term) || Contains(Lower(m.modelType), term) ||
          Contains(Lower(m.description), term) || Contains(Lower(m.task), term)))
  {
    ListedMember(all, Searchable, raw, m);
    var fs, term := Searchable(m), Lower(raw);
    if AnyFieldContains(fs, term) {
      var i :| 0 <= i < |fs| && Contains(Lower(fs[i]), term);
      assert i == 0 || i == 1 || i == 2 || i == 3;
    }
    if Contains(Lower(m.name), term) { assert Contains(Lower(fs[0]), term); }
    if Contains(Lower(m.modelType), term) { assert Contains(Lower(fs[1]), term); }
    if Contains(Lower(m.description), term) { assert Contains(Lower(fs[2]), term); }
    if Contains(Lower(m.task), term) { assert Contains(Lower(fs[3]), term); }
  }

  /** `fetchModels`: success replaces `allModels` and lists every model in index order (or the
      empty notice); a thrown error or non-ok status keeps `allModels` and shows only the error notice. */
  method FetchModels(c: Coordinator<Model>, response: IndexResponse<Model>) returns (request: string)
    requires c.config == Page
    modifies c
    ensures request == "./NeuralModels/index.json"
    ensures response.Loaded? ==> c.entries == response.entries && c.grid == Render(response.entries, "No matching models found.")
    ensures !response.Loaded? ==> c.entries == old(c.entries) && c.grid == Notice("Neural Core offline.")
    ensures c.cache == old(c.cache) && c.view == old(c.view) && c.viewer == old(c.viewer)
  {
    request := c.LoadIndex(response);
  }

  /** The search box handler: re-render from `allModels`; the cache, the view and the viewer are
      left alone and nothing is fetched. */
  method SearchModels(c: Coordinator<Model>, raw: string)
    requires c.config == Page
    modifies c
    ensures c.grid == Render(Listed(c.entries, Searchable, raw), "No matching models found.")
    ensures c.entries == old(c.entries) && c.cache == old(c.cache) && c.view == old(c.view) && c.viewer == old(c.viewer)
  {
    c.Search(raw);
  }

  /** `loadModelDetails`: a truthy cached body renders without a request; on a miss the body is
      fetched from `./NeuralModels/<fileName>`, cached and rendered when the response is ok, and
      an error is shown, with the cache untouched, when it is not. */
  method LoadModelDetails(c: Coordinator<Model>, m: Model, response: TextResponse) returns (request: Option<string>)
    requires c.config == Page
    modifies c
    ensures c.view == Detail
    ensures Hit(old(c.cache), m.fileName) ==>
      request.None? && c.cache == old(c.cache) && c.viewer == Document(m, RenderMarkdown(c.marked, old(c.cache)[m.fileName]))
    ensures !Hit(old(c.cache), m.fileName) ==> request == Some("./NeuralModels/" + m.fileName)
    ensures !Hit(old(c.cache), m.fileName) && response.Ok? ==>
      c.cache == old(c.cache)[m.fileName := response.text] && c.viewer == Document(m, RenderMarkdown(c.marked, response.text))
    ensures !Hit(old(c.cache), m.fileName) && !response.Ok? ==>
      c.cache == old(c.cache) && c.viewer == Failure(m, "Error", "Spec sheet not found.")
    ensures c.entries == old(c.entries) && c.grid == old(c.grid)
  {
    request := c.Open(m, response);
  }

  /** `closeModelDetails`: clear the viewer and show the hero and the grid again. */
  method CloseModelDetails(c: Coordinator<Model>)
    requires c.config == Page
    modifies c
    ensures c.view == Listing && c.viewer == Blank
    ensures c.entries == old(c.entries) && c.cache == old(c.cache) && c.grid == old(c.grid)
  {
    c.Close();
  }
}
