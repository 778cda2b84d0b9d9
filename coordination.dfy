/**
  The content coordinator that NeuralModels.js, AppEcology.js, Insights.js,
  MatrixLibrary.js, Analytics.js and ResearchLaboratory.js each repeat with their
  own field names: the module-level entry list and body cache, the grid, the
  listing/detail switch and the detail viewer, as one class configured per page.
 */
module Coordination {
  import opened Wrappers
  import opened Net
  import opened Display
  import opened Search
  import opened ContentCache

  /** Where a page's detail bodies come from: the entry's file name (also the cache key),
      the directory it is fetched from, and the heading and text shown when the fetch fails. */
  datatype Source<!E> = Source(fileName: E -> string, basePath: string, errorHeading: string, errorText: string)

  /** One page's configuration. `content` is `None` for a page whose detail is built from the
      entry alone, with no fetch and no cache. */
  datatype Config<!E> = Config(
    indexPath: string,
    searchable: E -> seq<string>,
    loadError: string,
    emptyNotice: string,
    content: Option<Source<E>>)

  class Coordinator<E> {
    const config: Config<E>
    const marked: Marked
    /** `allX`: the index as last loaded. */
    var entries: seq<E>
    /** `xContentCache`: bodies by file name. */
    var cache: Cache
    var view: View
    var grid: Grid<E>
    var viewer: Viewer<E>

    /** The page as the script finds it: nothing loaded, nothing cached, the listing shown and empty. */
    constructor (config: Config<E>, marked: Marked)
      ensures this.config == config && this.marked == marked
      ensures entries == [] && cache == map[] && view == Listing && grid == Cards([]) && viewer == Blank
    {
      this.config := config;
      this.marked := marked;
      entries := [];
      cache := map[];
      view := Listing;
      grid := Cards([]);
      viewer := Blank;
    }

    /** `fetchX`: load the index. Success replaces the entries and lists all of them; a refused or
        failed load keeps the entries and shows only the page's error notice. */
    method LoadIndex(response: IndexResponse<E>) returns (request: string)
      modifies this
      ensures request == config.indexPath
      ensures response.Loaded? ==> entries == response.entries && grid == Render(response.entries, config.emptyNotice)
      ensures !response.Loaded? ==> entries == old(entries) && grid == Notice(config.loadError)
      ensures cache == old(cache) && view == old(view) && viewer == old(viewer)
    {
      request := config.indexPath;
      if response.Loaded? {
        entries := response.entries;
        grid := Render(entries, config.emptyNotice);
      } else {
        grid := Notice(config.loadError);
      }
    }

    /** The search box's `input` handler: re-render the grid from `Listed`; the cache, the view
        and the viewer are not touched and nothing is fetched. */
    method Search(raw: string)
      modifies this`grid
      ensures grid == Render(Listed(entries, config.searchable, raw), config.emptyNotice)
    {
      var term := Text.Lower(raw);
      if term == "" {
        grid := Render(entries, config.emptyNotice);
        return;
      }
      var filtered := Matching(entries, config.searchable, term);
      grid := Render(filtered, config.emptyNotice);
    }

    /** `loadXDetails(e)` for a page with content files: switch to the detail view, then render
        the cached body, or fetch `basePath + fileName` and render (caching it) on an ok
        response, or show the page's error on a failed one. */
    method Open(e: E, response: TextResponse) returns (request: Option<string>)
      requires config.content.Some?
      modifies this`view, this`cache, this`viewer
      ensures view == Detail
      ensures var src := config.content.value;
        var r := Resolve(old(cache), src.fileName(e), src.basePath + src.fileName(e), response);
        && cache == r.cache
        && request == r.request
        && viewer == (if r.body.Some? then Document(e, RenderMarkdown(marked, r.body.value))
                      else Failure(e, src.errorHeading, src.errorText))
    {
      view := Detail;
      var src := config.content.value;
      var key := src.fileName(e);
      if Hit(cache, key) {
        viewer := Document(e, RenderMarkdown(marked, cache[key]));
        return None;
      }
      request := Some(src.basePath + key);
      match response {
        case Ok(text) =>
          cache := cache[key := text];
          viewer := Document(e, RenderMarkdown(marked, text));
        case _ =>
          viewer := Failure(e, src.errorHeading, src.errorText);
      }
    }

    /** `loadXDetails(e)` for a page without content files: switch to the detail view and show the
        entry's own fields; no fetch, no cache. */
    method OpenSummary(e: E)
      requires config.content.None?
      modifies this`view, this`viewer
      ensures view == Detail && viewer == Summary(e)
    {
      view := Detail;
      viewer := Summary(e);
    }

    /** `closeXDetails`: clear the viewer and show the listing again. The new state does not depend
        on the old view or viewer, so closing twice is closing once. */
    method Close()
      modifies this`view, this`viewer
      ensures view == Listing && viewer == Blank
    {
      viewer := Blank;
      view := Listing;
    }
  }
}
