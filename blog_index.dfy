/**
  index.js: the blog home page. The index's "blog" folder is listed at load; a
  post opens in a reader that replaces the hero, the label and the grid; the
  search box filters every post (of any folder) on its joined title, summary
  and searchable content, and a non-empty term closes the reader.
 */
module BlogIndex {
  import opened Wrappers
  import opened Text
  import opened Sequences
  import opened Net
  import opened Display
  import opened ContentCache

  /** A record of `./Content/index.json`. */
  datatype Post = Post(
    id: int,
    title: string,
    summary: string,
    searchableContent: string,
    fileName: string,
    fileType: string,
    folder: string,
    date: string)

  const IndexPath := "./Content/index.json"
  const ContentBase := "./Content/"
  /** `RECENT_POST_FOLDER`. */
  const RecentFolder := "blog"
  const EmptyNotice := "No transmissions found."

  /** The reader's article: as the page builds it (empty), a rendered body, or the error
      placeholder shown when the post's file cannot be fetched. */
  datatype Reader = EmptyReader | Rendered(html: string) | Unavailable

  /** The label above the grid: as the page's markup has it, `LATEST_TRANSMISSIONS`, or
      `SEARCH_RESULTS: <count>`. */
  datatype Label = PageLabel | LatestTransmissions | SearchResults(count: nat)

  /** The posts listed at load: those in the "blog" folder, in index order. */
  function RecentPosts(all: seq<Post>): (recent: seq<Post>)
    ensures forall i :: 0 <= i < |recent| ==> recent[i] in all && recent[i].folder == RecentFolder
    ensures forall i :: 0 <= i < |all| && all[i].folder == RecentFolder ==> all[i] in recent
    // in index order, adding nothing and keeping every "blog" post as often as the index holds it
    ensures Subsequence(recent, all)
    ensures multiset(recent) <= multiset(all)
    ensures forall i :: 0 <= i < |all| && all[i].folder == RecentFolder ==> multiset(recent)[all[i]] == multiset(all)[all[i]]
  {
    FilterIsSubsequence(all, (p: Post) => p.folder == RecentFolder);
    Filter(all, (p: Post) => p.folder == RecentFolder)
  }

  /** The search predicate: the term occurs in the lower-cased concatenation of title, summary
      and searchable content. */
  predicate PostMatches(p: Post, term: string): (b: bool)
    // the empty term matches every post
    ensures term == "" ==> b
  {
    ContainsEmpty(Lower(p.title + p.summary + p.searchableContent));
    Contains(Lower(p.title + p.summary + p.searchableContent), term)
  }

  /** The posts a term lists: every post of the index, whatever its folder, that matches. */
  function Matching(all: seq<Post>, term: string): (found: seq<Post>)
    ensures forall i :: 0 <= i < |found| ==> found[i] in all && PostMatches(found[i], term)
    ensures forall i :: 0 <= i < |all| && PostMatches(all[i], term) ==> all[i] in found
    ensures multiset(found) <= multiset(all)
    ensures forall i :: 0 <= i < |all| && PostMatches(all[i], term) ==> multiset(found)[all[i]] == multiset(all)[all[i]]
    ensures Subsequence(found, all)
  {
    FilterIsSubsequence(all, (p: Post) => PostMatches(p, term));
    Filter(all, (p: Post) => PostMatches(p, term))
  }

  /** A term found in any one field is found in the joined text. */
  lemma FieldMatchIsPostMatch(p: Post, term: string)
    requires Contains(Lower(p.title), term) || Contains(Lower(p.summary), term) || Contains(Lower(p.searchableContent), term)
    ensures PostMatches(p, term)
  {
    LowerAppend(p.title, p.summary);
    LowerAppend(p.title + p.summary, p.searchableContent);
    var t, s, c := Lower(p.title), Lower(p.summary), Lower(p.searchableContent);
    assert Lower(p.title + p.summary + p.searchableContent) == (t + s) + c;
    if Contains(t, term) {
      ContainsInLeft(t, s, term);
      ContainsInLeft(t + s, c, term);
    } else if Contains(s, term) {
      ContainsInRight(t, s, term);
      ContainsInLeft(t + s, c, term);
    } else {
      ContainsInRight(t + s, c, term);
    }
  }

  /** The converse fails: a match may straddle the boundary between two fields. */
  lemma MatchMaySpanFields()
    ensures var p := Post(1, "ab", "cd", "", "a.md", "md", "blog", "");
      PostMatches(p, "bc") && !Contains(Lower(p.title), "bc") && !Contains(Lower(p.summary), "bc")
  {
    MatchMaySpanBoundary();
    assert Lower("ab") == "ab";
    assert Lower("cd") == "cd";
    LowerAppend("ab", "cd");
    assert "ab" + "cd" + "" == "ab" + "cd";
  }

  /** The empty term matches every post, so clearing the search lists the whole index, not
      the "blog" folder the page listed at load. */
  lemma EmptyTermListsEveryPost(all: seq<Post>)
    ensures Matching(all, "") == all
  {
    FilterKeepsAll(all, (p: Post) => PostMatches(p, ""));
  }

  /** `openPost`'s rendering: Markdown only for an "md" post when the renderer is present;
      any other post, or no renderer, inserts the raw text. */
  function RenderPost(marked: Marked, post: Post, raw: string): (html: string)
    ensures post.fileType == "md" && marked.Some? ==> html == marked.value(raw)
    ensures post.fileType != "md" || marked.None? ==> html == raw
  {
    if post.fileType == "md" && marked.Some? then marked.value(raw) else raw
  }

  /** The message the listing shows when the index load fails: `SYSTEM_FAILURE: ` and the
      error's message, which is "Metadata failed" for a non-ok status. */
  function LoadFailure(response: IndexResponse<Post>): (message: string)
    requires !response.Loaded?
    ensures response.Refused? ==> message == "SYSTEM_FAILURE: Metadata failed"
    ensures response.Unreachable? ==> message == "SYSTEM_FAILURE: " + response.reason
  {
    match response
    case Refused => "SYSTEM_FAILURE: Metadata failed"
    case Unreachable(reason) => "SYSTEM_FAILURE: " + reason
  }

  class Blog {
    const marked: Marked
    /** `allLoadedBlogPosts`. */
    var allPosts: seq<Post>
    /** `blogContentCache`, keyed by the full content path. */
    var cache: Cache
    /** Whether the reader is displayed (and the hero, label and grid hidden). */
    var readerVisible: bool
    var reader: Reader
    var heading: Label
    /** `#recent-posts`. */
    var grid: Grid<Post>

    /** The page before its index arrives: reader built and hidden, nothing loaded or cached. */
    constructor (marked: Marked)
      ensures this.marked == marked
      ensures allPosts == [] && cache == map[] && !readerVisible && reader == EmptyReader
      ensures heading == PageLabel && grid == Cards([])
    {
      this.marked := marked;
      allPosts := [];
      cache := map[];
      readerVisible := false;
      reader := EmptyReader;
      heading := PageLabel;
      grid := Cards([]);
    }

    /** The start-up loader: keep the whole index, list its "blog" posts; on failure show the
        failure message and keep the index as it was. */
    method LoadPosts(response: IndexResponse<Post>) returns (request: string)
      modifies this`allPosts, this`grid
      ensures request == IndexPath
      ensures response.Loaded? ==>
        allPosts == response.entries && grid == Render(RecentPosts(response.entries), EmptyNotice)
      ensures !response.Loaded? ==> allPosts == old(allPosts) && grid == Notice(LoadFailure(response))
    {
      request := IndexPath;
      match response
      case Loaded(entries) =>
        allPosts := entries;
        grid := Render(RecentPosts(allPosts), EmptyNotice);
      case _ =>
        grid := Notice(LoadFailure(response));
    }

    /** `openPost(postId)`: an unknown id changes nothing. Otherwise the reader is shown; the
        body under `./Content/<fileName>` comes from the cache when truthy, else from a fetch
        whose ok text is cached; a failed fetch shows the error placeholder. */
    method OpenPost(postId: int, response: TextResponse) returns (request: Option<string>)
      modifies this`readerVisible, this`cache, this`reader
      ensures var found := FindFirst(allPosts, (p: Post) => p.id == postId);
        && (found.None? ==>
              request.None? && readerVisible == old(readerVisible) && cache == old(cache) && reader == old(reader))
        && (found.Some? ==>
              var post := allPosts[found.value];
              var path := ContentBase + post.fileName;
              var r := Resolve(old(cache), path, path, response);
              && readerVisible
              && cache == r.cache
              && request == r.request
              && reader == (if r.body.Some? then Rendered(RenderPost(marked, post, r.body.value)) else Unavailable))
    {
      var found := FindFirst(allPosts, (p: Post) => p.id == postId);
      if found.None? {
        return None;
      }
      var post := allPosts[found.value];
      readerVisible := true;
      var contentPath := ContentBase + post.fileName;
      request := None;
      if !Hit(cache, contentPath) {
        request := Some(contentPath);
        if !response.Ok? {
          reader := Unavailable;
          return;
        }
        cache := cache[contentPath := response.text];
      }
      reader := Rendered(RenderPost(marked, post, cache[contentPath]));
    }

    /** `hideReader`: the reader is hidden and the listing shown; its content is kept. */
    method HideReader()
      modifies this`readerVisible
      ensures !readerVisible
    {
      readerVisible := false;
    }

    /** The search box handler: a non-empty term closes the reader; the grid lists every
        matching post and the label counts them, or reads `LATEST_TRANSMISSIONS` for the empty
        term. */
    method Search(raw: string)
      modifies this`readerVisible, this`heading, this`grid
      ensures var term := Lower(raw);
        && readerVisible == (old(readerVisible) && term == "")
        && grid == Render(Matching(allPosts, term), EmptyNotice)
        && heading == (if term != "" then SearchResults(|Matching(allPosts, term)|) else LatestTransmissions)
    {
      var term := Lower(raw);
      if readerVisible && |term| > 0 {
        HideReader();
      }
      var filtered := Matching(allPosts, term);
      heading := if term != "" then SearchResults(|filtered|) else LatestTransmissions;
      grid := Render(filtered, EmptyNotice);
    }
  }
}
