/**
  tools.js: the tool directory shell. The index fills a sidebar with every tool's
  name and a directory that grows by chunks of five as the reader scrolls to the
  bottom; selecting a tool replaces the workspace with the tool's content and
  stops the directory from growing.
 */
module Tools {
  import opened Wrappers
  import opened Net
  import opened Display
  import opened Sequences
  import opened Numbers

  /** A record of `./ToolLab/index.json`, as the directory reads it. */
  datatype Tool = Tool(id: string, name: string, category: string, description: string, fileName: string)

  /** The index is fetched from here at start-up. */
  const IndexPath := "./ToolLab/index.json"
  /** `TOOLS_CONTENT_BASE`: the file name is appended to it with no separator. */
  const ContentBase := "./ToolLab"
  /** `CHUNK_SIZE`. */
  const ChunkSize := 5

  /** The sidebar: every tool's name, in index order. */
  function Names(tools: seq<Tool>): (names: seq<string>)
    ensures |names| == |tools|
    ensures forall i :: 0 <= i < |tools| ==> names[i] == tools[i].name
  {
    if tools == [] then [] else [tools[0].name] + Names(tools[1..])
  }

  /** The main workspace: the directory, a selected tool's page with its fetched content, or
      the load error card. */
  datatype Workspace = DirectoryShown | ToolPage(tool: Tool, content: string) | LoadError

  /** `displayedCount` after `chunks` calls of `renderNextChunk` over `n` tools, none of them
      after a selection. */
  function CountAfter(n: nat, chunks: nat): (count: nat)
    // the count moves in whole chunks, at most one per call
    ensures count % ChunkSize == 0
    ensures count <= ChunkSize * chunks
  {
    if chunks == 0 then 0
    else
      var before := CountAfter(n, chunks - 1);
      if before >= n then before else NextChunkCount(before); before + ChunkSize
  }

  /** The count moves in whole chunks and stops at the first multiple of five that covers the
      index, so the cards shown after `k` chunks are the first `min(5k, n)` tools. */
  lemma {:induction false} ChunksShown(n: nat, k: nat)
    ensures CountAfter(n, k) < n + ChunkSize
    ensures Min(CountAfter(n, k), n) == Min(ChunkSize * k, n)
  {
    if k > 0 {
      ChunksShown(n, k - 1);
    }
  }

  /** Adding a chunk keeps the count a whole number of chunks. */
  lemma NextChunkCount(count: nat)
    requires count % ChunkSize == 0
    ensures (count + ChunkSize) % ChunkSize == 0
  {
    var q := count / ChunkSize;
    assert count == ChunkSize * q;
    assert count + ChunkSize == ChunkSize * (q + 1);
  }

  class ToolDirectory {
    var allTools: seq<Tool>
    var displayedCount: nat
    var isLoading: bool
    var isToolActive: bool
    var sidebar: seq<string>
    /** `#tool-directory`: the cards appended so far, or the link error. */
    var directory: Grid<Tool>
    var workspace: Workspace
    /** The URL the start-up script fetched the index from. */
    const indexRequest: string

    /** Between handlers: no chunk is half-rendered, the count is a whole number of chunks and
        overshoots the index by less than one chunk, and the cards are a prefix of the index. */
    ghost predicate Valid()
      reads this
    {
      && !isLoading
      && displayedCount % ChunkSize == 0
      && displayedCount < |allTools| + ChunkSize
      && (directory.Cards? ==> directory.items == allTools[..Min(displayedCount, |allTools|)])
      && (directory.Notice? ==> allTools == [] && displayedCount == 0)
    }

    /** `DOMContentLoaded` then `initToolLab()`, its index fetch answered by `response`. On
        success the sidebar lists every name and the first chunk is rendered; on failure the
        directory shows the link error and nothing is listed. */
    constructor (response: IndexResponse<Tool>)
      ensures Valid()
      ensures indexRequest == IndexPath
      ensures !isToolActive && workspace == DirectoryShown
      ensures response.Loaded? ==>
        && allTools == response.entries
        && sidebar == Names(response.entries)
        && displayedCount == CountAfter(|allTools|, 1)
        && directory == Cards(allTools[..Min(ChunkSize, |allTools|)])
      ensures !response.Loaded? ==>
        allTools == [] && sidebar == [] && displayedCount == 0 && directory == Notice("Failed to establish directory link.")
    {
      indexRequest := IndexPath;
      allTools := if response.Loaded? then response.entries else [];
      sidebar := if response.Loaded? then Names(response.entries) else [];
      displayedCount := 0;
      isLoading := false;
      isToolActive := false;
      directory := if response.Loaded? then Cards([]) else Notice("Failed to establish directory link.");
      workspace := DirectoryShown;
      new;
      if response.Loaded? {
        RenderNextChunk();
      }
    }

    /** `renderNextChunk`: unless a tool is active or every tool already has a card, append the
        cards of the next (at most five) tools in order and advance the count by a whole chunk. */
    method RenderNextChunk()
      requires Valid()
      modifies this`directory, this`displayedCount, this`isLoading
      ensures Valid()
      ensures displayedCount ==
        (if isToolActive || old(displayedCount) >= |allTools| then old(displayedCount) else old(displayedCount) + ChunkSize)
      ensures isToolActive ==> directory == old(directory)
      ensures old(displayedCount) >= |allTools| ==> directory == old(directory)
      ensures old(directory).Notice? ==> directory == old(directory)
      ensures old(directory).Cards? ==> directory == Cards(allTools[..Min(displayedCount, |allTools|)])
    {
      if isToolActive || isLoading || displayedCount >= |allTools| {
        return;
      }
      isLoading := true;
      var end := Min(displayedCount + ChunkSize, |allTools|);
      var nextChunk := allTools[displayedCount..end];
      assert |nextChunk| == end - displayedCount;
      var k := 0;
      while k < |nextChunk|
        invariant 0 <= k <= |nextChunk|
        invariant displayedCount + k <= end <= |allTools|
        invariant directory == Cards(allTools[..displayedCount + k])
        modifies this`directory
      {
        assert allTools[..displayedCount + k + 1] == allTools[..displayedCount + k] + [nextChunk[k]];
        directory := Cards(directory.items + [nextChunk[k]]);
        k := k + 1;
      }
      assert allTools[..end] == allTools[..Min(displayedCount + ChunkSize, |allTools|)];
      NextChunkCount(displayedCount);
      displayedCount := displayedCount + ChunkSize;
      isLoading := false;
    }

    /** `handleToolSelection(toolId)`: an unknown id does nothing. Otherwise the directory stops
        growing and `./ToolLab<fileName>` is requested; any response whose body was read, ok or
        not, replaces the workspace with the tool's page, and a thrown error with the error card. */
    method HandleToolSelection(toolId: string, response: TextResponse) returns (request: Option<string>)
      modifies this`isToolActive, this`workspace
      ensures var found := FindFirst(allTools, (t: Tool) => t.id == toolId);
        && (found.None? ==> request.None? && isToolActive == old(isToolActive) && workspace == old(workspace))
        && (found.Some? ==>
              && isToolActive
              && request == Some(ContentBase + allTools[found.value].fileName)
              && workspace == (if response.Error? then LoadError else ToolPage(allTools[found.value], response.text)))
    {
      var found := FindFirst(allTools, (t: Tool) => t.id == toolId);
      if found.None? {
        return None;
      }
      var tool := allTools[found.value];
      isToolActive := true;
      request := Some(ContentBase + tool.fileName);
      match response
      case Error =>
        workspace := LoadError;
      case _ =>
        workspace := ToolPage(tool, response.text);
    }
  }

  /** Once a tool is active, scrolling never renders another chunk. */
  method ChunksStopAfterSelection(d: ToolDirectory, toolId: string, response: TextResponse)
    requires d.Valid()
    requires exists i :: 0 <= i < |d.allTools| && d.allTools[i].id == toolId
    modifies d
    ensures d.isToolActive && d.directory == old(d.directory) && d.displayedCount == old(d.displayedCount)
  {
    var _ := d.HandleToolSelection(toolId, response);
    d.RenderNextChunk();
  }
}
