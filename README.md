# Content coordinator of the RanjanLabs mini-apps, in Dafny

The site is a set of static pages. Each page fetches a JSON index and renders it as a card grid. Most pages filter that grid from a search box. When an entry is opened, the page fetches the entry's Markdown or HTML file into a detail viewer, caching the body by file name. This project models that coordinator:

- once as a configurable class, `Coordination.Coordinator`, used by the six pages that repeat it (NeuralModels, AppEcology, Insights, MatrixLibrary, Analytics, ResearchLaboratory);
- once per page, with its own constants, colour badges and field lists;
- as separate classes for the four pages that differ:
  - the course catalogue (TechStack.js), which sorts newest first and reveals the list in batches of four;
  - the tool directory (tools.js), which grows in chunks of five and stops growing once a tool is selected;
  - the blog home (index.js), which has a folder filter, a reader and a joined-text search;
  - the tool workbench (ToolLab.js).

Shared modules:

- `Text` covers ASCII lower-casing, `includes` and the `a || b` fallback.
- `Sequences` covers `filter` and `find`.
- `Search` covers the search-box semantics.
- `Display` covers what is on screen: the listing or detail view, cards or a notice, and the viewer contents.
- `ContentCache` covers the truthy-hit cache discipline and what a whole session of opens does with it.
- `Numbers` holds `Math.min`, shared by the two paging pages.
- `Net` supplies fetch outcomes. They are inputs: a fetch is never performed. A text fetch is ok, non-ok with a readable body, or thrown. An index fetch is decoded, refused or unreachable.
- `marked` is an optional parse function, passed in as a parameter.

Behaviours of the code that a reader might not expect, which the model keeps:

- On the blog home, clearing the search lists every post of every folder, not the "blog" listing shown at load (`BlogIndex.EmptyTermListsEveryPost`).
- A post whose file type is not "md" is inserted raw; this is not an error.
- No page guards against a late response overwriting a newer one.
- A cached empty body counts as a miss and is fetched again (`ContentCache.EmptyBodyIsFetchedAgain`).

## Model

| member | source | states |
|---|---|---|
| Text.Lower | NeuralModels.js:196 | `toLowerCase` keeps the length and lower-cases each character independently |
| Text.LowerIdempotent | NeuralModels.js:196 | lower-casing an already lower-cased term changes nothing |
| Text.LowerAppend | index.js:165 | lower-casing the joined title+summary+content is joining the lower-cased fields |
| Text.Contains | NeuralModels.js:204 | `s.includes(t)` holds exactly when `t` occurs in `s` at some position |
| Text.ContainsEmpty | ToolLab.js:114-118 | every string includes the empty term |
| Text.ContainsInLeft | index.js:165 | a term found in the first part of a concatenation is found in the whole |
| Text.ContainsInRight | index.js:165 | a term found in the second part of a concatenation is found in the whole |
| Text.MatchMaySpanBoundary | index.js:165 | "bc" occurs in "ab"+"cd" but in neither part, so a concatenation can match where no part does |
| Text.OrElse | TechStack.js:57 | `s || fallback` yields `s` when non-empty and `fallback` otherwise; it is empty only if both are |
| Sequences.Filter | NeuralModels.js:203-208 | `filter` keeps only entries of the list that satisfy the predicate, adds nothing, and keeps every entry that does as many times as the list holds it |
| Sequences.FilterIsSubsequence | NeuralModels.js:203-208 | the filtered list keeps the index's relative order |
| Sequences.FilterKeepsAll | ToolLab.js:115-118 | a predicate true of every entry leaves the list unchanged |
| Sequences.FindFirst | index.js:70-71 | `find` yields the first satisfying index, and none exactly when no entry satisfies it |
| Search.AnyFieldContains | NeuralModels.js:203-208 | the filter callback: an entry without searchable fields never matches, and the empty term matches any other entry |
| Search.Matching | NeuralModels.js:203-208 | the filter keeps only matching entries of the index, and every matching entry as many times as the index holds it |
| Search.Listed | NeuralModels.js:195-210 | the handler's list never grows the index; every entry the term selects (all of them for the empty term) is listed as often as the index holds it |
| Search.ListedEmptyInput | NeuralModels.js:198-201 | the `if (!term)` shortcut lists the whole index |
| Search.ListedExactly | NeuralModels.js:195-210 | a non-empty term lists exactly the entries with a matching field, as a subsequence of the index, each duplicate of a matching entry included |
| Search.ListedMember | NeuralModels.js:195-210 | an entry is listed iff it is in the index and one of its searchable fields contains the lower-cased term |
| Search.ListedIgnoresInputCase | NeuralModels.js:196 | typing a term in any case lists the same entries as typing it lower-cased |
| Search.EmptyTermMatchesAll | ToolLab.js:113-119 | filtering on the empty term keeps every entry, so the shortcut agrees with the filter it skips |
| Search.NothingListedMeansNoMatch | NeuralModels.js:46-49 | an empty result (the "no matching" notice) means that no entry has a matching field |
| Display.Render | NeuralModels.js:44-50 | the grid has cards exactly when the list is non-empty, the cards are the list, and otherwise the page's empty notice is shown |
| Display.RenderMarkdown | NeuralModels.js:179-193 | the body is `marked.parse(text)` when the renderer is present, else the text wrapped in `<pre>…</pre>` |
| Display.Badge | AppEcology.js:65-68 | an exact-match colour chain picks the colour of the first matching value, and the fallback when no value matches |
| ContentCache.Hit | NeuralModels.js:146 | `if (cache[key])`: an absent key and an empty (falsy) body are misses; a present non-empty body is a hit |
| ContentCache.Resolve | NeuralModels.js:146-167 | a request is issued iff the key is not a truthy hit, and it is for base+fileName; a hit renders the cached body; an ok miss stores and renders the text; any other miss caches nothing and renders the error |
| ContentCache.ResolveTouchesOnlyKey | NeuralModels.js:159 | opening one entry never changes another entry's cached body |
| ContentCache.EmptyBodyIsFetchedAgain | NeuralModels.js:146 | an ok empty body is stored but is falsy, so the next open fetches again |
| ContentCache.Replay | NeuralModels.js:146-167 | a session of opens issues exactly one request slot per open |
| ContentCache.CachedKeyIsNeverFetchedAgain | NeuralModels.js:146-147 | once a key holds a truthy body, no later open of it in the session issues a request, and its body never changes |
| ContentCache.FetchedAtMostOnceAfterSuccess | NeuralModels.js:146-159 | after a successful non-empty fetch of a key, later opens of it never issue a request |
| ContentCache.FailedKeyIsFetchedEveryTime | NeuralModels.js:155-166 | failures are not cached: until a fetch succeeds with a non-empty body, every open requests the file again and the key stays a miss |
| Coordination.Coordinator.constructor | NeuralModels.js:13-14 | a fresh page has an empty index and an empty cache, with the listing shown |
| Coordination.Coordinator.LoadIndex | NeuralModels.js:31-42 | requests the index path; success replaces the entries and renders them; failure keeps the entries and shows only the page's error notice; cache, view and viewer are untouched |
| Coordination.Coordinator.Search | NeuralModels.js:195-210 | the grid becomes `Render(Listed(...))`; nothing else changes |
| Coordination.Coordinator.Open | NeuralModels.js:103-167 | switches to the detail view; the cache, the request and the viewer are those of `Resolve` for the entry's file |
| Coordination.Coordinator.OpenSummary | MatrixLibrary.js:97-147 | a page without content files shows the entry itself, with no fetch and no cache change |
| Coordination.Coordinator.Close | NeuralModels.js:169-177 | the viewer is cleared and the listing shown, whatever the state before |
| NeuralModels.AccuracyColor | NeuralModels.js:56-58 | yellow exactly below 90, green exactly from 99, blue otherwise (including NaN) |
| NeuralModels.DetailColor | NeuralModels.js:109-111 | green exactly from 99; otherwise pink exactly when the type mentions "Experimental"; otherwise blue |
| NeuralModels.CardAndHeaderAgreeOnGreen | NeuralModels.js:56-58 | the card and the header highlight the same models in green |
| NeuralModels.SearchMatchesFourFields | NeuralModels.js:203-208 | a non-empty term lists a model iff its name, type, description or task contains it |
| NeuralModels.FetchModels | NeuralModels.js:31-42 | `./NeuralModels/index.json`; "Neural Core offline." on failure; "No matching models found." for an empty index |
| NeuralModels.SearchModels | NeuralModels.js:195-210 | the grid lists `Listed` over the four fields; nothing else changes |
| NeuralModels.LoadModelDetails | NeuralModels.js:103-167 | cached-or-fetched body from `./NeuralModels/<fileName>`; on failure, heading "Error" and text "Spec sheet not found." |
| NeuralModels.CloseModelDetails | NeuralModels.js:169-177 | the listing is back and the viewer is cleared; the index, cache and grid are kept |
| AppEcology.AppIcon | AppEcology.js:43-51 | the image when `iconURL` is set, else the inline `logoSVG` when set, else the default icon |
| AppEcology.StatusColor | AppEcology.js:65-68 | green iff GA, yellow iff Beta, pink iff Experimental, slate iff any other status |
| AppEcology.CardLabel | AppEcology.js:83 | "APK" iff the app has a download link, else "VIEW" |
| AppEcology.ActionButton | AppEcology.js:103-117 | a download of `apkLink` exactly when the card says "APK", else the install button |
| AppEcology.SearchMatchesTitleOrDescription | AppEcology.js:200-203 | a non-empty term lists an app iff its title or description contains it |
| AppEcology.FetchApps | AppEcology.js:30-41 | `./AppStore/index.json`; "Store currently unavailable." on failure; "No matching apps found." when empty |
| AppEcology.SearchApps | AppEcology.js:192-205 | the grid lists `Listed` over title and description |
| AppEcology.LoadAppDetailsAsWritten | AppEcology.js:97-133 | as written: the view switches to detail, then the header template throws, so nothing is requested, cached or shown |
| AppEcology.LoadAppDetails | AppEcology.js:97-164 | as intended: cached-or-fetched body from `./AppStore/<fileName>`; on failure, heading "Unavailable" and text "Description not found." |
| AppEcology.DetailNeverRendersAsWritten | AppEcology.js:133 | on a fresh page, the as-written open requests nothing and leaves the viewer blank; the intended open requests and shows the description |
| AppEcology.CloseAppDetails | AppEcology.js:166-174 | the listing is back and the viewer is cleared |
| Insights.AuthorField | Insights.js:190 | the author as the corrected search reads it; a missing author reads as empty |
| Insights.ImpactColor | Insights.js:55-57 | purple iff Strategic, gold iff Critical, crimson iff any other level; the same chain as at 96-98 |
| Insights.AuthorLine | Insights.js:119 | the author when present and non-empty, else "RanjanLabs Editorial"; never empty |
| Insights.SearchMatchesAnyField | Insights.js:186-192 | a non-empty term lists an article iff its title, summary, category, author (when present) or impact level contains it |
| Insights.SameFields | Insights.js:186-192 | matching against the searchable list is the handler's five-way disjunction |
| Insights.Throws | Insights.js:190 | the callback throws only on an article without an author, and never for the empty term |
| Insights.KeptAsWritten | Insights.js:186-192 | wherever the as-written callback does not throw, it keeps exactly what the corrected search keeps |
| Insights.FilterAsWritten | Insights.js:186-192 | the as-written filter aborts iff some article lacks an author and misses on title, summary and category; otherwise it equals the corrected filter |
| Insights.AuthorlessArticleAbortsSearch | Insights.js:190 | searching "b" over a signed and an authorless article aborts as written, while the corrected search lists the signed one |
| Insights.FetchNews | Insights.js:30-41 | `./Insights/index.json`; "Signal lost. Unable to retrieve feed." on failure; "No analysis found." when empty |
| Insights.SearchNewsAsWritten | Insights.js:178-194 | as written: the empty term lists all; otherwise the grid shows the filter's result, or keeps its old contents when the filter throws |
| Insights.SearchNews | Insights.js:178-194 | as intended: the grid lists `Listed` over the five fields, with a missing author matching nothing |
| Insights.LoadArticle | Insights.js:90-150 | cached-or-fetched body from `./Insights/<fileName>`; on failure, heading "Error 404" and text "Article file not found." |
| Insights.CloseArticle | Insights.js:152-160 | the listing is back and the viewer is cleared |
| MatrixLibrary.PriceColor | MatrixLibrary.js:54-59 | green iff the price is "Open Source" or "Free"; otherwise pink iff it contains "$", else amber |
| MatrixLibrary.Launch | MatrixLibrary.js:104-107 | "Access Source" on green iff free, else "Launch Project"; it always opens the asset's link |
| MatrixLibrary.CardAgreesWithDetail | MatrixLibrary.js:55 | the price is green exactly when the detail offers the source, and then the button is green too |
| MatrixLibrary.SearchMatchesFourFields | MatrixLibrary.js:167-172 | a non-empty term lists an asset iff its title, description, stack or category contains it |
| MatrixLibrary.FetchMarket | MatrixLibrary.js:28-39 | `./MatrixLibrary/index.json`; "Exchange offline." on failure; "No assets found." when empty |
| MatrixLibrary.SearchMarket | MatrixLibrary.js:159-174 | the grid lists `Listed` over the four fields |
| MatrixLibrary.LoadAssetDetails | MatrixLibrary.js:97-147 | the detail view shows the asset itself; no fetch and no cache |
| MatrixLibrary.CloseAssetDetails | MatrixLibrary.js:149-157 | the listing is back and the viewer is cleared |
| Analytics.ScopeColor | Analytics.js:57-59 | pink iff Security, yellow iff Forecasting, teal iff any other scope |
| Analytics.SearchMatchesThreeFields | Analytics.js:171-175 | a non-empty term lists a report iff its title, summary or scope contains it |
| Analytics.FetchReports | Analytics.js:31-42 | `./Analytics/index.json`; "Data link severed." on failure; "No records found." when empty |
| Analytics.SearchReports | Analytics.js:163-177 | the grid lists `Listed` over the three fields |
| Analytics.LoadReport | Analytics.js:92-134 | cached-or-fetched body from `./Analytics/<fileName>`; on failure, heading "Access Denied" and text "Report file not found." |
| Analytics.CloseReport | Analytics.js:136-145 | the listing view (hero, KPI section, grid) is back and the viewer is cleared |
| ResearchLaboratory.ClassificationColor | ResearchLaboratory.js:56-61 | pink iff Confidential, cyan iff Level 3 Access, slate iff anything else |
| ResearchLaboratory.SearchMatchesTitleOrCategory | ResearchLaboratory.js:174-177 | a non-empty term lists a document iff its title or category contains it (the summary is not searched) |
| ResearchLaboratory.FetchDocs | ResearchLaboratory.js:30-41 | `./ResearchLaboratory/index.json`; "System Error: Database unreachable." on failure; "No data modules found." when empty |
| ResearchLaboratory.SearchDocs | ResearchLaboratory.js:166-179 | the grid lists `Listed` over title and category |
| ResearchLaboratory.LoadDocument | ResearchLaboratory.js:95-137 | cached-or-fetched body from `./ResearchLaboratory/<fileName>`; on failure, heading "Error 404" and text "Data corrupted." |
| ResearchLaboratory.CloseDocument | ResearchLaboratory.js:139-147 | the listing is back and the viewer is cleared |
| Numbers.Min | TechStack.js:90 | `Math.min`: no larger than either argument and equal to one of them |
| TechStack.DisplayDate | TechStack.js:57 | the course's date, or "DATE UNKNOWN" when it has none; never empty |
| TechStack.CourseIcon | TechStack.js:47 | the course's own SVG when set, else the default icon |
| TechStack.Insert | TechStack.js:33 | inserting into a newest-first list keeps it newest first and adds exactly that course |
| TechStack.SortByDate | TechStack.js:33 | the sorted index is newest first and is a permutation of the fetched index |
| TechStack.NextIndex | TechStack.js:85-99 | the cursor stays put once every course is shown; otherwise it advances by 1 to 4 courses, by exactly 4 unless it reaches the end |
| TechStack.IndexAfter | TechStack.js:84-99 | the cursor after k batches never passes the end of the index nor 4k |
| TechStack.IndexAfterBatches | TechStack.js:84-128 | after k batches exactly the first min(4k, n) courses have cards |
| TechStack.AllShownAfterEnoughBatches | TechStack.js:84-128 | ceil(n/4) batches show every course |
| TechStack.CourseCatalog.constructor | TechStack.js:25-40 | requests `./TechStack/index.json`; a non-empty index is sorted newest first and its first batch shown; a failed fetch, or an empty index whose first batch throws, shows "System Error: Course manifest missing." with nothing loaded |
| TechStack.CourseCatalog.InitInfiniteScroll | TechStack.js:110-129 | the grid is emptied and the cursor rewound, then the first batch is shown; it throws exactly when the index is empty |
| TechStack.CourseCatalog.RenderNextBatch | TechStack.js:84-108 | appends the next cards in order and advances the cursor by `NextIndex`; the cards are always the sorted prefix up to the cursor; with no card on screen and nothing left it throws (`unobserve(null)`) and changes nothing |
| TechStack.CourseCatalog.LoadCourse | TechStack.js:132-169 | cached-or-fetched body from `./TechStack/<fileName>`; on failure, heading "Error 404" and text "Course file not found." |
| TechStack.CourseCatalog.CloseCourse | TechStack.js:171-179 | the listing is back and the viewer is cleared |
| Tools.Names | tools.js:35-40 | the sidebar lists every tool's name, in index order |
| Tools.CountAfter | tools.js:51-81 | the count after k chunks is a whole number of chunks and at most 5k |
| Tools.ChunksShown | tools.js:51-81 | after k chunks the count is a multiple of 5, under n+5, and the cards are the first min(5k, n) tools |
| Tools.NextChunkCount | tools.js:79 | advancing by a chunk keeps the count a multiple of five |
| Tools.ToolDirectory.constructor | tools.js:24-49 | requests `./ToolLab/index.json`; on success the sidebar lists all names and the first chunk is shown; failure shows "Failed to establish directory link." |
| Tools.ToolDirectory.RenderNextChunk | tools.js:51-81 | unless a tool is active or all are shown, appends the next ≤5 cards in order and adds 5 to the count; when a tool is active, every tool is shown or the link error is up, the directory is left as it was; it never leaves `isLoading` set |
| Tools.ToolDirectory.HandleToolSelection | tools.js:83-115 | an unknown id does nothing; otherwise it stops the directory, requests `./ToolLab`+fileName, and shows any read body (ok or not), or the error card when the fetch throws |
| Tools.ChunksStopAfterSelection | tools.js:87 | after a tool is selected, a scroll-triggered chunk changes nothing |
| BlogIndex.RecentPosts | index.js:129-133 | the load listing holds only "blog"-folder posts of the index, in index order, and every such post as often as the index holds it |
| BlogIndex.PostMatches | index.js:165 | the joined-text predicate; the empty term matches every post |
| BlogIndex.Matching | index.js:164-166 | the search lists only matching posts of the index, of any folder, in index order, and every post whose joined lower-cased text contains the term as often as the index holds it |
| BlogIndex.FieldMatchIsPostMatch | index.js:165 | a term in any single field matches the post |
| BlogIndex.MatchMaySpanFields | index.js:165 | a post can match on text straddling its title and summary |
| BlogIndex.EmptyTermListsEveryPost | index.js:164-166 | the empty term lists every post of the index, not only the "blog" folder |
| BlogIndex.RenderPost | index.js:93-97 | Markdown only for an "md" post when `marked` is present; otherwise the raw text |
| BlogIndex.LoadFailure | index.js:128-136 | "SYSTEM_FAILURE: " then "Metadata failed" for a non-ok status, or the thrown error's message |
| BlogIndex.Blog.constructor | index.js:7-8 | nothing is loaded or cached, and the reader is hidden |
| BlogIndex.Blog.LoadPosts | index.js:125-138 | keeps the whole index and lists its "blog" posts; failure shows `LoadFailure` |
| BlogIndex.Blog.OpenPost | index.js:69-98 | an unknown id does nothing; otherwise the reader is shown, the cache key and URL are `./Content/`+fileName, and the body is that of `Resolve` rendered by `RenderPost`, or the error placeholder |
| BlogIndex.Blog.HideReader | index.js:54-63 | the reader is hidden and its content kept |
| BlogIndex.Blog.Search | index.js:156-171 | the reader closes iff it was open and the term is non-empty; the grid shows `Matching`; the label gives the count, or `LATEST_TRANSMISSIONS` for the empty term |
| ToolLab.SidebarIcon | ToolLab.js:50-63 | the inline SVG first, else the image URL, else the default icon |
| ToolLab.Filtered | ToolLab.js:114-118 | the sidebar filter adds nothing and keeps every matching tool as often as the index holds it |
| ToolLab.FilteredIsListed | ToolLab.js:113-120 | the unshortcut filter lists the same tools as the other pages' shortcut search |
| ToolLab.SearchMatchesTitleOrContent | ToolLab.js:115-118 | a term lists a tool iff its title or searchable content contains it |
| ToolLab.Workbench.constructor | ToolLab.js:11 | no tools are loaded |
| ToolLab.Workbench.FetchTools | ToolLab.js:28-39 | `./ToolLab/index.json`; links every tool, or "No tools found." when empty; "Failed to load tools." on failure |
| ToolLab.Workbench.LoadTool | ToolLab.js:85-111 | requests `./ToolLab/`+fileName; an ok body is displayed; otherwise the error names the file; nothing is cached |
| ToolLab.Workbench.Search | ToolLab.js:113-120 | the sidebar lists `Filtered`, even for the empty term |

## Left out

- Styling, animations, `setTimeout` fades, scrolling, the scroll-to-top buttons, the Ctrl-K shortcut, sidebar toggling and nav highlighting: presentation only.
- Transient placeholders are not modelled. Each detail open is one atomic step from the awaited response, so the "Loading…"/"Initializing…" text is always replaced before the step ends. The same holds for the truncated loading literal at index.js:74. The truncated error literal at index.js:86 is the abstract `Unavailable` reader.
- Overlapping asynchronous handlers are not modelled, because steps are atomic: a slow response landing after a newer one cannot be expressed. No page guards against it.
- A fetch that never settles: a response is always an input.
- Lower-casing covers ASCII letters only; Unicode case mapping is left out.
- The caches are plain objects. Keys such as "constructor" that hit the prototype chain are not modelled; the cache is a map.
- `parseFloat` and `new Date` are inputs: `Model.accuracy` is the parsed number and `Course.dateKey` the parsed time. Their parsing, and NaN dates in the sort comparator, are left out.
- TechStack.SortByDate: does not state that the sort is stable, although it inserts each course ahead of equal keys in index order.
- The IntersectionObserver and the scroll geometry that trigger the next batch or chunk are left out. The model exposes `RenderNextBatch` and `RenderNextChunk` as operations a scroll may call.
- TechStack.CourseCatalog.RenderNextBatch: models a call made with the observer in place, as every call is (from `initInfiniteScroll` or the observer). After an empty index the observer exists but watches no card, so it never calls it again.
- TechStack.CourseCatalog.constructor: the catalogue loads once, in its constructor. The paging invariant is stated for that start-up load; a re-fetch after a failed load is not modelled.
- Tools.ToolDirectory.HandleToolSelection: ids are strings. The sidebar's `onclick="handleToolSelection('${tool.id}')"` passes a string while the cards pass the raw id, so numeric ids make sidebar clicks no-ops; that coercion is not modelled.
- Tools.ToolDirectory: a record missing `category` makes `toUpperCase` throw mid-chunk, which leaves `isLoading` stuck; this is not modelled.
- Script re-execution after a tool's HTML is inserted (ToolLab.js:95-101), the `location.reload()` back button (tools.js:101) and the `toggleSidebar` call after selection are left out.
- Other TypeErrors on records with missing fields, besides the Insights author, are not modelled: every other record field is a string.
- Detail headers are abstracted to the entry they are built from (`Document(entry, body)`); their HTML is not modelled. The viewer holds the entry and the rendered body or the error heading and text.

## Findings

| source | as written | input that shows it | evidently intended | confidence | as-written member | corrected member |
|---|---|---|---|---|---|---|
| AppEcology.js:133 | the detail header's template reads `statusColor`, which is bound only inside `renderAppGrid`'s card callback (line 65), so `loadAppDetails` throws a ReferenceError after hiding the grid | clicking any app card on a fresh page | colour the header badge with the status colour and show the cached or fetched description | not executed; high | AppEcology.LoadAppDetailsAsWritten, AppEcology.DetailNeverRendersAsWritten | AppEcology.LoadAppDetails |
| Insights.js:190 | the filter calls `art.author.toLowerCase()` on every article whose title, summary and category miss, and `author` is optional (line 119 supplies a default), so the handler throws and the grid is not updated | an index holding an article without `author`, searched for a term not in its title, summary or category, e.g. "b" | skip a missing author: list the articles whose other fields match | not executed; medium | Insights.FilterAsWritten, Insights.AuthorlessArticleAbortsSearch | Insights.SearchNews, Insights.SearchMatchesAnyField |
