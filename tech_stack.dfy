/**
  TechStack.js: the course catalogue. Unlike the other content pages it sorts its
  index newest first, has no search, and reveals the sorted list in batches of
  four as the reader scrolls to the last card.
 */
module TechStack {
  import opened Wrappers
  import opened Text
  import opened Net
  import opened Display
  import opened ContentCache
  import opened Numbers

  /** A record of `./TechStack/index.json`. `dateKey` is the time `new Date(date)` denotes,
      the key the index is sorted by; `iconSVG` is empty when the record has none. */
  datatype Course = Course(
    title: string,
    summary: string,
    language: string,
    date: string,
    dateKey: int,
    iconSVG: string,
    fileName: string)

  /** The index is fetched from here at start-up. */
  const IndexPath := "./TechStack/index.json"
  const BasePath := "./TechStack/"
  /** `ITEMS_PER_LOAD`. */
  const ItemsPerLoad := 4
  /** What the grid shows when `fetchCourses` fails. */
  const ManifestError := "System Error: Course manifest missing."

  /** The card's date: the record's date, or "DATE UNKNOWN" when it has none. */
  function DisplayDate(course: Course): (shown: string)
    ensures shown != ""
    ensures course.date != "" ==> shown == course.date
    ensures course.date == "" ==> shown == "DATE UNKNOWN"
  {
    OrElse(course.date, "DATE UNKNOWN")
  }

  /** The card's icon: the record's own SVG, or the default clipboard SVG. */
  function CourseIcon(course: Course): (icon: Icon)
    ensures icon.InlineSvg? <==> course.iconSVG != ""
    ensures icon.InlineSvg? ==> icon.markup == course.iconSVG
    ensures icon.DefaultIcon? <==> course.iconSVG == ""
  {
    if course.iconSVG != "" then InlineSvg(course.iconSVG) else DefaultIcon
  }

  /** Newest first: no course is older than a course after it. */
  predicate NewestFirst(courses: seq<Course>)
  {
    forall i, j :: 0 <= i < j < |courses| ==> courses[i].dateKey >= courses[j].dateKey
  }

  /** No course of `courses` is newer than `top`. */
  predicate NoneNewerThan(courses: seq<Course>, top: int)
  {
    forall k :: 0 <= k < |courses| ==> courses[k].dateKey <= top
  }

  /** A course no older than any of a newest-first list can go in front of it. */
  lemma PrependNewest(c: Course, sorted: seq<Course>)
    requires NewestFirst(sorted) && NoneNewerThan(sorted, c.dateKey)
    ensures NewestFirst([c] + sorted)
  {
  }

  /** Adding `c` to the courses of `tail` keeps every course at most `top`, when `c` is. */
  lemma NoneNewerThanAdded(r: seq<Course>, tail: seq<Course>, c: Course, top: int)
    requires multiset(r) == multiset(tail) + multiset{c}
    requires NoneNewerThan(tail, top) && c.dateKey <= top
    ensures NoneNewerThan(r, top)
  {
    forall k | 0 <= k < |r|
      ensures r[k].dateKey <= top
    {
      assert r[k] in multiset(r);
      if r[k] != c {
        assert r[k] in multiset(tail);
      }
    }
  }

  /** Insert `c` into a newest-first list, ahead of every course no newer than it. */
  function Insert(c: Course, sorted: seq<Course>): (r: seq<Course>)
    requires NewestFirst(sorted)
    ensures NewestFirst(r)
    ensures multiset(r) == multiset(sorted) + multiset{c}
    decreases |sorted|
  {
    if sorted == [] then [c]
    else if c.dateKey >= sorted[0].dateKey then
      PrependNewest(c, sorted);
      [c] + sorted
    else
      var rest := Insert(c, sorted[1..]);
      assert sorted == [sorted[0]] + sorted[1..];
      NoneNewerThanAdded(rest, sorted[1..], c, sorted[0].dateKey);
      PrependNewest(sorted[0], rest);
      [sorted[0]] + rest
  }

  /** `allCourses.sort((a, b) => new Date(b.date) - new Date(a.date))`: the same courses,
      newest first. */
  function SortByDate(courses: seq<Course>): (r: seq<Course>)
    ensures NewestFirst(r)
    ensures multiset(r) == multiset(courses)
    ensures |r| == |courses|
    decreases |courses|
  {
    if courses == [] then []
    else
      assert courses == [courses[0]] + courses[1..];
      var r := Insert(courses[0], SortByDate(courses[1..]));
      assert |r| == |multiset(r)|;
      r
  }

  /** The index `renderNextBatch` leaves behind, starting from `current` over `n` courses:
      unchanged once everything is shown, otherwise up to four further. */
  function NextIndex(current: nat, n: nat): (next: nat)
    ensures current >= n ==> next == current
    ensures current < n ==> current < next <= n && next - current <= ItemsPerLoad
    ensures current < n && next < n ==> next == current + ItemsPerLoad
  {
    if current >= n then current else Min(current + ItemsPerLoad, n)
  }

  /** The index after `batches` batches since the list was reset. */
  function IndexAfter(n: nat, batches: nat): (index: nat)
    // the cursor never passes the end, and moves at most one batch per call
    ensures index <= n
    ensures index <= ItemsPerLoad * batches
  {
    if batches == 0 then 0 else NextIndex(IndexAfter(n, batches - 1), n)
  }

  /** After `k` batches exactly the first `min(4k, n)` courses are on screen: the batches never
      skip, repeat or overshoot a course. */
  lemma {:induction false} IndexAfterBatches(n: nat, k: nat)
    ensures IndexAfter(n, k) == Min(ItemsPerLoad * k, n)
  {
    if k > 0 {
      IndexAfterBatches(n, k - 1);
    }
  }

  /** Every course is shown after `ceil(n / 4)` batches. */
  lemma AllShownAfterEnoughBatches(n: nat)
    ensures IndexAfter(n, (n + ItemsPerLoad - 1) / ItemsPerLoad) == n
  {
    IndexAfterBatches(n, (n + ItemsPerLoad - 1) / ItemsPerLoad);
  }

  /** The catalogue page: the sorted index, the batch cursor, the body cache and what is shown. */
  class CourseCatalog {
    const marked: Marked
    /** `allCourses`, sorted newest first once loaded. */
    var allCourses: seq<Course>
    /** `courseContentCache`. */
    var cache: Cache
    /** `currentIndex`: how many courses have cards. */
    var currentIndex: nat
    var grid: Grid<Course>
    var view: View
    var viewer: Viewer<Course>
    /** The URL `fetchCourses` fetched the index from. */
    const indexRequest: string

    /** The cards on screen are exactly the first `currentIndex` sorted courses; the error
        notice only stands in for an index that never loaded. */
    ghost predicate Valid()
      reads this
    {
      && currentIndex <= |allCourses|
      && (grid.Cards? ==> grid.items == allCourses[..currentIndex])
      && (grid.Notice? ==> allCourses == [] && currentIndex == 0)
    }

    /** The page script: `fetchCourses()` answered by `response`. A non-empty index is sorted
        and `initInfiniteScroll` clears the grid and renders the first batch. A failed fetch
        shows the manifest error, and so does an empty index: its first batch throws, and the
        throw lands in the same `catch`. */
    constructor (response: IndexResponse<Course>, marked: Marked)
      ensures Valid()
      ensures this.marked == marked && indexRequest == IndexPath
      ensures response.Loaded? && response.entries != [] ==>
        && allCourses == SortByDate(response.entries)
        && currentIndex == NextIndex(0, |response.entries|)
        && grid == Cards(allCourses[..currentIndex])
      ensures !response.Loaded? || response.entries == [] ==>
        allCourses == [] && currentIndex == 0 && grid == Notice(ManifestError)
      ensures cache == map[] && view == Listing && viewer == Blank
    {
      this.marked := marked;
      indexRequest := IndexPath;
      allCourses := if response.Loaded? then SortByDate(response.entries) else [];
      cache := map[];
      currentIndex := 0;
      grid := if response.Loaded? then Cards([]) else Notice(ManifestError);
      view := Listing;
      viewer := Blank;
      new;
      if response.Loaded? {
        var thrown := InitInfiniteScroll();
        if thrown {
          grid := Notice(ManifestError);
        }
      }
    }

    /** `initInfiniteScroll`: empty the grid, rewind the cursor and render the first batch;
        `thrown` reports the error that first batch raises on an empty index. */
    method InitInfiniteScroll() returns (thrown: bool)
      modifies this`grid, this`currentIndex
      ensures Valid()
      ensures thrown <==> allCourses == []
      ensures currentIndex == NextIndex(0, |allCourses|)
      ensures grid == Cards(allCourses[..currentIndex])
    {
      grid := Cards([]);
      currentIndex := 0;
      thrown := RenderNextBatch();
    }

    /** `renderNextBatch`, called with the observer in place: when courses remain, append the
        cards of the next (at most four) of them, in order, and advance the cursor past them.
        Otherwise it stops observing the last card; with no card at all that is
        `unobserve(null)`, which throws (`thrown`) before anything changes. */
    method RenderNextBatch() returns (thrown: bool)
      requires Valid()
      modifies this`grid, this`currentIndex
      ensures Valid()
      ensures thrown <==> old(grid).Cards? && allCourses == []
      ensures currentIndex == NextIndex(old(currentIndex), |allCourses|)
      ensures old(grid).Cards? ==> grid == Cards(allCourses[..currentIndex])
      ensures old(grid).Notice? ==> grid == old(grid)
    {
      if currentIndex >= |allCourses| {
        return grid.Cards? && grid.items == [];
      }
      thrown := false;
      var endIndex := Min(currentIndex + ItemsPerLoad, |allCourses|);
      var fragment: seq<Course> := [];
      var i := currentIndex;
      while i < endIndex
        invariant currentIndex <= i <= endIndex
        invariant fragment == allCourses[currentIndex..i]
      {
        fragment := fragment + [allCourses[i]];
        i := i + 1;
      }
      assert allCourses[..endIndex] == allCourses[..currentIndex] + fragment;
      grid := Cards(grid.items + fragment);
      currentIndex := endIndex;
    }

    /** `loadCourse`: the cached body, or a fetch of `./TechStack/<fileName>` that is cached and
        rendered when ok and replaced by the course-file error when not. */
    method LoadCourse(course: Course, response: TextResponse) returns (request: Option<string>)
      modifies this`view, this`cache, this`viewer
      ensures view == Detail
      ensures Hit(old(cache), course.fileName) ==>
        request.None? && cache == old(cache) && viewer == Document(course, RenderMarkdown(marked, old(cache)[course.fileName]))
      ensures !Hit(old(cache), course.fileName) ==> request == Some(BasePath + course.fileName)
      ensures !Hit(old(cache), course.fileName) && response.Ok? ==>
        cache == old(cache)[course.fileName := response.text] && viewer == Document(course, RenderMarkdown(marked, response.text))
      ensures !Hit(old(cache), course.fileName) && !response.Ok? ==>
        cache == old(cache) && viewer == Failure(course, "Error 404", "Course file not found.")
    {
      view := Detail;
      var r := Resolve(cache, course.fileName, BasePath + course.fileName, response);
      cache := r.cache;
      request := r.request;
      match r.body
      case Some(text) =>
        viewer := Document(course, RenderMarkdown(marked, text));
      case None =>
        viewer := Failure(course, "Error 404", "Course file not found.");
    }

    /** `closeCourse`. */
    method CloseCourse()
      modifies this`view, this`viewer
      ensures view == Listing && viewer == Blank
    {
      viewer := Blank;
      view := Listing;
    }
  }
}
