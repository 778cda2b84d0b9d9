/**
  What the pages put on screen, abstracted from their HTML: which of listing and
  detail is shown, what the listing area holds, what the detail viewer holds,
  and the small pure choices made while rendering (Markdown fallback, icons,
  exact-match badge colours).
 */
module Display {
  import opened Wrappers

  /** Listing: hero, grid section (and any other listing-only section) shown, viewer hidden.
      Detail: those sections hidden, viewer shown. */
  datatype View = Listing | Detail

  /** The listing area: one card per entry, in order, or a single notice replacing them. */
  datatype Grid<E> = Cards(items: seq<E>) | Notice(message: string)

  /** A `renderXGrid(list)` call: the cards of `items`, or `emptyNotice` when there are none. */
  function Render<E>(items: seq<E>, emptyNotice: string): (g: Grid<E>)
    ensures g.Cards? <==> |items| > 0
    ensures g.Cards? ==> g.items == items
    ensures g.Notice? ==> g.message == emptyNotice
  {
    if |items| == 0 then Notice(emptyNotice) else Cards(items)
  }

  /** The detail viewer: cleared, an entry's header with its rendered body, an entry's
      header with an error heading and text, or (no content file) an entry's summary. */
  datatype Viewer<E> = Blank | Document(item: E, html: string) | Failure(item: E, heading: string, text: string) | Summary(item: E)

  /** `window.marked`: the Markdown renderer's `parse`, when the library is present. */
  type Marked = Option<string -> string>

  /** `renderMarkdown`'s choice: the renderer's output when it is present, otherwise the raw
      text inside a `<pre>` element. */
  function RenderMarkdown(marked: Marked, text: string): (html: string)
    ensures marked.Some? ==> html == marked.value(text)
    ensures marked.None? ==> |html| == |text| + 11 && html[..5] == "<pre>" && html[5..|html| - 6] == text && html[|html| - 6..] == "</pre>"
  {
    match marked
    case Some(parse) => parse(text)
    case None => "<pre>" + text + "</pre>"
  }

  /** An icon: an image by URL, inline SVG markup, or the page's default SVG. */
  datatype Icon = Image(url: string) | InlineSvg(markup: string) | DefaultIcon

  /** An `if (v === k1) c1 else if (v === k2) c2 ... else fallback` colour chain, given as a
      table of (value, colour) rows: the colour of the first row whose value equals `value`
      exactly, and `fallback` when no row does. */
  function Badge(value: string, table: seq<(string, string)>, fallback: string): (colour: string)
    ensures (forall i :: 0 <= i < |table| ==> table[i].0 != value) ==> colour == fallback
    ensures forall i :: 0 <= i < |table| && table[i].0 == value && (forall j :: 0 <= j < i ==> table[j].0 != value) ==> colour == table[i].1
    decreases |table|
  {
    if table == [] then fallback
    else if table[0].0 == value then table[0].1
    else Badge(value, table[1..], fallback)
  }
}
