/** The scroll-to-top plugin as a value: its settings, the button it owns,
    the offset seen at the last evaluation and the page's vertical offset.
    Every operation returns the plugin it leaves behind, as the source's
    methods return the plugin for chaining. Fades and the scroll animation
    are abstracted to the state they end in. */
module ScrollUp {
  import opened Wrappers
  import opened Config

  /** The one element the plugin inserts into the page. */
  datatype Button = Button(id: string, cls: string, text: string, visible: bool)

  datatype Plugin = Plugin(
    settings: Settings,
    button: Button,
    lastTop: int,  // the offset read by the most recent evaluation
    pageTop: int   // the page's current vertical scroll offset
  )

  /** The visibility rule: past the threshold and further up than at the
      previous evaluation. */
  predicate ScrollingUpPast(settings: Settings, lastTop: int, scrollTop: int)
  {
    scrollTop > settings.scrollDistance && scrollTop < lastTop
  }

  /** Creating the plugin on a page currently scrolled to `pageTop`: the
      button carries the configured id, class and text and starts hidden,
      and no offset has been seen yet. */
  function Init(options: Options, pageTop: int): (p: Plugin)
    ensures p.settings == Merge(options)
    ensures p.button.id == p.settings.buttonID
    ensures p.button.cls == p.settings.buttonClass
    ensures p.button.text == p.settings.buttonText
    ensures !p.button.visible
    ensures p.lastTop == 0
    ensures p.pageTop == pageTop
  {
    var settings := Merge(options);
    Plugin(settings, Button(settings.buttonID, settings.buttonClass, settings.buttonText, false), 0, pageTop)
  }

  /** `show`: the button ends up visible; nothing else changes. */
  function Show(p: Plugin): (q: Plugin)
    ensures q.button.visible
    ensures q.settings == p.settings && q.lastTop == p.lastTop && q.pageTop == p.pageTop
    ensures q.button.(visible := p.button.visible) == p.button
  {
    p.(button := p.button.(visible := true))
  }

  /** `hide`: the button ends up hidden; nothing else changes. */
  function Hide(p: Plugin): (q: Plugin)
    ensures !q.button.visible
    ensures q.settings == p.settings && q.lastTop == p.lastTop && q.pageTop == p.pageTop
    ensures q.button.(visible := p.button.visible) == p.button
  {
    p.(button := p.button.(visible := false))
  }

  /** `scrollUp`: the page ends up at offset 0; the button and the last
      evaluated offset are untouched. */
  function ScrollToTop(p: Plugin): (q: Plugin)
    ensures q.pageTop == 0
    ensures q.settings == p.settings && q.button == p.button && q.lastTop == p.lastTop
  {
    p.(pageTop := 0)
  }

  /** A click on the button runs `scrollUp`. */
  function Click(p: Plugin): (q: Plugin)
    ensures q == ScrollToTop(p)
    ensures q.pageTop == 0
  {
    ScrollToTop(p)
  }

  /** The user (or the browser) moves the page to offset `t`; this is the
      environment, not plugin code. */
  function ScrollTo(p: Plugin, t: int): (q: Plugin)
    ensures q.pageTop == t
    ensures q.settings == p.settings && q.button == p.button && q.lastTop == p.lastTop
  {
    p.(pageTop := t)
  }

  /** One run of the throttled scroll handler: read the page offset, show
      the button when scrolling up past the threshold and hide it
      otherwise, then remember the offset whichever branch was taken. */
  function Evaluate(p: Plugin): (q: Plugin)
    ensures q.button.visible <==> ScrollingUpPast(p.settings, p.lastTop, p.pageTop)
    ensures q.lastTop == p.pageTop
    ensures q.settings == p.settings && q.pageTop == p.pageTop
    ensures q.button.(visible := p.button.visible) == p.button
  {
    var scrollTop := p.pageTop;
    var shown := if ScrollingUpPast(p.settings, p.lastTop, scrollTop) then Show(p) else Hide(p);
    shown.(lastTop := scrollTop)
  }

  /** An evaluation that finds the page at offset `t`. */
  function Tick(p: Plugin, t: int): (q: Plugin)
    ensures q.button.visible <==> ScrollingUpPast(p.settings, p.lastTop, t)
    ensures q.lastTop == t && q.pageTop == t
    ensures q.settings == p.settings
    ensures q.button.(visible := p.button.visible) == p.button
  {
    Evaluate(ScrollTo(p, t))
  }

  /** The plugin after the evaluations of `offsets`, in order. The offsets
      are those that survive throttling. */
  function Run(p: Plugin, offsets: seq<int>): (q: Plugin)
    ensures q.settings == p.settings
    ensures |offsets| > 0 ==> q.lastTop == offsets[|offsets| - 1]
    decreases |offsets|
  {
    if |offsets| == 0 then p else Run(Tick(p, offsets[0]), offsets[1..])
  }

  /** The button's visibility after each evaluation of `offsets`. */
  function Trace(p: Plugin, offsets: seq<int>): (vs: seq<bool>)
    ensures |vs| == |offsets|
    decreases |offsets|
  {
    if |offsets| == 0 then []
    else
      var q := Tick(p, offsets[0]);
      [q.button.visible] + Trace(q, offsets[1..])
  }
}
