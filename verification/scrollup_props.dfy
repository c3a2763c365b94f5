/** Properties of the plugin's visibility state machine and of its
    show / hide / scrollUp operations. */
module ScrollUpProperties {
  import opened Wrappers
  import opened Config
  import opened ScrollUp

  /** The offset an evaluation compares against: the one evaluated just
      before the last, or the plugin's remembered offset when `offsets`
      holds a single evaluation. */
  function Previous(lastTop: int, offsets: seq<int>): (r: int)
    requires |offsets| > 0
  {
    if |offsets| == 1 then lastTop else offsets[|offsets| - 2]
  }

  /** Running a concatenation runs the parts one after the other. */
  lemma {:induction false} RunAppend(p: Plugin, xs: seq<int>, ys: seq<int>)
    ensures Run(p, xs + ys) == Run(Run(p, xs), ys)
    decreases |xs|
  {
    if |xs| == 0 {
      assert xs + ys == ys;
    } else {
      assert (xs + ys)[1..] == xs[1..] + ys;
      RunAppend(Tick(p, xs[0]), xs[1..], ys);
    }
  }

  /** After a non-empty run, the button's visibility depends only on the
      last two evaluated offsets (the plugin's remembered offset standing in
      for the earlier one when there is only one), and the plugin remembers
      the last offset, which is also where the page is. */
  lemma {:induction false} RunLastTwo(p: Plugin, offsets: seq<int>)
    requires |offsets| > 0
    ensures var q := Run(p, offsets);
      var t := offsets[|offsets| - 1];
      && (q.button.visible <==> ScrollingUpPast(p.settings, Previous(p.lastTop, offsets), t))
      && q.lastTop == t
      && q.pageTop == t
      && q.button.(visible := p.button.visible) == p.button
    decreases |offsets|
  {
    var n := |offsets|;
    if n == 1 {
      assert Run(p, offsets) == Run(Tick(p, offsets[0]), []);
    } else {
      var front := offsets[..n - 1];
      assert offsets == front + [offsets[n - 1]];
      RunAppend(p, front, [offsets[n - 1]]);
      RunLastTwo(p, front);
      var mid := Run(p, front);
      assert mid.lastTop == offsets[n - 2];
      assert Run(mid, [offsets[n - 1]]) == Run(Tick(mid, offsets[n - 1]), []);
    }
  }

  /** From a freshly created plugin the remembered offset is 0, so the
      earlier offset of the rule is 0 after a single evaluation. */
  lemma RunFromInit(options: Options, pageTop: int, offsets: seq<int>)
    requires |offsets| > 0
    ensures Run(Init(options, pageTop), offsets).button.visible <==>
      ScrollingUpPast(Merge(options), Previous(0, offsets), offsets[|offsets| - 1])
  {
    RunLastTwo(Init(options, pageTop), offsets);
  }

  /** The first evaluation after creation never shows the button for any
      offset that is not negative. */
  lemma FirstEvaluationHidden(options: Options, pageTop: int, t: int)
    requires t >= 0
    ensures !Tick(Init(options, pageTop), t).button.visible
    ensures !Evaluate(Init(options, pageTop)).button.visible || pageTop < 0
  {
  }

  /** Before any evaluation the button is hidden whatever the options. */
  lemma InitHidden(options: Options, pageTop: int)
    ensures !Run(Init(options, pageTop), []).button.visible
    ensures Run(Init(options, pageTop), []).lastTop == 0
  {
  }

  /** At or above the threshold the button is hidden. */
  lemma HiddenAtOrAboveThreshold(p: Plugin, t: int)
    requires t <= p.settings.scrollDistance
    ensures !Tick(p, t).button.visible
  {
  }

  /** Without upward movement since the last evaluation the button is hidden. */
  lemma HiddenWithoutUpwardMove(p: Plugin, t: int)
    requires t >= p.lastTop
    ensures !Tick(p, t).button.visible
  {
  }

  /** Each entry of the trace follows the visibility rule for its own
      offset and the offset before it. */
  lemma {:induction false} TracePointwise(p: Plugin, offsets: seq<int>, i: int)
    requires 0 <= i < |offsets|
    ensures Trace(p, offsets)[i] <==>
      ScrollingUpPast(p.settings, if i == 0 then p.lastTop else offsets[i - 1], offsets[i])
    decreases i
  {
    if i > 0 {
      var q := Tick(p, offsets[0]);
      TracePointwise(q, offsets[1..], i - 1);
      assert Trace(p, offsets)[i] == Trace(q, offsets[1..])[i - 1];
      if i == 1 {
        assert q.lastTop == offsets[0];
      }
    }
  }

  /** The last entry of the trace is the visibility the run ends with. */
  lemma {:induction false} TraceEndsAtRun(p: Plugin, offsets: seq<int>)
    requires |offsets| > 0
    ensures Trace(p, offsets)[|offsets| - 1] == Run(p, offsets).button.visible
  {
    TracePointwise(p, offsets, |offsets| - 1);
    RunLastTwo(p, offsets);
  }

  /** `show` and `hide` are idempotent. */
  lemma ShowHideIdempotent(p: Plugin)
    ensures Show(Show(p)) == Show(p)
    ensures Hide(Hide(p)) == Hide(p)
  {
  }

  /** Each request cancels what came before it: the last of `show` and
      `hide` decides the button's state. */
  lemma LastRequestWins(p: Plugin)
    ensures Show(Hide(p)) == Show(p)
    ensures Hide(Show(p)) == Hide(p)
  {
  }

  /** An evaluation overwrites whatever visibility `show` or `hide` left. */
  lemma EvaluateForgetsVisibility(p: Plugin)
    ensures Evaluate(Show(p)) == Evaluate(p)
    ensures Evaluate(Hide(p)) == Evaluate(p)
  {
  }

  /** `scrollUp` is idempotent, and the scroll animation and the button's
      fade are independent. */
  lemma ScrollToTopLaws(p: Plugin)
    ensures ScrollToTop(ScrollToTop(p)) == ScrollToTop(p)
    ensures ScrollToTop(Show(p)) == Show(ScrollToTop(p))
    ensures ScrollToTop(Hide(p)) == Hide(ScrollToTop(p))
  {
  }

  /** Once a click has taken the page to the top, the next evaluation hides
      the button, provided the threshold is not negative. */
  lemma ClickThenEvaluateHides(p: Plugin)
    requires p.settings.scrollDistance >= 0
    ensures !Evaluate(Click(p)).button.visible
    ensures Evaluate(Click(p)).lastTop == 0
  {
  }

  /** With the default settings, offsets 400, 350, 250 give hidden, shown,
      hidden. */
  lemma DefaultScenario(pageTop: int)
    ensures Trace(Init(NoOptions, pageTop), [400, 350, 250]) == [false, true, false]
  {
    var p := Init(NoOptions, pageTop);
    TracePointwise(p, [400, 350, 250], 0);
    TracePointwise(p, [400, 350, 250], 1);
    TracePointwise(p, [400, 350, 250], 2);
  }

  /** With a threshold of 500, offsets 600, 550 show the button only at the
      second evaluation. */
  lemma DistanceScenario(pageTop: int)
    ensures Trace(Init(NoOptions.(scrollDistance := Some(500)), pageTop), [600, 550]) == [false, true]
  {
    var p := Init(NoOptions.(scrollDistance := Some(500)), pageTop);
    TracePointwise(p, [600, 550], 0);
    TracePointwise(p, [600, 550], 1);
  }
}
