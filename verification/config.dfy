/** The widget's configuration: the fixed defaults and the shallow merge
    `$.extend({}, defaults, options)` that combines them with the options
    the caller passes to the factory. */
module Config {
  import opened Wrappers

  /** The complete settings record a plugin instance works with. */
  datatype Settings = Settings(
    buttonID: string,
    buttonClass: string,
    buttonText: string,
    scrollDistance: int,  // px below the top before the button may appear
    scrollSpeed: int,     // ms for the scroll-to-top animation
    animationSpeed: int,  // ms for the button's fade in and out
    throttle: int         // ms between two evaluations of the scroll offset
  )

  /** The caller's partial options object: every property may be left out. */
  datatype Options = Options(
    buttonID: Option<string>,
    buttonClass: Option<string>,
    buttonText: Option<string>,
    scrollDistance: Option<int>,
    scrollSpeed: Option<int>,
    animationSpeed: Option<int>,
    throttle: Option<int>
  )

  /** The defaults written into the factory. */
  const Defaults: Settings :=
    Settings("js-scrollup-button", "scrollup", "Scroll to Top", 300, 300, 250, 250)

  /** Calling the factory with no options object, or with `{}`. */
  const NoOptions: Options :=
    Options(None, None, None, None, None, None, None)

  /** The options of the documented usage example. */
  const ExampleOptions: Options :=
    NoOptions.(buttonClass := Some("scrollup  scrollup--custom"), scrollDistance := Some(500))

  /** Copies every property `o` supplies over `base`; the properties `o`
      leaves out keep their value from `base`. */
  function Extend(base: Settings, o: Options): (r: Settings)
    ensures o.buttonID.Some? ==> r.buttonID == o.buttonID.value
    ensures o.buttonID.None? ==> r.buttonID == base.buttonID
    ensures o.buttonClass.Some? ==> r.buttonClass == o.buttonClass.value
    ensures o.buttonClass.None? ==> r.buttonClass == base.buttonClass
    ensures o.buttonText.Some? ==> r.buttonText == o.buttonText.value
    ensures o.buttonText.None? ==> r.buttonText == base.buttonText
    ensures o.scrollDistance.Some? ==> r.scrollDistance == o.scrollDistance.value
    ensures o.scrollDistance.None? ==> r.scrollDistance == base.scrollDistance
    ensures o.scrollSpeed.Some? ==> r.scrollSpeed == o.scrollSpeed.value
    ensures o.scrollSpeed.None? ==> r.scrollSpeed == base.scrollSpeed
    ensures o.animationSpeed.Some? ==> r.animationSpeed == o.animationSpeed.value
    ensures o.animationSpeed.None? ==> r.animationSpeed == base.animationSpeed
    ensures o.throttle.Some? ==> r.throttle == o.throttle.value
    ensures o.throttle.None? ==> r.throttle == base.throttle
  {
    Settings(
      o.buttonID.GetOr(base.buttonID),
      o.buttonClass.GetOr(base.buttonClass),
      o.buttonText.GetOr(base.buttonText),
      o.scrollDistance.GetOr(base.scrollDistance),
      o.scrollSpeed.GetOr(base.scrollSpeed),
      o.animationSpeed.GetOr(base.animationSpeed),
      o.throttle.GetOr(base.throttle))
  }

  /** The settings of a new plugin instance: the defaults overridden by the
      caller's options. */
  function Merge(o: Options): (r: Settings)
    ensures o.buttonID.None? ==> r.buttonID == "js-scrollup-button"
    ensures o.buttonClass.None? ==> r.buttonClass == "scrollup"
    ensures o.buttonText.None? ==> r.buttonText == "Scroll to Top"
    ensures o.scrollDistance.None? ==> r.scrollDistance == 300
    ensures o.scrollSpeed.None? ==> r.scrollSpeed == 300
    ensures o.animationSpeed.None? ==> r.animationSpeed == 250
    ensures o.throttle.None? ==> r.throttle == 250
    ensures o.buttonID.Some? ==> r.buttonID == o.buttonID.value
    ensures o.buttonClass.Some? ==> r.buttonClass == o.buttonClass.value
    ensures o.buttonText.Some? ==> r.buttonText == o.buttonText.value
    ensures o.scrollDistance.Some? ==> r.scrollDistance == o.scrollDistance.value
    ensures o.scrollSpeed.Some? ==> r.scrollSpeed == o.scrollSpeed.value
    ensures o.animationSpeed.Some? ==> r.animationSpeed == o.animationSpeed.value
    ensures o.throttle.Some? ==> r.throttle == o.throttle.value
  {
    Extend(Defaults, o)
  }

  /** An options object that supplies every property, taken from `s`. */
  function Supply(s: Settings): (o: Options)
    ensures o.buttonID == Some(s.buttonID)
    ensures o.buttonClass == Some(s.buttonClass)
    ensures o.buttonText == Some(s.buttonText)
    ensures o.scrollDistance == Some(s.scrollDistance)
    ensures o.scrollSpeed == Some(s.scrollSpeed)
    ensures o.animationSpeed == Some(s.animationSpeed)
    ensures o.throttle == Some(s.throttle)
  {
    Options(Some(s.buttonID), Some(s.buttonClass), Some(s.buttonText),
            Some(s.scrollDistance), Some(s.scrollSpeed), Some(s.animationSpeed),
            Some(s.throttle))
  }

  /** Two options objects laid one over the other, as when two sources are
      passed to the same extend: a property of `b` wins over one of `a`. */
  function Overlay(a: Options, b: Options): (r: Options)
    ensures b.buttonID.Some? ==> r.buttonID == b.buttonID
    ensures b.buttonID.None? ==> r.buttonID == a.buttonID
    ensures b.buttonClass.Some? ==> r.buttonClass == b.buttonClass
    ensures b.buttonClass.None? ==> r.buttonClass == a.buttonClass
    ensures b.buttonText.Some? ==> r.buttonText == b.buttonText
    ensures b.buttonText.None? ==> r.buttonText == a.buttonText
    ensures b.scrollDistance.Some? ==> r.scrollDistance == b.scrollDistance
    ensures b.scrollDistance.None? ==> r.scrollDistance == a.scrollDistance
    ensures b.scrollSpeed.Some? ==> r.scrollSpeed == b.scrollSpeed
    ensures b.scrollSpeed.None? ==> r.scrollSpeed == a.scrollSpeed
    ensures b.animationSpeed.Some? ==> r.animationSpeed == b.animationSpeed
    ensures b.animationSpeed.None? ==> r.animationSpeed == a.animationSpeed
    ensures b.throttle.Some? ==> r.throttle == b.throttle
    ensures b.throttle.None? ==> r.throttle == a.throttle
  {
    Options(
      if b.buttonID.Some? then b.buttonID else a.buttonID,
      if b.buttonClass.Some? then b.buttonClass else a.buttonClass,
      if b.buttonText.Some? then b.buttonText else a.buttonText,
      if b.scrollDistance.Some? then b.scrollDistance else a.scrollDistance,
      if b.scrollSpeed.Some? then b.scrollSpeed else a.scrollSpeed,
      if b.animationSpeed.Some? then b.animationSpeed else a.animationSpeed,
      if b.throttle.Some? then b.throttle else a.throttle)
  }

  /** Merging no options yields exactly the written defaults. */
  lemma MergeNothing()
    ensures Merge(NoOptions) ==
      Settings("js-scrollup-button", "scrollup", "Scroll to Top", 300, 300, 250, 250)
  {
  }

  /** The documented example changes the class and the distance and leaves
      the other five settings at their defaults. */
  lemma MergeExample()
    ensures Merge(ExampleOptions).buttonClass == "scrollup  scrollup--custom"
    ensures Merge(ExampleOptions).scrollDistance == 500
    ensures Merge(ExampleOptions) ==
      Defaults.(buttonClass := "scrollup  scrollup--custom", scrollDistance := 500)
  {
  }

  /** Extending with an empty options object changes nothing. */
  lemma ExtendNothing(base: Settings)
    ensures Extend(base, NoOptions) == base
  {
  }

  /** Supplying every property replaces every setting, whatever the base:
      a complete options object round-trips through the merge. */
  lemma ExtendEverything(base: Settings, s: Settings)
    ensures Extend(base, Supply(s)) == s
  {
  }

  /** Extending twice is extending once with the overlaid options; in
      particular, repeating the same options is idempotent. */
  lemma ExtendTwice(base: Settings, a: Options, b: Options)
    ensures Extend(Extend(base, a), b) == Extend(base, Overlay(a, b))
    ensures Extend(Extend(base, a), a) == Extend(base, a)
  {
  }

  /** Supplying a single property changes that setting and nothing else. */
  lemma MergeOneDistance(d: int)
    ensures Merge(NoOptions.(scrollDistance := Some(d))) == Defaults.(scrollDistance := d)
  {
  }
}
