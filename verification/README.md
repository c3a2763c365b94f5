# gemini.scrollup, modelled in Dafny

A model of the Gemini "scroll-to-top" plugin. The plugin merges the caller's
options over fixed defaults and creates one hidden button. On every throttled
scroll event it shows the button when the page is past `scrollDistance` and
higher up than at the previous evaluation; otherwise it hides the button. It
always remembers the offset it just read. A click on the button runs
`scrollUp`, which sends the page to offset 0.

- `wrappers.dfy` (`Wrappers`): `Option`, where `None` stands for a property that was left out.
- `config.dfy` (`Config`): `Settings`, `Options`, the defaults, the shallow extend and `Merge`, plus the merge laws.
- `scrollup.dfy` (`ScrollUp`): the plugin as an immutable value (settings, button, last evaluated offset, page offset).
  It also holds the pure transitions `Init`, `Show`, `Hide`, `ScrollToTop` (the source's `scrollUp`), `Click` and `Evaluate`.
  `Run` folds evaluations over a sequence of offsets, and `Trace` gives the visibility after each one.
- `scrollup_props.dfy` (`ScrollUpProperties`): lemmas about the fold and the transitions.

The page offset is part of the state. `ScrollTo` is the environment moving the page.
`Evaluate` is the handler body and reads the offset from the state, as the source reads `$(window).scrollTop()`.
`Tick(p, t)` is one evaluation that finds the page at `t`.
The sequence given to `Run` holds the offsets that survive throttling.

## Model

| member | source | states |
|---|---|---|
| Config.Extend | gemini.scrollup.js:51-111 | every property the options supply replaces that setting; every property left out keeps its base value |
| Config.Merge | gemini.scrollup.js:51-111 | each of the seven settings is the supplied option when there is one, and otherwise its written default ('js-scrollup-button', 'scrollup', 'Scroll to Top', 300, 300, 250, 250) |
| Config.MergeNothing | gemini.scrollup.js:59-110 | with no options the settings are exactly 'js-scrollup-button', 'scrollup', 'Scroll to Top', 300, 300, 250, 250 |
| Config.MergeExample | gemini.scrollup.js:25-29 | the documented example sets the class and a distance of 500 and leaves the other five settings at their defaults |
| Config.ExtendNothing | gemini.scrollup.js:51-111 | extending with an empty options object changes no setting |
| Config.ExtendEverything | gemini.scrollup.js:51-111 | options that supply every property yield exactly those settings, whatever the base |
| Config.ExtendTwice | gemini.scrollup.js:51-111 | two successive extends equal one extend with the later options laid over the earlier; repeating the same options is idempotent |
| Config.MergeOneDistance | gemini.scrollup.js:84 | supplying only a distance changes only the distance |
| ScrollUp.Init | gemini.scrollup.js:113-138 | a new plugin has the merged settings, a button carrying the configured id, class and text, the button hidden, and a remembered offset of 0 |
| ScrollUp.Show | gemini.scrollup.js:160-166 | after show the button is visible and every other part of the plugin is unchanged |
| ScrollUp.Hide | gemini.scrollup.js:174-180 | after hide the button is hidden and every other part of the plugin is unchanged |
| ScrollUp.ScrollToTop | gemini.scrollup.js:188-194 | scrollUp leaves the page at offset 0 and leaves the button, settings and remembered offset unchanged |
| ScrollUp.Click | gemini.scrollup.js:131-133 | a click has exactly the effect of scrollUp and leaves the page at 0 |
| ScrollUp.ScrollTo | gemini.scrollup.js:140 | moving the page changes only the offset the handler will read |
| ScrollUp.Evaluate | gemini.scrollup.js:140-150 | after an evaluation the button is visible exactly when the read offset exceeds scrollDistance and is below the remembered offset; the remembered offset becomes the read offset in either case; settings, page and button identity are unchanged |
| ScrollUp.ScrollingUpPast | gemini.scrollup.js:143-144 | the visibility rule, defined once: the offset exceeds scrollDistance and is below the remembered offset |
| ScrollUp.Tick | gemini.scrollup.js:140-150 | an evaluation at offset t shows the button exactly when t > scrollDistance and t < the previous remembered offset, afterwards remembers t, and leaves the settings and the button's id, class and text unchanged |
| ScrollUp.Run | gemini.scrollup.js:139-151 | a run of evaluations keeps the settings and ends remembering the last offset |
| ScrollUp.Trace | gemini.scrollup.js:139-151 | the trace holds one visibility per evaluated offset |
| ScrollUpProperties.RunAppend | gemini.scrollup.js:139-151 | evaluating a concatenation equals evaluating the first part and then the second |
| ScrollUpProperties.RunLastTwo | gemini.scrollup.js:143-150 | after a non-empty run the visibility depends only on the last two offsets, with the remembered offset standing in when there is one; the last offset is remembered |
| ScrollUpProperties.RunFromInit | gemini.scrollup.js:138-150 | from a new plugin, visibility after a run follows the rule on the last two offsets with 0 in place of the earlier one after a single evaluation |
| ScrollUpProperties.FirstEvaluationHidden | gemini.scrollup.js:138-144 | the first evaluation after creation never shows the button for a non-negative offset |
| ScrollUpProperties.InitHidden | gemini.scrollup.js:120-138 | before any evaluation the button is hidden and the remembered offset is 0 |
| ScrollUpProperties.HiddenAtOrAboveThreshold | gemini.scrollup.js:143-148 | an offset at or above the threshold (t <= scrollDistance) hides the button |
| ScrollUpProperties.HiddenWithoutUpwardMove | gemini.scrollup.js:143-148 | an offset not below the remembered one hides the button |
| ScrollUpProperties.TracePointwise | gemini.scrollup.js:139-151 | for every evaluation of a sequence, the button is shown exactly when that offset exceeds scrollDistance and is below the offset before it |
| ScrollUpProperties.TraceEndsAtRun | gemini.scrollup.js:139-151 | the last visibility in the trace is the one the run ends with |
| ScrollUpProperties.ShowHideIdempotent | gemini.scrollup.js:160-180 | show twice equals show once; hide twice equals hide once |
| ScrollUpProperties.LastRequestWins | gemini.scrollup.js:160-180 | because each call stops the running fade first, the later of show and hide alone decides the outcome |
| ScrollUpProperties.EvaluateForgetsVisibility | gemini.scrollup.js:143-150 | an evaluation's outcome does not depend on what show or hide left before it |
| ScrollUpProperties.ScrollToTopLaws | gemini.scrollup.js:160-194 | scrollUp is idempotent and commutes with show and hide |
| ScrollUpProperties.ClickThenEvaluateHides | gemini.scrollup.js:131-151 | once a click has taken the page to 0, the next evaluation hides the button when the threshold is not negative, and it remembers 0 |
| ScrollUpProperties.DefaultScenario | gemini.scrollup.js:138-151 | with the defaults, offsets 400, 350, 250 give hidden, shown, hidden |
| ScrollUpProperties.DistanceScenario | gemini.scrollup.js:138-151 | with a distance of 500, offsets 600, 550 show the button only at 550 |

## Left out

- DOM creation and insertion of the button (lines 120-128) are reduced to the `Button` record that `Init` builds. No document is modelled.
- Fade and scroll animations (`stop(true, true).fadeIn/fadeOut`, `animate`) are reduced to their end states. Their durations (`animationSpeed`, `scrollSpeed`) are carried in the settings but are not used for anything.
- Throttling (`_.throttle`, lines 139 and 151) is not modelled, because the underscore library's code is not part of this model. `Run` takes the offsets that reach the handler. `throttle` is carried in the settings only.
- The scroll events that the scroll-to-top animation itself fires are not generated. A caller can express them as offsets given to `Run`.
- The AMD/CommonJS/global loader wrapper (lines 32-45) and the browser harness under `test/` are not modelled. Neither has behaviour to verify.
- Config.Merge: options are typed records. Properties the plugin does not know about, `null` or wrongly typed values, and a non-object `options` argument are not modelled, although jQuery's extend would copy them.
- Offsets and numeric settings are unbounded integers. JavaScript numbers are doubles, and browsers may report fractional offsets; the comparisons are the same `>` and `<`.
