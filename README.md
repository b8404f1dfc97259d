# streamlit-abcjs-score in Dafny

This project models the two pieces of logic that the streamlit-abcjs-score package owns itself. Everything else in the package is delegated to abc.js, which parses, lays out and renders ABC music notation, and to Streamlit, which carries messages between the Python app and the component's iframe.

- **The Python entry points** (module `AbcScore`, file `abc_score.dfy`).
  - `abc_score` checks its arguments in a fixed order and raises the first failing check's `TypeError` or `ValueError`. The checks are: notation is a `str`; notation is not blank once stripped; height is positive; width, when given, is positive; scale is positive. When all pass, it forwards every argument unchanged to the declared component, with `default=None`.
  - `str.strip()` is modelled over Python's whitespace set, with a proof that it is empty exactly for all-whitespace strings.
  - `EXAMPLE_NOTATION` is an insertion-ordered table of three tunes. `get_example_notation` looks a name up in it. An unknown name raises a `KeyError` whose message lists every name. `list_examples` returns the names in order.
- **The React component** (module `Frontend`, file `frontend.dfy`).
  - Arguments are JavaScript values, so truthiness, `||` and `!== false` behave as in the component.
  - The derived values: the abc.js render options, the defaults for height (400) and scale (1.0), the box's width and height, and the frame height reported to the host, `max(scrollHeight + 20, height || 400)`.
  - The re-render gate `renderAbc` is the class `AbcScoreComponent`. Its fields are `currentNotation`, whether the container is mounted, and the container's contents. `RenderAbc` is proved against the function `Step`. Lemmas about `Step` and about runs of updates state what the gate promises: a notation that rendered is not rendered again while the updates keep carrying it, and a failing notation is retried on every update.
  - The abc.js call is an oracle parameter. It either renders, giving the content's `scrollHeight`, or throws an `Error` with a message or some other value.
- **The hand-off** (module `Bridge`, file `bridge.dfy`): every call that `abc_score` accepts reaches the frontend as arguments that pass the gate of a freshly mounted component. The reported frame height is then never lower than the requested height.

## Model

| member | source | states |
|---|---|---|
| `AbcScore.Strip` | streamlit_abcjs_score/__init__.py:91 | `notation.strip()` is empty exactly when every character is Python whitespace; otherwise it starts and ends with a non-whitespace character |
| `AbcScore.AbcScore` | streamlit_abcjs_score/__init__.py:88-113 | for any call Python can make (no extra keyword named like one of its own parameters), a non-`str` notation is a `TypeError` whatever the other arguments are; the call succeeds iff notation is a non-blank `str`, height > 0, width absent or > 0, scale > 0 (and no `default` among the extra keywords); on success notation, height, width, scale, responsive, key and the extra keywords are forwarded unchanged with `default=None` |
| `AbcScore.FirstFailingGuardDecides` | streamlit_abcjs_score/__init__.py:88-101 | `abc_score` fails iff some guard fails, and then with the exception of the first failing guard in source order, whatever the later guards say |
| `AbcScore.Lookup` | streamlit_abcjs_score/__init__.py:167-171 | a dict lookup finds a value exactly for the table's keys, and the value found is stored under that key |
| `AbcScore.LookupDistinct` | streamlit_abcjs_score/__init__.py:119-142 | in a table with distinct keys, as a dict literal is, each key finds exactly its own value |
| `AbcScore.ListExamples` | streamlit_abcjs_score/__init__.py:174-183 | `list_examples()` is exactly `["twinkle_star", "cooley_reel", "mary_had_lamb"]`, the insertion order |
| `AbcScore.GetExampleNotation` | streamlit_abcjs_score/__init__.py:167-171 | succeeds exactly for listed names, returning the tune stored under that name; any other name is a `KeyError` whose message is "Example '<name>' not found. Available examples: twinkle_star, cooley_reel, mary_had_lamb" |
| `AbcScore.ListedExamplesResolve` | streamlit_abcjs_score/__init__.py:119-183 | every name `list_examples()` returns is accepted by `get_example_notation`, which returns that entry's tune |
| `Frontend.HeightOrDefault` | streamlit_abcjs_score/frontend/src/AbcScoreComponent.tsx:27 | `height \|\| 400` is always truthy: the height when truthy, else 400 |
| `Frontend.ScaleOrDefault` | streamlit_abcjs_score/frontend/src/AbcScoreComponent.tsx:88 | `scale \|\| 1.0` is always truthy: the scale when truthy, else 1.0 |
| `Frontend.Options` | streamlit_abcjs_score/frontend/src/AbcScoreComponent.tsx:98-102 | `responsive` is "resize" iff the argument is not exactly `false`, else undefined; `staffwidth` is 600 iff it is exactly `false`, else undefined; the scale option is the argument when that is truthy and 1.0 otherwise |
| `Frontend.Dimensions` | streamlit_abcjs_score/frontend/src/AbcScoreComponent.tsx:54-58 | the style width is set iff the width argument is truthy, as `${width}px`; the height is always set, from `height \|\| 400`; overflow is "auto" |
| `Frontend.MinFrameHeight` | streamlit_abcjs_score/frontend/src/AbcScoreComponent.tsx:113 | the number `Math.max` reads from `height \|\| 400`: the height when it is a non-zero number, 1 for `true`, 400 when it is falsy |
| `Frontend.FrameHeight` | streamlit_abcjs_score/frontend/src/AbcScoreComponent.tsx:110-115 | the reported height is at least `scrollHeight + 20`, at least `height \|\| 400`, and equal to one of them (their maximum) |
| `Frontend.Step` | streamlit_abcjs_score/frontend/src/AbcScoreComponent.tsx:92-127 | a render is attempted iff notation is truthy, differs from `currentNotation` and the container is mounted, and otherwise nothing changes; only a successful render sets `currentNotation` to the notation, shows the score rendered with `Options(args)` and reports `FrameHeight(scrollHeight, height)`; a failed one shows the error block with `ErrorText` of the thrown value and leaves `currentNotation` as it was |
| `Frontend.FailedRenderShowsError` | streamlit_abcjs_score/frontend/src/AbcScoreComponent.tsx:117-127 | after a failed render the container holds an error block with the error's message, or "Unknown error" for a non-Error value, and `currentNotation` is unchanged |
| `Frontend.SameNotationIsNeverRerendered` | streamlit_abcjs_score/frontend/src/AbcScoreComponent.tsx:92-107 | updates that carry the current notation never attempt a render and leave the whole state unchanged, whatever else they change |
| `Frontend.NewNotationRendersOnce` | streamlit_abcjs_score/frontend/src/AbcScoreComponent.tsx:92-107 | a new notation that renders is attempted exactly once over any run of updates carrying it, and becomes the current notation |
| `Frontend.FailingNotationIsRetried` | streamlit_abcjs_score/frontend/src/AbcScoreComponent.tsx:105-127 | a notation whose render keeps throwing is attempted again on every update, and `currentNotation` stays where it was |
| `Frontend.RunKeepsInv` | streamlit_abcjs_score/frontend/src/AbcScoreComponent.tsx:19-107 | across any run of updates, `currentNotation` is the initial "" or a truthy notation, and a score on show is the score of `currentNotation` |
| `Frontend.AbcScoreComponent.constructor` | streamlit_abcjs_score/frontend/src/AbcScoreComponent.tsx:18-19 | a new component has `currentNotation == ""` and an empty container, and satisfies the invariant |
| `Frontend.AbcScoreComponent.RenderAbc` | streamlit_abcjs_score/frontend/src/AbcScoreComponent.tsx:86-129 | the new fields, the attempt flag and the reported height are exactly those `Step` gives for the old fields; the invariant is kept |
| `Bridge.AcceptedCallRendersOnMount` | streamlit_abcjs_score/__init__.py:104-113 | a call `abc_score` accepts is rendered by a freshly mounted component, which reports a frame height no lower than the requested height, is responsive iff `responsive` was true, and sets a box width iff a width was given |

## Left out

- abc.js itself (parsing, layout, SVG output): the render is an outcome parameter, either the rendered content's `scrollHeight` (any natural number) or a thrown value.
- The React lifecycle (`componentDidMount`, `componentDidUpdate`), the 100 ms `setTimeout` before measuring, and the Streamlit calls `setComponentReady` and `setFrameHeight`. `RenderAbc` returns the value that would be reported.
- Frontend.FrameHeight: the timer reads `props.args.height` when it fires, 100 ms after the render. The model uses the arguments of the render call, so it does not capture a height that changes within that window.
- Frontend.FrameHeight, Frontend.Step, Frontend.AbcScoreComponent.RenderAbc: a truthy string `height` is excluded (`NumericHeight`). `Math.max` would parse such a string, and number parsing is not modelled. The Python side never sends a string height: `height <= 0` raises a TypeError for a `str`.
- The `console.error` log, the error block's HTML markup, inline styles and theme-dependent colours, borders and padding, and the unused `numClicks` state.
- The `scale` read in `render` is unused there. Only the one in `renderAbc` is modelled.
- JavaScript `NaN` and Python floats: numbers are exact reals. A NaN scale would pass Python's `scale <= 0` guard, and that is not modelled.
- AbcScore.AbcScore: the `TypeError` for a `default` key among the extra keyword arguments carries Python's message without the callee's qualified-name prefix. The return value of the declared component is not modelled; the result is the call it receives.
- AbcScore.AbcScore: `height` and `width` are integers and `responsive` a boolean, as the signature annotates. Python objects of other types, which could make `height <= 0` itself raise, are not modelled.
- Module-load setup (`mimetypes` registration, `declare_component`, the `_RELEASE` switch), `example.py` (the demo app) and `setup.py` (packaging).
- Audio playback, synth/cursor wiring and a score-to-audio connection sequencer are not part of the component code modelled here, so they are not modelled.
