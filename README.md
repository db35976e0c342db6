# AIRLYTICS dashboard: interpretation request and special-case chart data

A Dafny model of the two data-shaping components of the AIRLYTICS
airline-review dashboard's frontend:

- **The "AI Insights" panel** (`Interpreter.jsx`). When the user asks for an
  interpretation, it builds the JSON body for the `interpret_agent` endpoint
  from the analytics result already on the page and the user's query. It
  picks the query text and the statistics block by `mode`, forwards at most
  five normalised review rows, and copies `multivalue_stats` with the
  user message added as `description`. Around the request, it moves four
  state variables (`isExpanded`, `isInterpreting`, `interpretError`,
  `agentText`) through the phases Idle, Loading, Succeeded and Errored.
- **The special-case view** (`SpecialCase.jsx`). It dispatches on
  `function_executed` to one of five reshapings of `multivalue_stats` into
  chart rows, or to the "not available" placeholder. The reshapings are:
  distribution entries to `{name, value}` bars, two complementary pie slices,
  and a category-by-compare-value pivot. It also decides which `base_stats`
  summary cards to show.

Files:

- `js.dfy` (module `Js`) holds JavaScript values. An object is the ordered
  sequence of its (key, value) pairs, in `Object.entries` order. `Get` reads a
  property. `Put` assigns one: an existing key keeps its place, and a new key
  is appended.
- `interpreter.dfy` (module `Interpreter`) holds the payload builder as
  functions. It also holds the panel as the class `InterpreterPanel`. The HTTP
  exchange is an abstract `Outcome`: an answer, a non-ok status with its
  body, or a failure with its message.
- `special_case.dfy` (module `SpecialCase`) holds the dispatch and the
  transforms as functions. The category pivot is both a specification
  (`CompareValues`, `Row`, `Pivot`) and the method `BuildPivot`. The method
  runs the component's nested loops and is proved equal to the specification.
- `pivot_order.dfy` (module `PivotOrder`) states the order of the stacked
  bars without the loops: each distribution key in the order the loops meet
  it, kept where it first appears.

Two behaviours of the code that a reader might not expect, and that the
model follows:

- A summary card section is hidden when `base_stats.error` is *truthy*
  (`!baseStats.error`). Having an `error` field is not enough: an `error` of
  `""` does not hide it.
- The `description` copy of `multivalue_stats` is made only when
  `user_message` is a non-empty string.

## Model

| member | source | states |
|---|---|---|
| `Js.Put` | frontend/src/components/Interpreter.jsx:36-39 | assigning a property gives it the new value, leaves every other property's value alone, keeps the key order, and appends a new key last |
| `Interpreter.IsSpecial` | frontend/src/components/Interpreter.jsx:20 | the result is treated as special_case exactly when `mode` is "special_case"; a missing or empty mode is base_case |
| `Interpreter.NormalizeRow` | frontend/src/components/Interpreter.jsx:46-54 | `airline_name` is "Unknown" exactly when it is missing, empty or already "Unknown", and is the row's own name otherwise; `review` defaults to ""; the five other fields are passed through unchanged, absence included |
| `Interpreter.TopReviews` | frontend/src/components/Interpreter.jsx:21 | `top_reviews` has min(5, number of display rows) entries, and entry i is row i normalised; absent `display_rows` gives none |
| `Interpreter.TopReviewsArePrefix` | frontend/src/components/Interpreter.jsx:21 | the forwarded reviews equal the row-by-row normalisation of the first min(5, n) display rows, so the original order is kept |
| `Interpreter.SpecialStats` | frontend/src/components/Interpreter.jsx:32-41 | null outside special_case or without `multivalue_stats`; equal to `multivalue_stats` when there is no user message; otherwise `description` is the user message and every other property reads as in the original |
| `Interpreter.SpecialStatsKeys` | frontend/src/components/Interpreter.jsx:35-40 | the forwarded copy keeps every original key in order; `description` is the only key that can be added, at the end |
| `Interpreter.BuildPayload` | frontend/src/components/Interpreter.jsx:20-57 | `query` defaults to ""; `reintr_query` is `semantic_query_used` in special_case and `interpreted_query` otherwise, default ""; `base_stats` is `base_stats` or `summary_stats` by mode, default `{}`; `special_stats` is null outside special_case; at most five reviews |
| `Interpreter.MissingModeIsBaseCase` | frontend/src/components/Interpreter.jsx:20-29 | with no mode, the payload takes `interpreted_query` and `summary_stats` and sends no special stats |
| `Interpreter.NatToString` | frontend/src/components/Interpreter.jsx:76 | the status is rendered as a non-empty string of decimal digits, with no leading zero |
| `Interpreter.ParseNatToString` | frontend/src/components/Interpreter.jsx:76 | reading the rendered digits back gives the status |
| `Interpreter.ApiErrorMessage` | frontend/src/components/Interpreter.jsx:76 | the message is "API Error: ", then the status digits, then " - ", then the body text |
| `Interpreter.ApiErrorCarriesStatusAndBody` | frontend/src/components/Interpreter.jsx:74-77 | the status can be read back from the error message, and the message ends with the response body |
| `Interpreter.Settled` | frontend/src/components/Interpreter.jsx:74-84 | an answer gives Succeeded, with the answer text or "No interpretation returned." when it is missing or empty; a non-ok status gives Errored with the API error message; a failure gives Errored with its message, or "Failed to interpret results." when that is empty; the shown text is never empty |
| `Interpreter.ServerErrorExample` | frontend/src/components/Interpreter.jsx:74-76 | status 500 with body "boom" gives the error "API Error: 500 - boom" |
| `Interpreter.InterpreterPanel.constructor` | frontend/src/components/Interpreter.jsx:6-9 | the panel starts collapsed and Idle, with no error and no text |
| `Interpreter.InterpreterPanel.Begin` | frontend/src/components/Interpreter.jsx:12-57 | without results nothing changes and nothing is sent; otherwise the panel expands and enters Loading with the previous error and text cleared, and the body sent is `BuildPayload` of the result and query |
| `Interpreter.InterpreterPanel.Settle` | frontend/src/components/Interpreter.jsx:74-87 | from Loading, the outcome's phase is stored and `isInterpreting` is false in every outcome |
| `Interpreter.InterpreterPanel.HandleInterpret` | frontend/src/components/Interpreter.jsx:11-88 | a whole trigger: no change without results; otherwise the payload is sent, and afterwards loading is over and the phase is the outcome's |
| `SpecialCase.ToPoints` | frontend/src/components/SpecialCase.jsx:32-35 | one `{name, value}` entry per distribution entry, in order, with the key as name and the value unchanged |
| `SpecialCase.PointsRoundTrip` | frontend/src/components/SpecialCase.jsx:258-261 | the chart entries give back exactly the distribution: nothing is dropped, reordered or renormalised |
| `SpecialCase.ConditionalRatingView` | frontend/src/components/SpecialCase.jsx:28-40 | a missing group gives an empty chart and a displayed total of 0; a present group without `total` also displays 0; each chart has one entry per distribution entry of its group |
| `SpecialCase.ConditionalRatingFaithful` | frontend/src/components/SpecialCase.jsx:29-60 | the matching and opposite charts show their groups' distributions exactly, and a present total is displayed as received |
| `SpecialCase.RatingToRatingSlices` | frontend/src/components/SpecialCase.jsx:100-107 | exactly two slices, "Matching" with the match percent (0 when missing) and "Not Matching"; the values sum to 100 and the counts sum to `total_base_users` |
| `SpecialCase.PercentageSlices` | frontend/src/components/SpecialCase.jsx:313-320 | exactly two slices whose values sum to 100; the "Not Matching" count is `total_users - matching_users` when both are present and not a number otherwise |
| `SpecialCase.DistributionView` | frontend/src/components/SpecialCase.jsx:256-261 | the pie shows the distribution exactly, in order; a missing distribution gives an empty chart |
| `SpecialCase.DistributionExample` | frontend/src/components/SpecialCase.jsx:19-20 | `{A: 60, B: 40}` under `conditional_distribution_analysis` gives the bars A = 60 and B = 40 |
| `SpecialCase.AddAll` | frontend/src/components/SpecialCase.jsx:170 | adding keys to the insertion-ordered set keeps what was there first, adds exactly the new keys, and never duplicates |
| `SpecialCase.CompareValues` | frontend/src/components/SpecialCase.jsx:167-171 | the collected compare values have no duplicates |
| `SpecialCase.CompareValuesMembers` | frontend/src/components/SpecialCase.jsx:169-171 | a value is a compare value exactly when some category's distribution has it as a key |
| `PivotOrder.CompareValuesOrder` | frontend/src/components/SpecialCase.jsx:167-171 | the compare values are all categories' keys, in loop order, with each value kept at its first occurrence, as a `Set` keeps insertion order |
| `SpecialCase.CompareValuesGrow` | frontend/src/components/SpecialCase.jsx:169-171 | the values met in earlier categories come first |
| `SpecialCase.Row` | frontend/src/components/SpecialCase.jsx:174-177 | the row has `category` plus one column per compare value; each column holds the category's value or 0; `category` holds the category name unless a compare value is itself named "category" |
| `SpecialCase.Pivot` | frontend/src/components/SpecialCase.jsx:173-179 | one row per category in key order, and every row has every compare value's cell |
| `SpecialCase.PivotCells` | frontend/src/components/SpecialCase.jsx:173-179 | every row has the same columns; a cell is the category's own value when it has that key and 0 when it lacks it |
| `SpecialCase.CollectCompareValues` | frontend/src/components/SpecialCase.jsx:167-171 | the nested loop over categories and their keys produces exactly the compare values |
| `SpecialCase.BuildRow` | frontend/src/components/SpecialCase.jsx:174-178 | filling one row in place produces exactly that category's pivot row |
| `SpecialCase.BuildPivot` | frontend/src/components/SpecialCase.jsx:164-179 | the nested loops produce exactly the compare values and the pivot rows |
| `SpecialCase.Table` | frontend/src/components/SpecialCase.jsx:233-239 | one table line per category with its name, its total as received and exactly its distribution's entries |
| `SpecialCase.CategoryView` | frontend/src/components/SpecialCase.jsx:164-179 | the chart series are the duplicate-free compare values; the chart rows are the pivot rows and the table lines are the breakdown table, one per category |
| `SpecialCase.Render` | frontend/src/components/SpecialCase.jsx:11-25 | exact match on the five function names, each to its own layout; any other name, or none, gives the placeholder and never an error; each layout is built from `multivalue_stats`, or from `{}` when it is missing |
| `SpecialCase.HasValidBaseStats` | frontend/src/components/SpecialCase.jsx:382-387 | false when `error` is truthy or `base_stats` is missing; otherwise true exactly when one of the four card fields is defined |
| `SpecialCase.VisibleCards` | frontend/src/components/SpecialCase.jsx:415-442 | a card is shown exactly when the section is shown and its own field is defined; the section is shown exactly when it has at least one card |

## Left out

- `frontend/src/pages/Landing.jsx`: static marketing content and links, with no logic.
- All markup, styling, chart components, icons and the `COLORS` cycling, which are rendering only. The same goes for the fields that `SpecialCase.jsx` only displays (`user_message`, `base_condition`, `compare_condition`, `base_field`, `compare_field`, `condition`, `total_filtered_rows`, `target_field`, `note`, `field`, `operator`, `threshold`, `semantic_query_used`, `total_results_fetched`). In `Interpreter.jsx`, `user_message` and `semantic_query_used` feed the payload and are modelled.
- The `fetch` call, `resp.text()`/`resp.json()` decoding and the console logging. The response is an abstract `Outcome`; a body that does not decode as JSON is a `Failed` outcome with its message.
- `toFixed` formatting and all floating-point behaviour. Numbers are reals, so NaN, infinities and rounding are not modelled.
- Overlapping `handleInterpret` calls and a late response overwriting a newer one. `Settle` requires the panel to be Loading, which is what a single call guarantees.
- The manual collapse toggle of `isExpanded` (Interpreter.jsx:109), a pure UI switch. The model only records that a trigger expands the panel.
- JavaScript truthiness outside the modelled types. `airline_name`, `review`, the queries, `user_message` and `answer` are strings or absent; stats objects are objects or absent; numeric fields are numbers or absent. So `|| 0` on a number is `GetOr(0)`, and a non-object `multivalue_stats` spread by `{...}` is not modelled.
- JavaScript lists integer-like property names first. The model takes an object's entry order as the decoded JSON gives it. A pivot row's own key order is not modelled when a compare value is integer-like; the chart reads rows by key.
- `SpecialCase.Pivot`: `summary[cat].distribution[val]` throws when a category has no distribution while compare values exist. This is a precondition (`PivotDefined`), not a modelled exception.
- `SpecialCase.Render`: the breakdown table's `Object.entries(summary[cat].distribution)` throws when any category lacks a distribution. Rendering the category layout therefore requires every category to have one (`Renderable`).
