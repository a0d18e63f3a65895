# GrowGraph client core, modelled in Dafny

GrowGraph builds a career "mind map" in the browser. A generated initial map seeds a graph
canvas. Clicking a node asks a remote service for suggested next careers. Choosing one
fetches its details. "Add to map" attaches the career as a new child, placed on a fan
below its parent. In front of the map sit an email gate and a profile form, and the
application shell switches between these screens.

This project models that core and proves properties of it:

- `Js` (js.dfy): the JavaScript values the client handles. It covers truthiness, `typeof`,
  property reads, `||` and the string conversion done by a template literal.
- `Labels` (labels.dfy): the display label given to each node of the initial map.
- `Graph` (graph.dfy): node and edge records, seeding, the radial placement of a new
  child, and the pure effect of "add to map" on nodes, edges and per-parent counters.
- `MindMapView` (mindmap.dfy): the mind-map component as a class with its ten state
  fields and its three handlers (node click, suggestion click, add to map), plus what it
  draws.
- `Email` (email.dfy): the address check and the email form's submit and edit handlers.
- `Shell` (shell.dfy): the application's screen flow.

Payloads are stored exactly as received. Labels, titles, suggestion lists, detail records,
the generated map and the shell's error are therefore `JsValue`s, not strings. Remote
calls are replaced by their outcome (`Reply`), which the caller passes in. Each async
handler is one method. The state visible while its request is pending is returned as a
ghost `pending` snapshot. `cos` and `sin` are not evaluated. Placement takes a `Trig`
parameter that supplies `cos(pi*t)` and `sin(pi*t)`, and angles are kept as multiples
of pi.

Behaviour worth knowing, as the code has it:

- A node whose payload yields nothing is labelled with its own id. "No Label" is only a
  render-time fallback.
- No payload is normalised: the detail record and the suggestion list are kept verbatim.
- Seeding keeps edges whose endpoints name no node.
- The new child's id is `${parent}-${title}`. Adding the same title twice under one
  parent gives two nodes with the same id (`Graph.ChildIdCollision`).
- After "add to map" the selection and the detail record are not cleared.
- The mind map's error text is never cleared. While it is set, the component draws only
  that text (`MindMapView.ErrorSticks`).
- A failed suggestions request leaves `showSuggestions` as it was. The list stays hidden
  only because the error screen replaces everything.
- Nothing checks that the parent exists, and no stale response is ignored.
- Payloads are not checked against their declared types. A reply the render cannot draw
  makes it throw, and nothing catches the error. Examples are a suggestions reply without
  a `suggestions` array, and a detail record without `requirements` or one of its lists
  (`MindMapView.EmptyReplyBreaksList`, `MindMapView.PartialDetailBreaksView`). Payloads of
  the declared types always draw (`MindMapView.DeclaredTypesDraw`).
- The same holds for the shell. A failed generation whose `details` or `error` is an object
  stores that object, and drawing the error overlay throws (`Shell.ObjectDetailsBreakOverlay`).

## Model

| member | source | states |
|---|---|---|
| `Labels.ExtractLabel` | src/components/MindMap.tsx:82-95 | the label is the node id, a truthy value, or the first element of an array payload; a non-empty string payload is its own label; a nullish, boolean or numeric payload yields the id |
| `Labels.ExtractLabelIsFirstMatch` | src/components/MindMap.tsx:83-95 | the seeding code equals an independent first-match-wins list: `label`, non-empty string, string head of an array, then `name`, `title`, `text`, `value`, with the node id as fallback |
| `Labels.FirstMatchPicksFirst` | src/components/MindMap.tsx:84-94 | in a priority list, the first applicable rule decides the label |
| `Labels.NameBeatsLaterFields` | src/components/MindMap.tsx:90-92 | without a truthy `label`, a truthy `name` wins over `title`, `text` and `value` |
| `Graph.SeedNodes` | src/components/MindMap.tsx:82-103 | one node per raw node, in order, with the same id and position, the extracted label and type `custom` |
| `Graph.SeedKeepsIds` | src/components/MindMap.tsx:82-103 | seeding preserves the id sequence: count, order and ids |
| `Graph.Decorated` | src/components/MindMap.tsx:106-115 | every edge keeps its id and endpoints, is animated, is stroked `#1565c0` at width 3 and ends in a closed 32x32 arrow of that colour with stroke width 2 |
| `Graph.SeedEdges` | src/components/MindMap.tsx:105-116 | one edge per raw edge, in order, with the same id, source and target and the common decoration (animated, stroke `#1565c0` of width 3, closed arrow 32x32) |
| `Graph.SeedKeepsDanglingEdges` | src/components/MindMap.tsx:105-116 | an edge whose endpoints name no node is still kept, with its endpoints |
| `Graph.AngleOverPi` | src/components/MindMap.tsx:174-176 | the angle `pi/2 + (count - 3) * pi/8` is `(count + 1)/8` of pi; slots 0-6 lie strictly inside the lower half-turn, and slots from 7 on reach or pass its end |
| `Graph.ChildAtRadius` | src/components/MindMap.tsx:177-183 | whatever the slot, the child is placed 260 away from its parent (given `cos^2 + sin^2 = 1`) |
| `Graph.MiddleSlotStraightDown` | src/components/MindMap.tsx:173-183 | slot 3 puts the child directly below the parent, at distance 260 |
| `Graph.MirrorSlots` | src/components/MindMap.tsx:173-183 | slots `3 - d` and `3 + d` mirror each other about the vertical through the parent |
| `Graph.Bump` | src/components/MindMap.tsx:203-206 | the parent's counter (0 when absent) goes up by one; every other counter is unchanged |
| `Graph.ChildId` | src/components/MindMap.tsx:179 | a child's id is its parent's id, a dash, then the title as a template literal prints it |
| `Graph.ChildIdCollision` | src/components/MindMap.tsx:179 | two children of one parent share an id exactly when their titles print the same |
| `Graph.AddChild` | src/components/MindMap.tsx:173-206 | one node and one edge are appended and all earlier ones kept in order; the node has id `parentId-title`, label `title`, type `custom` and the position of the parent's next slot; the edge runs from the parent to the node; only the parent's counter moves, by one |
| `Graph.AddChildrenShape` | src/components/MindMap.tsx:201-206 | `n` additions under one parent append `n` nodes and `n` edges, raise its counter by `n` and leave other counters alone |
| `Graph.AddChildrenAt` | src/components/MindMap.tsx:178-202 | the i-th of several additions under one parent carries the i-th title and id, sits in slot `old count + i` and is the target of an edge from the parent |
| `MindMapView.FallbackDetail` | src/components/MindMap.tsx:156-163 | the record used after a failed detail request is truthy and has the chosen title, the fixed description, an empty salary and empty lists; with a string title it has the declared `CareerDetail` type, and with any drawable title the detail view can draw it |
| `MindMapView.ScreenOf` | src/components/MindMap.tsx:211-301 | the spinner shows exactly while loading; else the error text shows exactly when it is set; else the render throws exactly when the list is open and is not an array of drawable items, or the detail view is open on a truthy record whose five joined lists are not all arrays or whose title, description or salary is an object; otherwise the canvas shows with exactly the modals flagged open |
| `MindMapView.DeclaredTypesDraw` | src/components/MindMap.tsx:24-35 | a string-list suggestion state together with no detail or a detail of the declared `CareerDetail` type never makes the render throw |
| `MindMapView.AddChildKeepsGrowth` | src/components/MindMap.tsx:201-206 | "add to map" preserves growth from the seed: the seed stays a prefix, each added node has its one added edge pointing at it, and every counter equals the number of added edges leaving that parent |
| `MindMapView.MindMap.constructor` | src/components/MindMap.tsx:118-128 | the state starts with the seeded nodes and edges, no counters, no selection, no detail, an empty suggestion list, no error, and nothing loading or open |
| `MindMapView.MindMap.NodeClick` | src/components/MindMap.tsx:132-146 | the node is selected and loading is set before the request, which carries the node's label; on success with a non-nullish body, `body.suggestions` is stored verbatim and the list is opened; a null or undefined body counts as a failure, because reading its field throws; on failure the fixed error text is set and the list flags are kept; loading ends false; the graph and the detail state are untouched |
| `MindMapView.MindMap.SuggestionClick` | src/components/MindMap.tsx:149-168 | loading is set while the request for the chosen title is pending; the detail view opens with the body verbatim, or with the fallback record after a failure; loading ends false; nothing else changes |
| `MindMapView.MindMap.AddToMindMap` | src/components/MindMap.tsx:171-209 | with no selection or a falsy detail nothing changes at all; otherwise the graph becomes `AddChild` under the selected node with `careerDetail.title`, both modals close, and the selection and detail are kept |
| `MindMapView.ExpandRoot` | src/components/MindMap.tsx:132-301 | one expansion of a single root with replies of the declared types draws the list, then the list and the detail view, and "add to map" returns to the bare canvas with 2 nodes, 1 edge from the root to `root-Data Scientist` and a root counter of 1 |
| `MindMapView.ErrorSticks` | src/components/MindMap.tsx:132-146 | after a failed click the root stays selected and the error text is shown; no handler clears it, not even another successful click handler run (the error screen itself draws no node to click) |
| `MindMapView.EmptyReplyBreaksList` | src/components/MindMap.tsx:137-140 | a successful reply `{}` stores `undefined` as the suggestions, opens the list, and the render throws |
| `MindMapView.PartialDetailBreaksView` | src/components/MindMap.tsx:152-153 | a detail reply holding only a title opens the detail view, and the render throws |
| `MindMapView.FailedDetailStillOpens` | src/components/MindMap.tsx:155-167 | after a string-list click reply, a failed detail request opens the detail view with the fallback record, ends loading, and both the list and the detail view draw |
| `MindMapView.AddAfterFailedDetail` | src/components/MindMap.tsx:155-206 | adding from the fallback record creates the child `root-<choice>` labelled with the chosen suggestion and returns to the bare canvas |
| `Email.ValidateEmail` | src/components/EmailForm.tsx:18-21 | an accepted address has at least five characters, contains an '@', and neither starts nor ends with an '@' or whitespace |
| `Email.ValidatedIsWellFormed` | src/components/EmailForm.tsx:18-21 | every address the pattern accepts has no whitespace, exactly one '@' with text before it, and after it a '.' with text on both sides |
| `Email.WellFormedIsValidated` | src/components/EmailForm.tsx:18-21 | every address of that form is accepted by the pattern |
| `Email.ValidateEmailIsWellFormed` | src/components/EmailForm.tsx:18-21 | the pattern `^[^\s@]+@[^\s@]+\.[^\s@]+$` accepts a string exactly when it has no whitespace, exactly one '@' with text before it, and after it a '.' with text on both sides |
| `Email.CheckSubmission` | src/components/EmailForm.tsx:23-34 | an empty field is rejected with the "enter an email" text before the format is checked; a non-empty invalid one is rejected with the "valid address" text; exactly the valid ones are accepted, unchanged |
| `Email.AcceptedIffWellFormed` | src/components/EmailForm.tsx:23-34 | a submission is accepted exactly when the address is well formed in the sense above |
| `Email.EmailForm.constructor` | src/components/EmailForm.tsx:15-16 | the field and the error start empty |
| `Email.EmailForm.Change` | src/components/EmailForm.tsx:91-94 | editing stores the new text and clears the error |
| `Email.EmailForm.Submit` | src/components/EmailForm.tsx:23-34 | a rejection sets its message and calls nothing; an acceptance calls `onSubmit` once with the unchanged address and leaves the error as it was |
| `Shell.FailureMessage` | src/App.tsx:73 | the error is `details` when truthy, else `error` when truthy, else the fixed text, and it is always truthy |
| `Shell.TypedErrorsDraw` | src/App.tsx:23-26 | an error body of the declared `ApiError` type, or no object body at all, yields a string message the overlay can draw |
| `Shell.App.constructor` | src/App.tsx:53-57 | the session starts at the email gate, with no data, no error and nothing loading, which is a reachable state (`Valid`) |
| `Shell.App.EmailSubmit` | src/App.tsx:59-62 | from the drawn gate, the gate is hidden and the profile form shown; nothing else changes, and the reachable-state invariant is kept |
| `Shell.App.UserInputSubmit` | src/App.tsx:64-77 | from the drawn form: while pending, loading is set and the error cleared; success stores the body and hides the form; failure sets the chosen error text and keeps the form; loading ends false, and the reachable-state invariant is kept |
| `Shell.App.Retry` | src/App.tsx:79-82 | from the drawn overlay, the error is cleared and the profile form shown again, and the reachable-state invariant is kept |
| `Shell.GateShownAlone` | src/App.tsx:87-91 | in every reachable state, while the email gate is shown, neither the profile form, the mind map nor the error overlay is |
| `Shell.MapAndErrorExclusive` | src/App.tsx:89-119 | in every reachable state, the mind map and the error overlay are never drawn together |
| `Shell.MapIsFinal` | src/App.tsx:87-136 | in every reachable state with the map drawn, no gate, profile form or retry button is drawn, so no shell handler can take the map away |
| `Shell.SuccessfulSession` | src/App.tsx:87-91 | passing the gate and receiving a map with `nodes` and `edges` arrays shows the map and no error overlay |
| `Shell.FailedSessionThenRetry` | src/App.tsx:64-136 | a failed generation with an `ApiError` body, or none, draws the error overlay with its retry button and no map; retry clears the error and keeps the form |
| `Shell.ObjectDetailsBreakOverlay` | src/App.tsx:73-135 | an error body whose `details` is an object is stored as it is, and drawing the overlay throws, so no retry button appears |

## Left out

- All rendering: the canvas, modals, styles, the logo and the `CustomNode` renderer. This
  includes its `'No Label'` fallback and the JSON dump of the generated map. Only
  `ScreenOf` and `ShowsMindMap`/`ShowsError`/`OverlayThrows` say what is drawn.
- The modal close buttons and backdrop handlers, which set `showSuggestions` or
  `showDetailModal` to false. They sit inside the rendering code.
- Network I/O, `API_URL` and environment handling. Every request is replaced by a `Reply`
  the caller supplies. The request bodies (`nodeContent`, `careerTitle`) are returned as
  out-parameters.
- `onConnect` through the canvas library's `addEdge`, and node drag edits through
  `onNodesChange`/`onEdgesChange`. These are library behaviour.
- The debug `console.log` calls.
- The unused `expanded` state.
- The profile form and the career-details dialog. They are field binding only, and the
  profile record sent for generation is not a parameter.
- Interleaving of async handlers and stale responses. Each handler runs to completion
  here.
- `Shell.SuccessfulSession`: it says the map is shown, that is, the component is mounted.
  The shell hands `mindMapData` to the component as `initialData`, and that hand-off is
  not modelled: the component takes a typed `InitialData`. So the scenario does not
  promise the component renders. A payload whose `nodes` holds a `null` entry, for
  example, makes seeding throw.
- Raw node and edge properties other than id, position, data, source and target. The code
  copies them by spread.
- `Js.JsValue`: numbers are the safe integers (magnitude below 2^53), so fractions, `NaN`,
  `-0`, infinities and larger numbers are not modelled. This covers `Js.ToText` printing
  large numbers in exponent notation, such as `1e+21`, and the ids `Graph.ChildId` would
  build from such titles.
  Floating-point rounding of the angle and positions is not modelled either; positions
  are reals.
- `Js.Get`: properties inherited from `Object.prototype` are not modelled. A counter key
  or a payload key such as `constructor` or `toString` would read a prototype function in
  the code.
- `MindMapView.ScreenOf`: the node renderer is not modelled, so an object node label,
  which would also make the render throw, does not yield `Throws`.
- `Graph.ChildPosition`: `cos` and `sin` come from the caller's `Trig`. Only the angle is
  verified, plus the consequences of the reflection identities.
