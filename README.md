# Blockly.FieldCollapser: the collapse toggle field

`Blockly.FieldCollapser` is the field on a Blockly block that shows an
expand/collapse icon. The field holds one boolean, `state_`. It reads and
writes that boolean as the string tokens `"TRUE"` and `"FALSE"`. When the
state really changes, it sends a change event to the event bus. Once its
image exists, it points the image at the icon for the current state. A click
on the field flips the state. The field's optional validator may first replace
the flipped value or veto it.

The project has two modules:

- `Collapser` (collapser.dfy) is the field as a pure state machine. `Fields`
  is a value that holds everything a caller can observe: the state, whether a
  block is attached, the media path, the name, whether the group and the image
  exist, `src_`, and the list of events sent so far. Each operation is a
  function from the old `Fields` to the new one. Its `ensures` clauses state
  what one call does. Lemmas state what several calls do, including whole
  runs of operations: the icon invariant holds, the log only grows, the log is
  an exact history of the state, and there is one event per state change.
- `CollapserField` (collapser_field.dfy) is the class `FieldCollapser`, with
  one field for each piece of the JavaScript object's state that the model
  keeps. `attached` stands for `sourceBlock_` and `workspace_`, and `hasGroup`
  and `hasImage` stand for the DOM elements `fieldGroup_` and `imageElement_`. Its methods update those fields in
  place, in the same steps as the source. Each method is proved to move
  `Model()` exactly as the matching `Collapser` function says. Each one also
  keeps the invariant `Valid()`.

Points where the model follows the code:

- `setValue` tests `== 'TRUE'`, so only the exact token `"TRUE"` gives
  `true`. `"true"`, `"1"` and every other string give `false`.
- `state_ == true` selects the `expand` icon, and `false` selects `collapse`.
  The code does this at core/field_collapser.js:79 and :113. The doc comment
  of `getValue` (:94) calls `"TRUE"` collapsed, so a collapsed field shows
  the `expand` icon.
- `init` checks whether `fieldGroup_` exists, but `setValue` checks whether
  `imageElement_` exists. So the model keeps two flags, `hasGroup` and
  `hasImage`.
- With no source block, `init` throws when it reads `this.sourceBlock_.workspace`.
  By then it has already created `fieldGroup_`. The model returns
  `ok == false` and sets only `hasGroup`. A later `init` then returns early, so
  that field never gets an image.
- The constructor calls `setValue(state)` before any source block is
  attached. So no event is sent, and there is no image, so `src_` stays
  unset. The model assumes the base constructor (:42) leaves `state_` unset
  or false. Either way the state afterwards is true exactly for `"TRUE"`.
- `Blockly.Events.isEnabled()` is the parameter `eventsOn`.
- The event bus is the `events` sequence of the field.
- A validator's answer is a `Verdict`. `Keep` is a function that returns
  nothing, `Override(b)` is a returned value, and `Veto` is `null`. The doc
  comment at core/field_collapser.js:34-37 describes these three answers.

## Model

| member | source | states |
|---|---|---|
| Collapser.Token | core/field_collapser.js:97-99 | `getValue` gives `"TRUE"` exactly when the state is true and `"FALSE"` otherwise; reading the token back with `setValue`'s test gives the state again |
| Collapser.Construct | core/field_collapser.js:41-47 | the constructor sets the state to true exactly for the token `"TRUE"`, sends no event, builds no display and leaves `src_` unset; the result satisfies the icon invariant |
| Collapser.SetValue | core/field_collapser.js:105-117 | new state true iff the token is exactly `"TRUE"`; exactly one event (`"field"`, name, old state, new state) is appended iff the state changes on an attached field with events enabled, otherwise the log is unchanged; once the image exists `src_` is the icon of the new state, before that it is untouched; an unchanged state leaves everything unchanged; binding and display flags never change; the icon invariant is kept |
| Collapser.Init | core/field_collapser.js:61-91 | a field whose group exists is returned unchanged; otherwise the group exists afterwards, and an attached field gets its image with `src_` = media path + (`expand` if the state is true else `collapse`) + `.png`; with no source block the call stops with the group built and no image; state and log are untouched; the icon invariant is kept |
| Collapser.CallValidator | core/field_collapser.js:34-37 | with no validator the proposal stands; with one, a null answer aborts the change, no answer keeps the proposal and a value replaces it |
| Collapser.ShowEditor | core/field_collapser.js:123-132 | with no source block the result is `setValue` of the flipped token: the state always flips, no event is sent and nothing else changes except `src_` following the state; with one, a veto leaves the whole field unchanged, and otherwise the new state is the validator's value, committed through `setValue` as its token; the icon invariant is kept |
| Collapser.SetValueOfGetValue | core/field_collapser.js:97-107 | `setValue(getValue())` leaves the whole field (state, `src_`, log) unchanged |
| Collapser.SetValueIdempotent | core/field_collapser.js:105-107 | repeating a `setValue` with the same token changes nothing more, with events enabled or not |
| Collapser.RepeatedTrueSendsOneEvent | core/field_collapser.js:105-110 | `setValue("TRUE")` twice on an attached field in the false state with events enabled sends exactly one event, from false to true |
| Collapser.ConstructGetValue | core/field_collapser.js:41-47 | a field constructed from `"TRUE"` or `"FALSE"` gives that token back from `getValue` |
| Collapser.InitIdempotent | core/field_collapser.js:61-65 | a second `init` changes nothing |
| Collapser.ShowEditorTwiceRestores | core/field_collapser.js:123-132 | without a validator, two toggles give back the original state and icon source |
| Collapser.RunKeepsValid | core/field_collapser.js:61-117 | after any sequence of `setValue`, `init` and `showEditor_` calls, `src_` is set exactly when the image exists, and then it names the icon of the current state |
| Collapser.RunAppendsOnly | core/field_collapser.js:105-132 | any sequence of calls only appends to the event log, appends nothing on an unattached field, and never changes the field's block, name or media path |
| Collapser.StepKeepsHistory | core/field_collapser.js:105-132 | with events enabled, one call keeps the log an exact history of the state |
| Collapser.RunKeepsHistory | core/field_collapser.js:105-132 | with events enabled throughout, any sequence of calls keeps the log an exact history: every event is a real change of this field, each one starts where the previous one ended, and the last one ends in the current state |
| Collapser.SetValuesEventCount | core/field_collapser.js:106-110 | on an attached field with events enabled, a sequence of `setValue` calls sends exactly one event per state change |
| Collapser.Attach | core/field_collapser.js:105-110 | stands in for binding the field to a block, which is code outside core/field_collapser.js; it sets the block and name, and the media path that `setValue` (:113) and `init` (:79) read through `workspace_`, which binding is assumed to set at the same time, changes nothing else, and keeps the icon invariant |
| CollapserField.FieldCollapser.AttachToBlock | core/field_collapser.js:105-110 | stands in for the base-class binding outside core/field_collapser.js; updates the object exactly as `Collapser.Attach` and keeps the invariant |
| CollapserField.FieldCollapser.constructor | core/field_collapser.js:41-47 | the new object's state is `Construct(token)` and it keeps the given validator |
| CollapserField.FieldCollapser.Init | core/field_collapser.js:61-91 | updates the object in place exactly as `Collapser.Init`, keeps the invariant, and reports the error case exactly when no group exists and no block is attached |
| CollapserField.FieldCollapser.GetValue | core/field_collapser.js:97-99 | returns `"TRUE"` iff the state is true and `"FALSE"` iff it is false |
| CollapserField.FieldCollapser.SetValue | core/field_collapser.js:105-117 | updates the object in place exactly as `Collapser.SetValue`, so the state is true iff the token is `"TRUE"`, and keeps the invariant |
| CollapserField.FieldCollapser.ShowEditor | core/field_collapser.js:123-132 | updates the object in place exactly as `Collapser.ShowEditor` with the object's validator, and keeps the invariant |

## Left out

- SVG and DOM construction is not modelled: `createSvgElement`, the
  rectangle and image attributes, `setAttributeNS`, `style.display` for an
  invisible field, `appendChild` and `updateEditable`. The model keeps only
  the fact that the group and the image exist, and the value of `src_`.
- The size fields `height_`, `width_` and `size_` are left out. They are
  rendering constants.
- The mouse-up binding `Blockly.bindEvent_` is left out. `ShowEditor` is the
  handler it would call.
- `Blockly.Events.fire`, `Blockly.Events.isEnabled` and `Blockly.Events.Change`
  are not part of this model. An event is an entry appended to `events`, and
  it is guarded by the `eventsOn` parameter. The host block reference of a
  real event is left implicit.
- The base class `Blockly.Field` is not part of this model. That covers its
  constructor, `callValidator`, `setValidator`, and the code that binds a
  field to a block and gives it a name. `CallValidator` follows the doc
  comment of this file. `AttachToBlock` and `Collapser.Attach` stand in for
  the binding, which happens once.
- `workspace_` is read at core/field_collapser.js:79 and :113. It is set by
  binding code that is not part of this model. `Attach` assumes it is set in
  the same step as the source block. If it were not, `init` would throw at
  :79 after building the group, with no image and no `src_`. The model does
  not represent that case.
- `setValue` is given strings only. JavaScript's loose `==` on non-string
  arguments is not modelled.
- Validators return booleans only. A validator that returns a non-boolean
  value is not modelled.
- The `goog.isString` fallback for `src_` is not modelled, because `src_` is
  always a string concatenation.
- Validators are modelled as pure functions of the proposed state. In the
  source a validator runs with `this` bound to the field and could read it or
  call `setValue` itself; such side effects are not modelled.
