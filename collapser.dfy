/** The expanded/collapsed toggle of Blockly.FieldCollapser as a pure state machine.
    `Fields` is the observable state of one field object; every operation of the
    field is a function from the old `Fields` to the new one, and the class in
    module CollapserField is proved to behave exactly as these functions say. */
module Collapser {

  datatype Option<T> = None | Some(value: T)

  /** A change notification as handed to the event bus:
      (element kind, field name, old state, new state). The host block reference
      of the real event is left implicit: a field belongs to one block. */
  datatype ChangeEvent = Change(element: string, name: string, oldValue: bool, newValue: bool)

  /** What a validator may answer for a proposed state: nothing (the proposal
      stands), another value (it replaces the proposal), or null (the change is
      aborted). */
  datatype Verdict = Keep | Override(value: bool) | Veto

  type Validator = bool -> Verdict

  /** The observable state of a field object.
      - state:     `state_`, true when the field shows its "expand" icon
      - attached:  a source block is set (assumed to set `workspace_` too)
      - mediaPath: the workspace's `options.pathToMedia`
      - name:      the field's name on its block
      - hasGroup:  `fieldGroup_` exists
      - hasImage:  `imageElement_` exists
      - src:       `src_`, None while it was never assigned
      - events:    the change events sent to the bus, oldest first */
  datatype Fields = Fields(
    state: bool,
    attached: bool,
    mediaPath: string,
    name: string,
    hasGroup: bool,
    hasImage: bool,
    src: Option<string>,
    events: seq<ChangeEvent>)

  /** The element kind every change event of a field carries. */
  const FieldElement := "field"

  /** How `setValue` reads a token: only the exact string "TRUE" means true. */
  predicate Parse(token: string)
  {
    token == "TRUE"
  }

  /** `getValue`: the state as an upper-case token. */
  function Token(b: bool): (r: string)
    ensures Parse(r) == b
    ensures r == "TRUE" || r == "FALSE"
  {
    if b then "TRUE" else "FALSE"
  }

  /** The icon source for a state: the media path, the icon name and ".png". */
  function IconPath(mediaPath: string, state: bool): string
  {
    mediaPath + (if state then "expand" else "collapse") + ".png"
  }

  /** The invariant every field object keeps: an image exists only inside a group
      of an attached field, `src` is assigned exactly when the image exists and
      then names the icon of the current state, and no event is sent before the
      field is attached. */
  predicate Valid(f: Fields)
  {
    (f.hasImage ==> f.hasGroup && f.attached) &&
    f.src == (if f.hasImage then Some(IconPath(f.mediaPath, f.state)) else None) &&
    (!f.attached ==> f.events == [])
  }

  /** The event `setValue` sends when the state of `f` becomes `newState`. */
  function ChangeTo(f: Fields, newState: bool): ChangeEvent
  {
    Change(FieldElement, f.name, f.state, newState)
  }

  /** The constructor: the state comes from the initial token; the field is not
      attached, so no event is sent, and nothing is displayed. */
  function Construct(token: string): (r: Fields)
    ensures r.state <==> token == "TRUE"
    ensures !r.attached && !r.hasGroup && !r.hasImage
    ensures r.events == [] && r.src == None
    ensures Valid(r)
  {
    Fields(Parse(token), false, "", "", false, false, None, [])
  }

  /** Binding the field to a block of a workspace, done by the block when the
      field is appended to one of its inputs. */
  function Attach(f: Fields, name: string, mediaPath: string): (r: Fields)
    requires !f.attached
    ensures r.attached && r.name == name && r.mediaPath == mediaPath
    ensures r.state == f.state && r.events == f.events && r.src == f.src
    ensures r.hasGroup == f.hasGroup && r.hasImage == f.hasImage
    ensures Valid(f) ==> Valid(r)
  {
    f.(attached := true, name := name, mediaPath := mediaPath)
  }

  /** `setValue(token)`; `eventsOn` stands for `Blockly.Events.isEnabled()`. */
  function SetValue(f: Fields, token: string, eventsOn: bool): (r: Fields)
    // the new state is true exactly for the token "TRUE"
    ensures r.state <==> token == "TRUE"
    // one event, describing the change, exactly when the state changes on an
    // attached field with events enabled; otherwise the log is untouched
    ensures |r.events| == |f.events| + 1 <==> f.state != r.state && f.attached && eventsOn
    ensures |r.events| != |f.events| + 1 ==> r.events == f.events
    ensures |r.events| == |f.events| + 1 ==> r.events == f.events + [Change(FieldElement, f.name, f.state, r.state)]
    // the icon source follows the state once the image exists, and is untouched before
    ensures f.hasImage && r.state != f.state ==> r.src == Some(IconPath(f.mediaPath, r.state))
    ensures !f.hasImage ==> r.src == f.src
    ensures r.state == f.state ==> r == f
    // nothing else changes
    ensures r.attached == f.attached && r.mediaPath == f.mediaPath && r.name == f.name
    ensures r.hasGroup == f.hasGroup && r.hasImage == f.hasImage
    ensures Valid(f) ==> Valid(r)
  {
    var newState := Parse(token);
    if f.state == newState then f
    else
      var log := if f.attached && eventsOn then f.events + [ChangeTo(f, newState)] else f.events;
      var src := if f.hasImage then Some(IconPath(f.mediaPath, newState)) else f.src;
      f.(state := newState, events := log, src := src)
  }

  /** Whether `init` stops with an error: with no source block, reading
      `this.sourceBlock_.workspace` throws once the group exists. */
  predicate InitThrows(f: Fields)
  {
    !f.hasGroup && !f.attached
  }

  /** `init`: builds the group and, on an attached field, the image with the icon
      of the current state. A field whose group exists is left as it is. */
  function Init(f: Fields): (r: Fields)
    ensures f.hasGroup ==> r == f
    ensures r.hasGroup
    ensures !f.hasGroup && f.attached ==> r.hasImage && r.src == Some(IconPath(f.mediaPath, f.state))
    ensures InitThrows(f) ==> r.hasImage == f.hasImage && r.src == f.src
    ensures r.state == f.state && r.events == f.events
    ensures r.attached == f.attached && r.mediaPath == f.mediaPath && r.name == f.name
    ensures Valid(f) ==> Valid(r)
  {
    if f.hasGroup then f
    else if !f.attached then f.(hasGroup := true)
    else f.(hasGroup := true, hasImage := true, src := Some(IconPath(f.mediaPath, f.state)))
  }

  /** Passing a proposed state through the field's optional validator: None
      means the change is aborted. */
  function CallValidator(validator: Option<Validator>, proposal: bool): (r: Option<bool>)
    ensures validator.None? ==> r == Some(proposal)
    ensures validator.Some? ==> (r.None? <==> validator.value(proposal).Veto?)
    ensures validator.Some? && validator.value(proposal).Keep? ==> r == Some(proposal)
    ensures validator.Some? && validator.value(proposal).Override? ==> r == Some(validator.value(proposal).value)
  {
    match validator
    case None => Some(proposal)
    case Some(v) =>
      match v(proposal)
      case Keep => Some(proposal)
      case Override(b) => Some(b)
      case Veto => None
  }

  /** `showEditor_`: the user's toggle. The flipped state is proposed; on an
      attached field the validator may replace or veto it; what survives is
      committed through `setValue` as a token. */
  function ShowEditor(f: Fields, validator: Option<Validator>, eventsOn: bool): (r: Fields)
    ensures !f.attached ==> r == SetValue(f, Token(!f.state), eventsOn)
    ensures !f.attached ==> r.state == !f.state && r.events == f.events
    ensures f.attached && CallValidator(validator, !f.state).Some? ==>
              r.state == CallValidator(validator, !f.state).value
    ensures f.attached && CallValidator(validator, !f.state).None? ==> r == f
    ensures f.attached && CallValidator(validator, !f.state).Some? ==>
              r == SetValue(f, Token(CallValidator(validator, !f.state).value), eventsOn)
    ensures Valid(f) ==> Valid(r)
  {
    var proposal := !f.state;
    var decided := if f.attached then CallValidator(validator, proposal) else Some(proposal);
    match decided
    case None => f
    case Some(b) => SetValue(f, Token(b), eventsOn)
  }

  /* ---------------- properties relating several calls ---------------- */

  /** `setValue(getValue())` changes nothing. */
  lemma SetValueOfGetValue(f: Fields, eventsOn: bool)
    ensures SetValue(f, Token(f.state), eventsOn) == f
  {
  }

  /** Repeating a `setValue` changes nothing more, whatever the event flag. */
  lemma SetValueIdempotent(f: Fields, token: string, eventsOn: bool, eventsOnAgain: bool)
    ensures SetValue(SetValue(f, token, eventsOn), token, eventsOnAgain) == SetValue(f, token, eventsOn)
  {
  }

  /** `setValue("TRUE")` twice on a collapsed, attached field with events enabled
      sends exactly one event. */
  lemma RepeatedTrueSendsOneEvent(f: Fields)
    requires f.attached && !f.state
    ensures SetValue(SetValue(f, "TRUE", true), "TRUE", true).events
            == f.events + [Change(FieldElement, f.name, false, true)]
  {
  }

  /** A constructed field reports its initial token back when that token is one
      of the two canonical ones. */
  lemma ConstructGetValue(token: string)
    requires token == "TRUE" || token == "FALSE"
    ensures Token(Construct(token).state) == token
  {
  }

  /** A second `init` changes nothing. */
  lemma InitIdempotent(f: Fields)
    ensures Init(Init(f)) == Init(f)
  {
  }

  /** Without a validator, two toggles bring back the state and the icon. */
  lemma ShowEditorTwiceRestores(f: Fields, eventsOn: bool)
    requires Valid(f)
    ensures ShowEditor(ShowEditor(f, None, eventsOn), None, eventsOn).state == f.state
    ensures ShowEditor(ShowEditor(f, None, eventsOn), None, eventsOn).src == f.src
  {
  }

  /* ---------------- runs of operations ---------------- */

  /** One call on a field whose block is fixed. */
  datatype Op = SetValueOp(token: string, eventsOn: bool) | InitOp | ShowEditorOp(eventsOn: bool)

  function Step(f: Fields, validator: Option<Validator>, op: Op): Fields
  {
    match op
    case SetValueOp(token, on) => SetValue(f, token, on)
    case InitOp => Init(f)
    case ShowEditorOp(on) => ShowEditor(f, validator, on)
  }

  function Run(f: Fields, validator: Option<Validator>, ops: seq<Op>): Fields
    decreases |ops|
  {
    if ops == [] then f else Run(Step(f, validator, ops[0]), validator, ops[1..])
  }

  /** Every run keeps the icon consistent with the state. */
  lemma {:induction false} RunKeepsValid(f: Fields, validator: Option<Validator>, ops: seq<Op>)
    requires Valid(f)
    ensures Valid(Run(f, validator, ops))
    decreases |ops|
  {
    if ops != [] {
      RunKeepsValid(Step(f, validator, ops[0]), validator, ops[1..]);
    }
  }

  /** A run only appends to the event log, and never changes the binding of the
      field; on a field that is not attached it appends nothing. */
  lemma {:induction false} RunAppendsOnly(f: Fields, validator: Option<Validator>, ops: seq<Op>)
    ensures f.events <= Run(f, validator, ops).events
    ensures !f.attached ==> Run(f, validator, ops).events == f.events
    ensures Run(f, validator, ops).attached == f.attached
    ensures Run(f, validator, ops).name == f.name
    ensures Run(f, validator, ops).mediaPath == f.mediaPath
    decreases |ops|
  {
    if ops != [] {
      RunAppendsOnly(Step(f, validator, ops[0]), validator, ops[1..]);
    }
  }

  /** The event log is an exact history of the state: every event is a real
      change of this field, each one starts where the previous one ended, and
      the last one ends in the current state. */
  predicate History(f: Fields)
  {
    (forall i :: 0 <= i < |f.events| ==>
       f.events[i].element == FieldElement && f.events[i].name == f.name &&
       f.events[i].oldValue != f.events[i].newValue) &&
    (forall i :: 0 < i < |f.events| ==> f.events[i - 1].newValue == f.events[i].oldValue) &&
    (|f.events| > 0 ==> f.events[|f.events| - 1].newValue == f.state)
  }

  predicate EventsOn(op: Op)
  {
    !op.InitOp? ==> op.eventsOn
  }

  /** With events enabled, one call keeps the log an exact history. */
  lemma StepKeepsHistory(f: Fields, validator: Option<Validator>, op: Op)
    requires Valid(f) && History(f) && EventsOn(op)
    ensures History(Step(f, validator, op))
  {
  }

  /** With events enabled throughout, a run keeps the log an exact history. */
  lemma {:induction false} RunKeepsHistory(f: Fields, validator: Option<Validator>, ops: seq<Op>)
    requires Valid(f) && History(f)
    requires forall k :: 0 <= k < |ops| ==> EventsOn(ops[k])
    ensures History(Run(f, validator, ops))
    decreases |ops|
  {
    if ops != [] {
      StepKeepsHistory(f, validator, ops[0]);
      RunKeepsValid(f, validator, [ops[0]]);
      assert Run(f, validator, [ops[0]]) == Step(f, validator, ops[0]);
      RunKeepsHistory(Step(f, validator, ops[0]), validator, ops[1..]);
    }
  }

  /** The number of state changes a sequence of tokens causes from `state`. */
  function Flips(state: bool, tokens: seq<string>): nat
    decreases |tokens|
  {
    if tokens == [] then 0
    else (if Parse(tokens[0]) != state then 1 else 0) + Flips(Parse(tokens[0]), tokens[1..])
  }

  /** The `setValue` calls, with events enabled, that give the tokens in order. */
  function SetValueOps(tokens: seq<string>): seq<Op>
  {
    seq(|tokens|, k requires 0 <= k < |tokens| => SetValueOp(tokens[k], true))
  }

  /** On an attached field with events enabled, a run of `setValue` calls sends
      exactly one event per state change, and none otherwise. */
  lemma {:induction false} SetValuesEventCount(f: Fields, validator: Option<Validator>, tokens: seq<string>)
    requires f.attached
    ensures |Run(f, validator, SetValueOps(tokens)).events| == |f.events| + Flips(f.state, tokens)
    decreases |tokens|
  {
    if tokens != [] {
      var ops := SetValueOps(tokens);
      assert ops[0] == SetValueOp(tokens[0], true);
      assert ops[1..] == SetValueOps(tokens[1..]);
      SetValuesEventCount(SetValue(f, tokens[0], true), validator, tokens[1..]);
    }
  }
}
