/** Blockly.FieldCollapser as an object whose methods update its fields in place.
    Each method is proved to move the object's state, seen through `Model()`,
    exactly as the matching function of module Collapser says, and to keep the
    invariant `Collapser.Valid`. */
module CollapserField {
  import opened Collapser

  class FieldCollapser {
    var state: bool
    var attached: bool
    var mediaPath: string
    var name: string
    var hasGroup: bool
    var hasImage: bool
    var src: Option<string>
    /** The event bus, as the list of events the field has sent to it. */
    var events: seq<ChangeEvent>
    /** The optional validator given to the constructor. */
    const validator: Option<Validator>

    /** The object's state as a value. */
    function Model(): Fields
      reads this
    {
      Fields(state, attached, mediaPath, name, hasGroup, hasImage, src, events)
    }

    predicate Valid()
      reads this
    {
      Collapser.Valid(Model())
    }

    /** `new Blockly.FieldCollapser(token, validator)`. */
    constructor (token: string, validator: Option<Validator>)
      ensures Valid()
      ensures Model() == Construct(token)
      ensures this.validator == validator
    {
      state := token == "TRUE";
      attached := false;
      mediaPath := "";
      name := "";
      hasGroup := false;
      hasImage := false;
      src := None;
      events := [];
      this.validator := validator;
    }

    /** Binding to a block: the block sets the field's source block and name.
        The model assumes that `workspace_`, whose media path `init` and
        `setValue` read, is set in the same step. */
    method AttachToBlock(blockName: string, workspaceMediaPath: string)
      requires Valid() && !attached
      modifies this
      ensures Valid()
      ensures Model() == Attach(old(Model()), blockName, workspaceMediaPath)
    {
      attached := true;
      name := blockName;
      mediaPath := workspaceMediaPath;
    }

    /** `init`; `ok` is false when it stops with an error for want of a source block. */
    method Init() returns (ok: bool)
      requires Valid()
      modifies this
      ensures Valid()
      ensures Model() == Collapser.Init(old(Model()))
      ensures ok <==> !InitThrows(old(Model()))
    {
      if hasGroup {
        return true;
      }
      hasGroup := true;
      if !attached {
        return false;
      }
      src := Some(IconPath(mediaPath, state));
      hasImage := true;
      ok := true;
    }

    /** `getValue`. */
    function GetValue(): (r: string)
      reads this
      ensures r == "TRUE" <==> state
      ensures r == "FALSE" <==> !state
    {
      Token(state)
    }

    /** `setValue`; `eventsOn` stands for `Blockly.Events.isEnabled()`. */
    method SetValue(token: string, eventsOn: bool)
      requires Valid()
      modifies this
      ensures Valid()
      ensures Model() == Collapser.SetValue(old(Model()), token, eventsOn)
      ensures state <==> token == "TRUE"
    {
      var newState := token == "TRUE";
      if state != newState {
        if attached && eventsOn {
          events := events + [Change(FieldElement, name, state, newState)];
        }
        state := newState;
        if hasImage {
          src := Some(IconPath(mediaPath, state));
        }
      }
    }

    /** `showEditor_`, the handler of a click on the field. */
    method ShowEditor(eventsOn: bool)
      requires Valid()
      modifies this
      ensures Valid()
      ensures Model() == Collapser.ShowEditor(old(Model()), validator, eventsOn)
    {
      var newState: Option<bool> := Some(!state);
      if attached {
        newState := CallValidator(validator, !state);
      }
      if newState.Some? {
        SetValue(Token(newState.value), eventsOn);
      }
    }
  }
}
