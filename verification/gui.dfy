/**
 * The client's GUI manager: at most one GUI open at a time, closed by Escape,
 * with every other input forwarded to it.
 */
module Gui {
  import opened Wrappers
  import opened Input

  /** An open GUI, standing for the boxed `dyn Gui`. */
  type GuiId = nat

  /** A call the manager makes on a GUI; the GUI's own state is not modelled. */
  datatype GuiCall = Closed(gui: GuiId) | Forwarded(gui: GuiId, input: PlatformInput) | Rendered(gui: GuiId)

  predicate IsEscape(input: PlatformInput) {
    input.Keyboard? && input.key == Escape
  }

  /** `GuiManager { current_open }`, with the calls made on GUIs so far. */
  class GuiManager {
    var current: Option<GuiId>
    var calls: seq<GuiCall>

    /** `new`: nothing open. */
    constructor New()
      ensures current == None && calls == []
    {
      current := None;
      calls := [];
    }

    /** `is_open`. */
    function IsOpen(): (r: bool)
      reads this
      ensures r <==> current != None
    {
      current.Some?
    }

    /** `open`: the GUI replaces any open one, which is not closed. */
    method Open(gui: GuiId)
      modifies this
      ensures current == Some(gui) && calls == old(calls)
    {
      current := Some(gui);
    }

    /** `close`: the open GUI, if any, is closed once, and nothing is open after. */
    method Close()
      modifies this
      ensures current == None
      ensures old(current).Some? ==> calls == old(calls) + [Closed(old(current).value)]
      ensures old(current).None? ==> calls == old(calls)
    {
      match current {
        case Some(gui) =>
          current := None;
          calls := calls + [Closed(gui)];
        case None =>
      }
    }

    /**
     * `input`: with a GUI open, Escape (pressed or released) closes it and is
     * not forwarded, and any other input is forwarded; with nothing open the
     * input is ignored.
     */
    method HandleInput(input: PlatformInput)
      modifies this
      ensures old(current).None? ==> current == None && calls == old(calls)
      ensures old(current).Some? && IsEscape(input) ==>
        current == None && calls == old(calls) + [Closed(old(current).value)]
      ensures old(current).Some? && !IsEscape(input) ==>
        current == old(current) && calls == old(calls) + [Forwarded(old(current).value, input)]
    {
      if current.Some? {
        var gui := current.value;
        if IsEscape(input) {
          calls := calls + [Closed(gui)];
          current := None;
          return;
        }
        calls := calls + [Forwarded(gui, input)];
      }
    }

    /** `render_if_open`: the open GUI, if any, is rendered. */
    method RenderIfOpen()
      modifies this
      ensures current == old(current)
      ensures old(current).Some? ==> calls == old(calls) + [Rendered(old(current).value)]
      ensures old(current).None? ==> calls == old(calls)
    {
      if current.Some? {
        calls := calls + [Rendered(current.value)];
      }
    }
  }
}
