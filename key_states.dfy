/**
  The older keyboard state (`core::input::Input`): one boolean per virtual
  key code in a fixed array of 1024 cells.
 */
module KeyStates {
  import opened Wrappers
  import Input

  /** The length of `keys_states`. */
  const KeyCount: nat := 1024

  /** `winit::event::KeyboardInput`: an optional virtual key code and the press state. */
  datatype KeyboardInput = KeyboardInput(virtualKeycode: Option<nat>, state: Input.ElementState)

  /** `core::input::Input`. */
  class KeyboardState {
    const keysStates: array<bool>

    ghost predicate Valid()
      reads this
    {
      keysStates.Length == KeyCount
    }

    /** `Input::new`: every key released. */
    constructor ()
      ensures Valid() && fresh(keysStates)
      ensures forall k :: 0 <= k < KeyCount ==> !keysStates[k]
    {
      keysStates := new bool[KeyCount](_ => false);
    }

    /**
      `process_key_event`: a press sets the key's cell, a release clears it,
      an event without a virtual key code changes nothing; no other cell
      changes. Indexing past the array panics, so the code must be in range.
     */
    method ProcessKeyEvent(event: KeyboardInput)
      requires Valid()
      requires event.virtualKeycode.Some? ==> event.virtualKeycode.value < KeyCount
      modifies keysStates
      ensures event.virtualKeycode.None? ==> keysStates[..] == old(keysStates[..])
      ensures event.virtualKeycode.Some? ==>
                keysStates[..] == old(keysStates[..])[event.virtualKeycode.value := event.state == Input.Pressed]
    {
      if event.virtualKeycode.Some? {
        keysStates[event.virtualKeycode.value] := event.state == Input.Pressed;
      }
    }

    /** `key_pressed(key)`: the key's cell; a key past the array panics. */
    function KeyPressed(key: nat): (pressed: bool)
      reads this, keysStates
      requires Valid() && key < KeyCount
      ensures pressed <==> keysStates[..][key]
    {
      keysStates[key]
    }
  }

  /** After a press of `k` then a release of `k`, the key reads as released again. */
  method PressThenRelease(k: nat) returns (during: bool, after: bool)
    requires k < KeyCount
    ensures during && !after
  {
    var input := new KeyboardState();
    input.ProcessKeyEvent(KeyboardInput(Some(k), Input.Pressed));
    during := input.KeyPressed(k);
    input.ProcessKeyEvent(KeyboardInput(Some(k), Input.Released));
    after := input.KeyPressed(k);
  }
}
