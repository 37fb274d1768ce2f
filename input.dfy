/**
  Keyboard and mouse-button state (`Input` of the top-level input file): a
  list of (key, just-clicked) pairs and the button currently held. Cursor
  position and wheel deltas are floating point and not modelled.
 */
module Input {
  import opened Wrappers

  /** `winit::keyboard::KeyCode`. */
  type Key = nat

  /** `winit::event::MouseButton`. */
  datatype MouseButton = Left | Right | Middle | Back | Forward | Other(code: nat)

  /** `winit::event::ElementState`. */
  datatype ElementState = Pressed | Released

  /** `winit::keyboard::PhysicalKey`. */
  datatype PhysicalKey = Code(code: Key) | Unidentified

  /** The window events `update` looks at; every other event is `Ignored`. */
  datatype WindowEvent =
    | KeyboardInput(physicalKey: PhysicalKey, state: ElementState)
    | MouseInput(mouseState: ElementState, button: MouseButton)
    | Ignored

  /** An entry of `keys`: the key and whether it was just clicked. */
  type KeyEntry = (Key, bool)

  /** Some entry has key `k`. */
  predicate KeyDown(keys: seq<KeyEntry>, k: Key)
  {
    exists i :: 0 <= i < |keys| && keys[i].0 == k
  }

  /** `keys.retain(|(k, _)| *k != key)`. */
  function WithoutKey(keys: seq<KeyEntry>, k: Key): (r: seq<KeyEntry>)
    ensures forall e :: multiset(r)[e] == if e.0 != k then multiset(keys)[e] else 0
    ensures forall e :: e in r <==> e in keys && e.0 != k
    ensures !KeyDown(r, k)
    decreases |keys|
  {
    if keys == [] then []
    else
      assert keys == [keys[0]] + keys[1..];
      if keys[0].0 == k then WithoutKey(keys[1..], k)
      else [keys[0]] + WithoutKey(keys[1..], k)
  }

  /** Releasing a key keeps the other entries in their order. */
  lemma {:induction false} WithoutKeyAppend(a: seq<KeyEntry>, b: seq<KeyEntry>, k: Key)
    ensures WithoutKey(a + b, k) == WithoutKey(a, k) + WithoutKey(b, k)
    decreases |a|
  {
    if a == [] {
      assert a + b == b;
    } else {
      assert (a + b)[0] == a[0];
      assert (a + b)[1..] == a[1..] + b;
      WithoutKeyAppend(a[1..], b, k);
    }
  }

  /** Releasing `k` does not change whether any other key is down. */
  lemma WithoutKeyKeepsOtherKeys(keys: seq<KeyEntry>, k: Key, other: Key)
    requires other != k
    ensures KeyDown(WithoutKey(keys, k), other) <==> KeyDown(keys, other)
  {
    var r := WithoutKey(keys, k);
    if KeyDown(keys, other) {
      var i :| 0 <= i < |keys| && keys[i].0 == other;
      assert keys[i] in keys;
      assert keys[i] in r;
      var j :| 0 <= j < |r| && r[j] == keys[i];
    }
    if KeyDown(r, other) {
      var j :| 0 <= j < |r| && r[j].0 == other;
      assert r[j] in r;
      var i :| 0 <= i < |keys| && keys[i] == r[j];
    }
  }

  /** The index of the first entry `(k, true)`, if there is one. */
  function FirstClicked(keys: seq<KeyEntry>, k: Key): (r: Option<nat>)
    ensures r.Some? ==> r.value < |keys| && keys[r.value] == (k, true)
    ensures r.Some? ==> forall j :: 0 <= j < r.value ==> keys[j] != (k, true)
    ensures r.None? ==> forall j :: 0 <= j < |keys| ==> keys[j] != (k, true)
    decreases |keys|
  {
    if keys == [] then None
    else if keys[0] == (k, true) then Some(0)
    else match FirstClicked(keys[1..], k)
      case None => None
      case Some(j) => Some(j + 1)
  }

  /** Clearing a click flag keeps every key down that was down, and no other. */
  lemma ClickKeepsKeyDown(keys: seq<KeyEntry>, i: nat, k: Key, other: Key)
    requires i < |keys| && keys[i].0 == k
    ensures KeyDown(keys[i := (k, false)], other) <==> KeyDown(keys, other)
  {
    var keys' := keys[i := (k, false)];
    if KeyDown(keys, other) {
      var j :| 0 <= j < |keys| && keys[j].0 == other;
      assert keys'[j].0 == other;
    }
    if KeyDown(keys', other) {
      var j :| 0 <= j < |keys'| && keys'[j].0 == other;
      assert keys[j].0 == other;
    }
  }

  /**
    "Returns true once after a key is pressed": after one press of a key
    with no pending click, the first query finds the new entry and clears
    it, and a second query finds nothing.
   */
  lemma ClickedOnceAfterPress(keys: seq<KeyEntry>, k: Key)
    requires FirstClicked(keys, k).None?
    ensures FirstClicked(keys + [(k, true)], k) == Some(|keys|)
    ensures FirstClicked((keys + [(k, true)])[|keys| := (k, false)], k).None?
  {
    var pressed := keys + [(k, true)];
    assert pressed[|keys|] == (k, true);
  }

  /** `Input`. */
  class Input {
    var keys: seq<KeyEntry>
    var mouse: MouseButton

    /** `Input::new`: no keys, mouse button `Other(0)`. */
    constructor ()
      ensures keys == [] && mouse == Other(0)
    {
      keys := [];
      mouse := Other(0);
    }

    /**
      The key and mouse-button arms of `update`: a press appends a fresh
      click, a release drops every entry of the key; a button press records
      the button and a release resets it to `Other(0)`. `update` always
      answers `Ok`.
     */
    method Update(event: WindowEvent)
      modifies this
      ensures event.KeyboardInput? && event.physicalKey.Code? && event.state == Pressed ==>
                keys == old(keys) + [(event.physicalKey.code, true)] && mouse == old(mouse)
      ensures event.KeyboardInput? && event.physicalKey.Code? && event.state == Released ==>
                keys == WithoutKey(old(keys), event.physicalKey.code) && mouse == old(mouse)
      ensures event.KeyboardInput? && event.physicalKey.Unidentified? ==>
                keys == old(keys) && mouse == old(mouse)
      ensures event.MouseInput? ==> keys == old(keys)
      ensures event.MouseInput? && event.mouseState == Pressed ==> mouse == event.button
      ensures event.MouseInput? && event.mouseState == Released ==> mouse == Other(0)
      ensures event.Ignored? ==> keys == old(keys) && mouse == old(mouse)
    {
      match event {
        case KeyboardInput(physicalKey, state) =>
          if physicalKey.Code? {
            if state == Pressed {
              keys := keys + [(physicalKey.code, true)];
            } else {
              keys := WithoutKey(keys, physicalKey.code);
            }
          }
        case MouseInput(mouseState, button) =>
          if mouseState == Pressed {
            mouse := button;
          } else {
            mouse := Other(0);
          }
        case Ignored =>
      }
    }

    /**
      `is_key_clicked(k)`: true exactly when some entry `(k, true)` exists;
      then the first such flag, and nothing else, is cleared.
     */
    method IsKeyClicked(k: Key) returns (clicked: bool)
      modifies this
      ensures clicked <==> FirstClicked(old(keys), k).Some?
      ensures clicked ==> keys == old(keys)[FirstClicked(old(keys), k).value := (k, false)]
      ensures !clicked ==> keys == old(keys)
      ensures mouse == old(mouse)
    {
      var i := 0;
      while i < |keys|
        invariant 0 <= i <= |keys|
        invariant keys == old(keys) && mouse == old(mouse)
        invariant forall j :: 0 <= j < i ==> keys[j] != (k, true)
      {
        if keys[i].0 == k && keys[i].1 {
          keys := keys[i := (k, false)];
          return true;
        }
        i := i + 1;
      }
      clicked := false;
    }

    /** `is_key_down(k)`: true iff some entry has key `k`. */
    method IsKeyDown(k: Key) returns (down: bool)
      ensures down <==> KeyDown(keys, k)
    {
      var i := 0;
      while i < |keys|
        invariant 0 <= i <= |keys|
        invariant forall j :: 0 <= j < i ==> keys[j].0 != k
      {
        if keys[i].0 == k {
          return true;
        }
        i := i + 1;
      }
      down := false;
    }

    /** `is_mouse_down(button)`. */
    function IsMouseDown(button: MouseButton): (down: bool)
      reads this
      ensures down <==> mouse == button
    {
      mouse == button
    }
  }
}
