/** Action bindings and key-state edge detection (InputManager): each action is bound
    to a key, and the manager keeps every bound key's state for this frame and the
    previous one. Input::isKeyPressed, which polls GLFW, is the set of keys held
    down at the moment of the call, passed in as `held`. */
module Input {

  /** The engine's action enumeration. */
  datatype Action =
    | NoAction
    | MoveForward
    | MoveBackward
    | MoveLeft
    | MoveRight
    | MoveUp
    | MoveDown
    | ToggleCursor
    | ReloadShader

  /** A GLFW key code. */
  type KeyCode = int

  const KEY_W: KeyCode := 87
  const KEY_A: KeyCode := 65
  const KEY_S: KeyCode := 83
  const KEY_D: KeyCode := 68
  const KEY_RIGHT: KeyCode := 262
  const KEY_LEFT: KeyCode := 263
  const KEY_DOWN: KeyCode := 264
  const KEY_UP: KeyCode := 265

  /** A key's recorded state; a key with no entry reads as released. */
  function StateOf(states: map<KeyCode, bool>, key: KeyCode): (down: bool)
    ensures down <==> key in states && states[key]
  {
    if key in states then states[key] else false
  }

  /** The key states after refreshing every key in `keys` from `held`. */
  function Refresh(states: map<KeyCode, bool>, keys: set<KeyCode>, held: set<KeyCode>): (r: map<KeyCode, bool>)
    ensures r.Keys == states.Keys + keys
    ensures forall k | k in keys :: r[k] == (k in held)
    ensures forall k | k in states && k !in keys :: r[k] == states[k]
  {
    map k | k in states.Keys + keys :: if k in keys then k in held else states[k]
  }

  /** Refreshing one more key is a single map update. */
  lemma RefreshOneMore(states: map<KeyCode, bool>, keys: set<KeyCode>, key: KeyCode, held: set<KeyCode>)
    ensures Refresh(states, keys + {key}, held) == Refresh(states, keys, held)[key := key in held]
  {
  }

  class InputManager {
    var keyBindings: map<Action, KeyCode>
    var keyStates: map<KeyCode, bool>
    var prevKeyStates: map<KeyCode, bool>

    constructor ()
      ensures keyBindings == map[] && keyStates == map[] && prevKeyStates == map[]
    {
      keyBindings, keyStates, prevKeyStates := map[], map[], map[];
    }

    /** InputManager::update: this frame's states become the previous ones, then the
        key of every binding is polled, in the unordered map's order (any order). */
    method Update(held: set<KeyCode>)
      modifies this
      ensures keyBindings == old(keyBindings)
      ensures prevKeyStates == old(keyStates)
      ensures keyStates == Refresh(old(keyStates), keyBindings.Values, held)
      ensures forall a | a in keyBindings :: IsActionPressed(a) <==> keyBindings[a] in held
      ensures forall a | a in keyBindings ::
        IsActionJustPressed(a) <==> keyBindings[a] in held && !StateOf(old(keyStates), keyBindings[a])
      ensures forall a | a in keyBindings ::
        IsActionJustReleased(a) <==> keyBindings[a] !in held && StateOf(old(keyStates), keyBindings[a])
    {
      prevKeyStates := keyStates;
      var remaining := keyBindings.Keys;
      ghost var polled: set<KeyCode> := {};
      while remaining != {}
        invariant remaining <= keyBindings.Keys
        invariant polled == set a | a in keyBindings.Keys - remaining :: keyBindings[a]
        invariant keyStates == Refresh(prevKeyStates, polled, held)
        invariant keyBindings == old(keyBindings) && prevKeyStates == old(keyStates)
        decreases remaining
      {
        var action :| action in remaining;
        var key := keyBindings[action];
        RefreshOneMore(prevKeyStates, polled, key, held);
        keyStates := keyStates[key := key in held];
        remaining := remaining - {action};
        polled := polled + {key};
      }
      assert keyBindings.Keys - remaining == keyBindings.Keys;
      assert polled == keyBindings.Values by {
        forall k | k in keyBindings.Values
          ensures k in polled
        {
          var a :| a in keyBindings && keyBindings[a] == k;
        }
      }
    }

    /** InputManager::setBinding: bind `action` to `key`, replacing any earlier
        binding, and record the key's current state as both this frame's and the
        previous frame's, so the new binding shows no edge. */
    method SetBinding(action: Action, key: KeyCode, held: set<KeyCode>)
      modifies this
      ensures keyBindings == old(keyBindings)[action := key]
      ensures keyStates == old(keyStates)[key := key in held]
      ensures prevKeyStates == old(prevKeyStates)[key := key in held]
      ensures IsActionPressed(action) <==> key in held
      ensures !IsActionJustPressed(action) && !IsActionJustReleased(action)
    {
      keyBindings := keyBindings[action := key];
      var isPressed := key in held;
      keyStates := keyStates[key := isPressed];
      prevKeyStates := prevKeyStates[key := isPressed];
    }

    /** InputManager::isActionPressed: the bound key is down this frame; an unbound
        action is never pressed. */
    function IsActionPressed(action: Action): (down: bool)
      reads this
      ensures down <==> action in keyBindings && StateOf(keyStates, keyBindings[action])
    {
      if action !in keyBindings then false
      else
        var key := keyBindings[action];
        if key in keyStates then keyStates[key] else false
    }

    /** InputManager::isActionJustPressed: the bound key is down this frame and was
        not down in the previous one. */
    function IsActionJustPressed(action: Action): (edge: bool)
      reads this
      ensures edge <==>
        (action in keyBindings && StateOf(keyStates, keyBindings[action]) && !StateOf(prevKeyStates, keyBindings[action]))
    {
      if action !in keyBindings then false
      else
        var key := keyBindings[action];
        var current := if key in keyStates then keyStates[key] else false;
        var prev := if key in prevKeyStates then prevKeyStates[key] else false;
        current && !prev
    }

    /** InputManager::isActionJustReleased: the bound key is up this frame and was
        down in the previous one. */
    function IsActionJustReleased(action: Action): (edge: bool)
      reads this
      ensures edge <==>
        (action in keyBindings && !StateOf(keyStates, keyBindings[action]) && StateOf(prevKeyStates, keyBindings[action]))
    {
      if action !in keyBindings then false
      else
        var key := keyBindings[action];
        var current := if key in keyStates then keyStates[key] else false;
        var prev := if key in prevKeyStates then prevKeyStates[key] else false;
        !current && prev
    }

    /** An action is never both just pressed and just released, and just pressed
        implies pressed. */
    lemma EdgesExclusive(action: Action)
      ensures !(IsActionJustPressed(action) && IsActionJustReleased(action))
      ensures IsActionJustPressed(action) ==> IsActionPressed(action)
      ensures IsActionJustReleased(action) ==> !IsActionPressed(action)
    {
    }
  }

  /** After a binding the action has no edge; after one update with the key held it
      is just pressed; after another it is pressed but no longer just pressed; after
      one with the key up it is just released. */
  method EdgeScenario()
  {
    var input := new InputManager();
    assert !input.IsActionPressed(MoveForward) && !input.IsActionJustReleased(MoveForward);
    input.SetBinding(MoveForward, KEY_W, {});
    assert !input.IsActionJustPressed(MoveForward) && !input.IsActionJustReleased(MoveForward);
    input.Update({KEY_W});
    assert input.keyStates[KEY_W] && !input.prevKeyStates[KEY_W];
    assert input.IsActionJustPressed(MoveForward);
    input.Update({KEY_W, KEY_S});
    assert input.IsActionPressed(MoveForward) && !input.IsActionJustPressed(MoveForward);
    assert KEY_S !in input.keyStates;
    input.Update({});
    assert input.IsActionJustReleased(MoveForward);
  }
}
