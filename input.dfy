/** Keyboard state of the game and the keydown / keyup handlers that update it. */
module Input {

  datatype Option<T> = None | Some(value: T)

  /** The eight keys the game tracks. */
  datatype Key = ArrowUp | ArrowLeft | ArrowRight | ArrowDown | A | W | D | S

  /** The `key` value of a keyboard event that names each tracked key. */
  function KeyName(k: Key): string
  {
    match k
    case ArrowUp => "ArrowUp"
    case ArrowLeft => "ArrowLeft"
    case ArrowRight => "ArrowRight"
    case ArrowDown => "ArrowDown"
    case A => "a"
    case W => "w"
    case D => "d"
    case S => "s"
  }

  /** Lookup of an event's `key` value in the table of tracked keys. */
  function KeyNamed(name: string): Option<Key>
  {
    if name == "ArrowUp" then Some(ArrowUp)
    else if name == "ArrowLeft" then Some(ArrowLeft)
    else if name == "ArrowRight" then Some(ArrowRight)
    else if name == "ArrowDown" then Some(ArrowDown)
    else if name == "a" then Some(A)
    else if name == "w" then Some(W)
    else if name == "d" then Some(D)
    else if name == "s" then Some(S)
    else None
  }

  /** The lookup finds a key exactly under its own name. */
  lemma KeyNamedIff(name: string, k: Key)
    ensures KeyNamed(name) == Some(k) <==> name == KeyName(k)
  {
  }

  /** Whether a key's pressed flag is set. */
  function Held(pressed: map<Key, bool>, k: Key): bool
  {
    k in pressed && pressed[k]
  }

  /** The input state: the last tracked key pressed, the two modifiers and one
      pressed flag per tracked key. */
  class Keyboard {
    var lastKey: string
    var sprint: bool
    var crouching: bool
    var pressed: map<Key, bool>

    ghost predicate Valid()
      reads this
    {
      forall k: Key :: k in pressed
    }

    constructor ()
      ensures Valid()
      ensures lastKey == "" && !sprint && !crouching
      ensures forall k: Key :: !Held(pressed, k)
    {
      lastKey := "";
      sprint := false;
      crouching := false;
      pressed := map[ArrowUp := false, ArrowLeft := false, ArrowRight := false, ArrowDown := false,
                     A := false, W := false, D := false, S := false];
      new;
      forall k: Key ensures k in pressed && !pressed[k] {
        match k
        case ArrowUp => case ArrowLeft => case ArrowRight => case ArrowDown =>
        case A => case W => case D => case S =>
      }
    }

    /** The keydown handler: `c` starts crouching, Space starts sprinting, a
        tracked key is marked pressed and becomes the last key; anything else is ignored. */
    method KeyDown(key: string, code: string)
      requires Valid()
      modifies this
      ensures Valid()
      ensures key == "c" ==>
        crouching && sprint == old(sprint) && lastKey == old(lastKey) && pressed == old(pressed)
      ensures key != "c" && code == "Space" ==>
        sprint && crouching == old(crouching) && lastKey == old(lastKey) && pressed == old(pressed)
      ensures key != "c" && code != "Space" ==>
        sprint == old(sprint) && crouching == old(crouching)
      ensures key != "c" && code != "Space" && KeyNamed(key).None? ==>
        lastKey == old(lastKey) && pressed == old(pressed)
      ensures key != "c" && code != "Space" && KeyNamed(key).Some? ==>
        lastKey == key && pressed == old(pressed)[KeyNamed(key).value := true]
    {
      if key == "c" {
        crouching := true;
        return;
      }
      if code == "Space" {
        sprint := true;
        return;
      }
      var k := KeyNamed(key);
      if k.None? {
        return;
      }
      lastKey := key;
      pressed := pressed[k.value := true];
    }

    /** The keyup handler: `c` stops crouching, Space stops sprinting, a tracked
        key is marked released; the last key is never changed. */
    method KeyUp(key: string, code: string)
      requires Valid()
      modifies this
      ensures Valid()
      ensures lastKey == old(lastKey)
      ensures key == "c" ==>
        !crouching && sprint == old(sprint) && pressed == old(pressed)
      ensures key != "c" && code == "Space" ==>
        !sprint && crouching == old(crouching) && pressed == old(pressed)
      ensures key != "c" && code != "Space" ==>
        sprint == old(sprint) && crouching == old(crouching)
      ensures key != "c" && code != "Space" && KeyNamed(key).None? ==>
        pressed == old(pressed)
      ensures key != "c" && code != "Space" && KeyNamed(key).Some? ==>
        pressed == old(pressed)[KeyNamed(key).value := false]
    {
      if key == "c" {
        crouching := false;
        return;
      }
      if code == "Space" {
        sprint := false;
        return;
      }
      var k := KeyNamed(key);
      if k.None? {
        return;
      }
      pressed := pressed[k.value := false];
    }
  }
}
