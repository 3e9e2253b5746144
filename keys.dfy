/** Keyboard input of the first-person controller: the eight key codes it
    listens to, the four movement flags they drive, and the key-down/key-up
    handlers that set and clear those flags. */
module Keys {

  datatype Option<T> = None | Some(value: T)

  /** The four movement actions a key can stand for. */
  datatype Action = Forward | Backward | Left | Right

  // Key codes handled by the controller (KeyboardEvent.keyCode values).
  const ArrowLeft: int := 37
  const ArrowUp: int := 38
  const ArrowRight: int := 39
  const ArrowDown: int := 40
  const KeyA: int := 65
  const KeyD: int := 68
  const KeyS: int := 83
  const KeyW: int := 87

  /** The action bound to a key code, or None for a key the controller ignores.
      Each action has two bindings: an arrow key and a WASD key. */
  function ActionOf(keyCode: int): (r: Option<Action>)
    ensures r == Some(Forward) <==> keyCode == ArrowUp || keyCode == KeyW
    ensures r == Some(Left) <==> keyCode == ArrowLeft || keyCode == KeyA
    ensures r == Some(Backward) <==> keyCode == ArrowDown || keyCode == KeyS
    ensures r == Some(Right) <==> keyCode == ArrowRight || keyCode == KeyD
    ensures r == None <==> keyCode !in {37, 38, 39, 40, 65, 68, 83, 87}
  {
    if keyCode == ArrowUp || keyCode == KeyW then Some(Forward)
    else if keyCode == ArrowLeft || keyCode == KeyA then Some(Left)
    else if keyCode == ArrowDown || keyCode == KeyS then Some(Backward)
    else if keyCode == ArrowRight || keyCode == KeyD then Some(Right)
    else None
  }

  /** The value of the four movement flags. */
  datatype Flags = Flags(forward: bool, backward: bool, left: bool, right: bool)
  {
    /** Whether the flag of action `a` is set. */
    function Held(a: Action): bool {
      match a
      case Forward => forward
      case Backward => backward
      case Left => left
      case Right => right
    }

    /** These flags with the flag of `a` set to `v` and the other three kept. */
    function With(a: Action, v: bool): (r: Flags)
      ensures r.Held(a) == v
      ensures forall b :: b != a ==> r.Held(b) == Held(b)
    {
      match a
      case Forward => this.(forward := v)
      case Backward => this.(backward := v)
      case Left => this.(left := v)
      case Right => this.(right := v)
    }
  }

  const Released: Flags := Flags(false, false, false, false)

  /** Effect of a key event on the flags: key-down (`pressed`) sets the flag of
      the bound action, key-up clears it, and an unbound key changes nothing. */
  function OnKey(f: Flags, keyCode: int, pressed: bool): (r: Flags)
    ensures ActionOf(keyCode).None? ==> r == f
    ensures ActionOf(keyCode).Some? ==>
      r.Held(ActionOf(keyCode).value) == pressed &&
      forall b :: b != ActionOf(keyCode).value ==> r.Held(b) == f.Held(b)
  {
    match ActionOf(keyCode)
    case None => f
    case Some(a) => f.With(a, pressed)
  }

  /** Repeating a key event (auto-repeat of a held key) has no further effect. */
  lemma OnKeyIdempotent(f: Flags, keyCode: int, pressed: bool)
    ensures OnKey(OnKey(f, keyCode, pressed), keyCode, pressed) == OnKey(f, keyCode, pressed)
  {
  }

  /** Key-up after key-down leaves the flags as a key-up alone would: the
      release clears exactly the flag the press set. */
  lemma KeyUpUndoesKeyDown(f: Flags, keyCode: int)
    ensures OnKey(OnKey(f, keyCode, true), keyCode, false) == OnKey(f, keyCode, false)
    ensures !f.Held(Forward) && !f.Held(Backward) && !f.Held(Left) && !f.Held(Right) ==>
      OnKey(OnKey(f, keyCode, true), keyCode, false) == f
  {
  }

  /** The controller's `input` object: four flags that the key handlers
      update in place. */
  class InputState {
    var forward: bool
    var backward: bool
    var right: bool
    var left: bool

    /** The flags as a value. */
    function Value(): Flags
      reads this
    {
      Flags(forward, backward, left, right)
    }

    constructor ()
      ensures Value() == Released
    {
      forward, backward, right, left := false, false, false, false;
    }

    /** The `keydown` handler: switch on the key code, set one flag. */
    method OnKeyDown(keyCode: int)
      modifies this
      ensures Value() == OnKey(old(Value()), keyCode, true)
    {
      if keyCode == ArrowUp || keyCode == KeyW {
        forward := true;
      } else if keyCode == ArrowLeft || keyCode == KeyA {
        left := true;
      } else if keyCode == ArrowDown || keyCode == KeyS {
        backward := true;
      } else if keyCode == ArrowRight || keyCode == KeyD {
        right := true;
      }
    }

    /** The `keyup` handler: switch on the key code, clear one flag. */
    method OnKeyUp(keyCode: int)
      modifies this
      ensures Value() == OnKey(old(Value()), keyCode, false)
    {
      if keyCode == ArrowUp || keyCode == KeyW {
        forward := false;
      } else if keyCode == ArrowLeft || keyCode == KeyA {
        left := false;
      } else if keyCode == ArrowDown || keyCode == KeyS {
        backward := false;
      } else if keyCode == ArrowRight || keyCode == KeyD {
        right := false;
      }
    }
  }
}
