/** Keyboard state (`handleKeyDown`, `handleKeyUp` and the window `blur`
    handler of main.js): six movement flags switched by key codes. */
module Input {

  datatype Option<T> = None | Some(value: T)

  /** The six movement flags. */
  datatype Flag = Forward | Backward | Left | Right | Up | Down

  /** The flag a key code drives, if any: W forward, S backward, A left,
      D right, Space up, either Shift down. */
  function FlagFor(code: string): Option<Flag>
  {
    if code == "KeyW" then Some(Forward)
    else if code == "KeyS" then Some(Backward)
    else if code == "KeyA" then Some(Left)
    else if code == "KeyD" then Some(Right)
    else if code == "Space" then Some(Up)
    else if code == "ShiftLeft" || code == "ShiftRight" then Some(Down)
    else None
  }

  /** The key codes that drive each flag, listed per flag. */
  function CodesFor(f: Flag): set<string>
  {
    match f
    case Forward => {"KeyW"}
    case Backward => {"KeyS"}
    case Left => {"KeyA"}
    case Right => {"KeyD"}
    case Up => {"Space"}
    case Down => {"ShiftLeft", "ShiftRight"}
  }

  /** The code mapping agrees with the per-flag listing in both directions,
      and every code outside the listing drives no flag. */
  lemma FlagForMatchesCodes(code: string, f: Flag)
    ensures FlagFor(code) == Some(f) <==> code in CodesFor(f)
    ensures FlagFor(code) == None <==>
      code !in CodesFor(Forward) && code !in CodesFor(Backward) && code !in CodesFor(Left)
      && code !in CodesFor(Right) && code !in CodesFor(Up) && code !in CodesFor(Down)
  {
  }

  /** The module-level flags `moveForward` ... `moveDown`. */
  class InputState {
    var forward: bool
    var backward: bool
    var left: bool
    var right: bool
    var up: bool
    var down: bool

    /** The value of one flag. */
    function Get(f: Flag): bool
      reads this
    {
      match f
      case Forward => forward
      case Backward => backward
      case Left => left
      case Right => right
      case Up => up
      case Down => down
    }

    /** All six flags start released. */
    constructor ()
      ensures forall f :: !Get(f)
    {
      forward, backward, left, right, up, down := false, false, false, false, false, false;
    }

    /** `handleKeyDown`: sets the flag the code drives and leaves the others
        alone; reports whether the browser's default action is suppressed,
        which happens for Space only. */
    method KeyDown(code: string) returns (preventDefault: bool)
      modifies this
      ensures preventDefault <==> code == "Space"
      ensures forall f :: Get(f) == (if FlagFor(code) == Some(f) then true else old(Get(f)))
    {
      preventDefault := code == "Space";
      if code == "KeyW" {
        forward := true;
      } else if code == "KeyS" {
        backward := true;
      } else if code == "KeyA" {
        left := true;
      } else if code == "KeyD" {
        right := true;
      } else if code == "Space" {
        up := true;
      } else if code == "ShiftLeft" || code == "ShiftRight" {
        down := true;
      }
    }

    /** `handleKeyUp`: clears the flag the code drives and leaves the others
        alone. */
    method KeyUp(code: string)
      modifies this
      ensures forall f :: Get(f) == (if FlagFor(code) == Some(f) then false else old(Get(f)))
    {
      if code == "KeyW" {
        forward := false;
      } else if code == "KeyS" {
        backward := false;
      } else if code == "KeyA" {
        left := false;
      } else if code == "KeyD" {
        right := false;
      } else if code == "Space" {
        up := false;
      } else if code == "ShiftLeft" || code == "ShiftRight" {
        down := false;
      }
    }

    /** The window `blur` handler: every flag is released, whatever keys are
        still held. */
    method Blur()
      modifies this
      ensures forall f :: !Get(f)
    {
      forward, backward, left, right, up, down := false, false, false, false, false, false;
    }
  }

  /** A key pressed and released again leaves its flag released and every
      other flag as it was; while held, its flag reads pressed. Either
      Shift key releases the descend flag, whichever one pressed it. */
  method PressRelease(s: InputState, down: string, up: string) returns (held: bool)
    requires FlagFor(down).Some? && FlagFor(up) == FlagFor(down)
    modifies s
    ensures held
    ensures forall f :: s.Get(f) == (if FlagFor(down) == Some(f) then false else old(s.Get(f)))
  {
    var _ := s.KeyDown(down);
    held := s.Get(FlagFor(down).value);
    s.KeyUp(up);
  }
}
