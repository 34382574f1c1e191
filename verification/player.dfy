/**
 * The local player's controllers: movement flags driven by W, A, S, D, the
 * sprite row and send decision taken each frame from them, and the action
 * bar slot chosen with the digit keys.
 */
module Player {
  import opened Wrappers
  import opened Bytes
  import opened Input

  /** A position in the player's sprite sheet. */
  datatype SheetPos = SheetPos(x: int, y: int)

  /** `PlayerEntityController::Moving { forward, backward, left, right }`. */
  class PlayerEntityController {
    var forward: bool
    var backward: bool
    var left: bool
    var right: bool

    /** `Default::default`: not moving. */
    constructor Default()
      ensures !forward && !backward && !left && !right
    {
      forward, backward, left, right := false, false, false, false;
    }

    /**
     * `handle_input`: W, S, A and D set forward, backward, left and right to
     * whether the key is pressed; any other key or input changes nothing.
     */
    method HandleInput(input: PlatformInput)
      modifies this
      ensures input.Keyboard? && input.key == KeyW ==>
        forward == (input.state == Pressed) && backward == old(backward) && left == old(left) && right == old(right)
      ensures input.Keyboard? && input.key == KeyS ==>
        backward == (input.state == Pressed) && forward == old(forward) && left == old(left) && right == old(right)
      ensures input.Keyboard? && input.key == KeyA ==>
        left == (input.state == Pressed) && forward == old(forward) && backward == old(backward) && right == old(right)
      ensures input.Keyboard? && input.key == KeyD ==>
        right == (input.state == Pressed) && forward == old(forward) && backward == old(backward) && left == old(left)
      ensures !(input.Keyboard? && input.key in {KeyW, KeyS, KeyA, KeyD}) ==>
        forward == old(forward) && backward == old(backward) && left == old(left) && right == old(right)
    {
      match input {
        case Keyboard(key, state) =>
          var pressed := state == Pressed;
          match key {
            case KeyW => forward := pressed;
            case KeyS => backward := pressed;
            case KeyA => left := pressed;
            case KeyD => right := pressed;
            case _ => return;
          }
        case OtherInput =>
      }
    }

    /**
     * The discrete part of `move_player`: the sprite row set by each held
     * direction in turn, so right wins over left, left over backward and
     * backward over forward, the row kept when nothing is held; the unit
     * steps summed into the direction; and whether a position packet is sent.
     */
    method MovePlayer(sheetPos: SheetPos) returns (pos: SheetPos, dir: (int, int), send: bool)
      ensures right ==> pos == SheetPos(0, 1)
      ensures !right && left ==> pos == SheetPos(0, 2)
      ensures !right && !left && backward ==> pos == SheetPos(0, 0)
      ensures !right && !left && !backward && forward ==> pos == SheetPos(0, 3)
      ensures !right && !left && !backward && !forward ==> pos == sheetPos
      ensures -1 <= dir.0 <= 1 && -1 <= dir.1 <= 1
      ensures dir.0 > 0 <==> right && !left
      ensures dir.0 < 0 <==> left && !right
      ensures dir.1 > 0 <==> forward && !backward
      ensures dir.1 < 0 <==> backward && !forward
      ensures send <==> forward || backward || left || right
    {
      pos := sheetPos;
      dir := (0, 0);
      if forward {
        pos := SheetPos(0, 3);
        dir := (dir.0, dir.1 + 1);
      }
      if backward {
        pos := SheetPos(0, 0);
        dir := (dir.0, dir.1 - 1);
      }
      if left {
        pos := SheetPos(0, 2);
        dir := (dir.0 - 1, dir.1);
      }
      if right {
        pos := SheetPos(0, 1);
        dir := (dir.0 + 1, dir.1);
      }
      send := forward || backward || left || right;
    }
  }

  /** The action bar keys in slot order: Digit1 .. Digit9, then Digit0. */
  const ACTIONBAR_KEYS: seq<KeyCode> :=
    [Digit1, Digit2, Digit3, Digit4, Digit5, Digit6, Digit7, Digit8, Digit9, Digit0]

  /** `keys.iter().position(|k| k == &key)`: the first index holding `key`. */
  function Position(keys: seq<KeyCode>, key: KeyCode): (r: Option<nat>)
    ensures r.None? <==> key !in keys
    ensures r.Some? ==> r.value < |keys| && keys[r.value] == key
    ensures r.Some? ==> forall j :: 0 <= j < r.value ==> keys[j] != key
  {
    if keys == [] then None
    else if keys[0] == key then Some(0)
    else
      match Position(keys[1..], key)
      case None => None
      case Some(i) => Some(i + 1)
  }

  /** The slot a digit key stands for on the action bar. */
  function DigitSlot(k: KeyCode): int {
    match k
    case Digit1 => 0 case Digit2 => 1 case Digit3 => 2 case Digit4 => 3 case Digit5 => 4
    case Digit6 => 5 case Digit7 => 6 case Digit8 => 7 case Digit9 => 8 case Digit0 => 9
    case _ => -1
  }

  /** A list in which each key sits at its digit slot. */
  predicate InSlotOrder(keys: seq<KeyCode>) {
    forall i | 0 <= i < |keys| :: DigitSlot(keys[i]) == i
  }

  /** In a list in slot order, every key's position is its index, hence its slot. */
  lemma PositionInSlotOrder(keys: seq<KeyCode>, i: nat)
    requires InSlotOrder(keys) && i < |keys|
    ensures Position(keys, keys[i]) == Some(i)
  {
  }

  lemma ActionbarKeysInSlotOrder()
    ensures InSlotOrder(ACTIONBAR_KEYS)
  {
  }

  /** An action bar key's position is its digit slot: Digit n gives n - 1, Digit0 gives 9. */
  lemma ActionbarSlot(k: KeyCode)
    requires k in ACTIONBAR_KEYS
    ensures Position(ACTIONBAR_KEYS, k) == Some(DigitSlot(k) as nat)
  {
    var keys := ACTIONBAR_KEYS;
    ActionbarKeysInSlotOrder();
    var i :| 0 <= i < |keys| && keys[i] == k;
    PositionInSlotOrder(keys, i);
  }

  /** `PlayerInventoryController { actionbar_slot }`. */
  class PlayerInventoryController {
    var actionbarSlot: byte

    ghost predicate Valid()
      reads this
    {
      actionbarSlot < 10
    }

    /** `Default::default`: the first slot. */
    constructor Default()
      ensures Valid() && actionbarSlot == 0
    {
      actionbarSlot := 0;
    }

    /**
     * `handle_input`: a pressed action bar key selects its slot; releases,
     * other keys and other input keep the slot.
     */
    method HandleInput(input: PlatformInput)
      requires Valid()
      modifies this
      ensures Valid()
      ensures input.Keyboard? && input.state == Pressed && input.key in ACTIONBAR_KEYS ==>
        actionbarSlot as int == DigitSlot(input.key)
      ensures !(input.Keyboard? && input.state == Pressed && input.key in ACTIONBAR_KEYS) ==>
        actionbarSlot == old(actionbarSlot)
    {
      match input {
        case Keyboard(key, state) =>
          if state == Pressed {
            match Position(ACTIONBAR_KEYS, key) {
              case Some(slot) =>
                ActionbarSlot(key);
                actionbarSlot := slot as byte;
              case None =>
            }
          }
        case OtherInput =>
      }
    }
  }
}
