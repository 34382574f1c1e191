/** The platform input events the client's controllers and GUIs react to. */
module Input {

  /** The `winit` key codes the client distinguishes; every other key is `OtherKey`. */
  datatype KeyCode =
    | KeyW | KeyS | KeyA | KeyD | Escape
    | Digit0 | Digit1 | Digit2 | Digit3 | Digit4 | Digit5 | Digit6 | Digit7 | Digit8 | Digit9
    | OtherKey(code: nat)

  datatype ElementState = Pressed | Released

  /** `PlatformInput`: a keyboard event, or any other input (cursor, wheel, ...). */
  datatype PlatformInput = Keyboard(key: KeyCode, state: ElementState) | OtherInput
}
