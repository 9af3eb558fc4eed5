/** The part of the windowing library's event vocabulary the controllers and
    toggles look at. Keys the program never names are folded into
    `OtherKey`, buttons into `OtherButton`, and every other window event
    into `OtherEvent`. */
module Input {
  datatype ElementState = Pressed | Released

  datatype KeyCode =
    | KeyW | KeyA | KeyS | KeyD | KeyC | KeyZ
    | ArrowUp | ArrowDown | ArrowLeft | ArrowRight
    | OtherKey(code: nat)

  /** A physical key is either a known key code or unidentified. */
  datatype PhysicalKey = Code(code: KeyCode) | Unidentified(native: nat)

  datatype MouseButton = LeftButton | RightButton | MiddleButton | OtherButton(id: nat)

  datatype WindowEvent =
    | KeyboardInput(physicalKey: PhysicalKey, state: ElementState)
    | MouseInput(button: MouseButton, state: ElementState)
    | OtherEvent(id: nat)

  /** A keyboard event for `key` in state `state`. */
  predicate IsKeyEvent(e: WindowEvent, key: KeyCode, state: ElementState) {
    e.KeyboardInput? && e.physicalKey == Code(key) && e.state == state
  }
}
