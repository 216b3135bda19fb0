/** The already-decoded Bluefruit Connect packets the controller reacts to. */
module Packets {
  import opened Colors

  /** The eight buttons of the app's control pad. */
  datatype Button = Up | Down | Left | Right | Button1 | Button2 | Button3 | Button4

  datatype Packet =
    | ColorPacket(color: Color)
    | ButtonPacket(button: Button, pressed: bool)
      /** Any other packet kind the decoder may return, or no packet at all. */
    | Unrecognized

  datatype Option<T> = None | Some(value: T)
}
