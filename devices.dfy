/** Values that stand for the calls the output manager makes into hardware
    drivers (LEDs, relays, the buzzer). The drivers themselves are foreign
    code; the model records each call, in order, as an event in a log. */
module Devices {

  datatype Option<T> = None | Some(value: T)

  /** One call on an indicator LED. Times are in seconds. `offTime` is None
      when the caller leaves the driver's default in place; `repeats` is None
      when the caller asks for blinking that goes on until the next command. */
  datatype LedCommand =
    | LedOn
    | LedOff
    | LedClosed
    | Blink(onTime: real, offTime: Option<real>, repeats: Option<nat>)

  /** One call on the relay board: a relay switched, a relay device closed,
      the buzzer sounded or closed. */
  datatype Actuation =
    | SwitchedOn(relay: int)
    | SwitchedOff(relay: int)
    | RelayClosed(relay: int)
    | Beeped(onTime: real, offTime: real, repeats: int)
    | BuzzerClosed
}
