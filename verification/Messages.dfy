/** Messages, and the few values every other module shares. */
module Messages {

  datatype Option<+T> = None | Some(value: T)

  /** A message is an identity with a type and an optional reply target. `Nil` is the nil interface
      value a map lookup yields for a missing key. */
  datatype Message = Nil | Message(uuid: string, kind: string, replyTo: string)
}
