/** Values shared by several screens: an optional value and the transient
    "toast" message a screen emits after an action. */
module Common {

  datatype Option<+T> = None | Some(value: T)

  /** A toast as the screens raise it: an optional title, a description and
      how long it stays on screen, in milliseconds. */
  datatype Toast = Toast(title: Option<string>, description: string, durationMs: nat)
}
