/** Small value types shared by the receipt and product modules. */
module Common {

  /** A value that may be absent (a JavaScript `undefined`, or a request that failed). */
  datatype Option<+T> = None | Some(value: T)

  /** A toast or dialog shown to the user: title, message and severity icon
      ("success", "info", "error"). Shown and forgotten: nothing waits on it. */
  datatype Notice = Notice(title: string, text: string, icon: string)
}
