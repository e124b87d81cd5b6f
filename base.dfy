/** Small shared vocabulary: optional values, user-facing alerts and
    JavaScript truthiness of the optional strings the screens test. */
module Base {

  /** A value that may be `null`/`undefined` on the JavaScript side. */
  datatype Option<T> = None | Some(value: T)

  /** The settled outcome of an awaited call: the value it resolved with, or
      the rejection, carrying the error text the server sent, if any. */
  datatype Result<T> = Ok(value: T) | Err(detail: Option<string>)

  /** An `Alert.alert(title, message)` shown to the user. */
  datatype Alert = Alert(title: string, message: string)

  /** `if (x)` on a string that may be missing: present and not the empty string. */
  predicate Truthy(v: Option<string>)
  {
    v.Some? && v.value != ""
  }
}
