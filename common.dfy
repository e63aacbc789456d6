/** Values shared by the storefront components: optional values and the
    transient notifications ("snackbars") the components raise. */
module Common {

  datatype Option<+T> = None | Some(value: T)

  /** The severity a notification is shown with; `Default` is what the
      provider uses when the options name no (correctly spelt) variant. */
  datatype Variant = Default | Success | Warning | Error

  /** A notification raised through the snackbar provider: its text and its
      severity. Showing it is left to the UI framework. */
  datatype Notice = Notice(message: string, variant: Variant)

  /** A route change requested from the router, with the `from` tag that
      some components attach as navigation state. */
  datatype Navigation = Navigate(path: string, from: Option<string>)

  /** The backend's answer to one request: a response with its data, an error
      response with its HTTP status and a message, or no response at all
      (backend unreachable). The message is whatever string the handler
      reading it takes from the error response; it need not be the text the
      backend sent. */
  datatype Response<T> = Ok(data: T) | Failed(status: int, message: string) | Unreachable

  /** The truthiness of a value read from the key-value store: JavaScript
      treats both a missing entry and the empty string as false. */
  predicate Truthy(s: Option<string>)
  {
    s.Some? && s.value != ""
  }

  /** The key under which the session token is kept. */
  const TokenKey := "token"

  /** The browser's key-value store for the session, as a map from keys to
      string values. */
  class KeyValueStore {
    var entries: map<string, string>

    constructor ()
      ensures entries == map[]
    {
      entries := map[];
    }

    /** `getItem`: the value stored under `key`, absent when there is none. */
    function GetItem(key: string): Option<string>
      reads this
    {
      if key in entries then Some(entries[key]) else None
    }

    /** `setItem`: stores `value` under `key`, replacing any earlier value. */
    method SetItem(key: string, value: string)
      modifies this
      ensures entries == old(entries)[key := value]
    {
      entries := entries[key := value];
    }
  }
}
