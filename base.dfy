/** Shared vocabulary: an optional value and the two kinds of identifier. */
module Base {

  datatype Option<+T> = None | Some(value: T) {
    /** The wrapped value, or `default` when there is none. */
    function GetOr(default: T): T {
      match this
      case Some(v) => v
      case None => default
    }
  }

  /** A session document's `_id`; the datastore's ObjectIds are modelled as naturals. */
  type SessionId = nat

  /** A user document's `_id`. */
  type UserId = nat
}
