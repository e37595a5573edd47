/** What the remote store and the identity provider hand back to the client.
    Every remote call of the components is modelled by the outcome it
    returned, passed in as a parameter. */
module Remote {

  datatype Option<+T> = None | Some(value: T) {
    /** `x ?? d` and `x || d` on a nullable value. */
    function GetOr(default: T): T {
      match this
      case Some(v) => v
      case None => default
    }
  }

  /** The `{ data, error }` pair of a store call: either data or an error message. */
  datatype Outcome<+T> = Ok(value: T) | Err(message: string)

  /** A call whose only result is "no error". */
  type Ack = Outcome<()>

  /** The signed-in user as returned by the identity provider. */
  datatype User = User(id: string, email: string)
}
