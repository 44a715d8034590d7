/** Shared vocabulary of the bot model: user identities and optional values. */
module Common {

  /** A Telegram user id, the key of every piece of per-user state. */
  type UserId = int

  /** Python's `None` versus a present value. */
  datatype Option<+T> = None | Some(value: T)
}
