/** Who and when. */
module Identity {
  type UserId = string

  /** Milliseconds. */
  type Time = nat
}
