/** Process-wide constants of the server. */
module Config {

  /** The namespace listed when the caller names none. */
  const DefaultNamespace: string := "default"
}
