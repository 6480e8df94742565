/** What more than one part of the daemon speaks of. */
module Common {
  datatype Option<+T> = None | Some(value: T)

  /** An event of one agent: what in-flight sets and completed records go by. */
  datatype Key = Key(agent: string, event: string)
}
