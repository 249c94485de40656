/** What more than one part of the model speaks of. */
module Common {

  datatype Option<+T> = None | Some(value: T)

  /** The transaction state a reply leaves its connection in. */
  datatype TxState = Idle | InTransaction | Failed | Partial
}
