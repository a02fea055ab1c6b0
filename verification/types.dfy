/** Values carried through the two queues of the parallel attack runner. */
module Types {

  datatype Option<+T> = None | Some(value: T)

  /** One dataset example: the `(label, text)` pair the dataset yields. */
  datatype Item = Item(goldLabel: int, text: string)

  /**
   * What a worker puts on the output queue: an attack result that counts
   * (successful or failed attack), a skipped attack result, or the exception
   * the worker caught.
   */
  datatype Message =
    | Normal(item: Item)
    | Skipped(item: Item)
    | Error(cause: string)

  /** True when no message of `ms` is an exception. */
  predicate NoErrors(ms: seq<Message>)
  {
    forall i :: 0 <= i < |ms| ==> !ms[i].Error?
  }
}
