/** Small wrappers shared by every module of the model. */
module Common {

  /** A value that may be absent (`undefined` / `null` / a missing document). */
  datatype Option<T> = None | Some(value: T)

  /** Effects on the user interface that carry no state of their own: navigation,
      alerts and writes to the device's key-value storage, recorded in order. */
  datatype Effect =
    | Navigate(route: string)
    | Replace(route: string)
    | GoBack
    | ShowAlert(message: string)
    | StorageSet(key: string, value: string)

  /** A concatenation starts with the head of its non-empty left part. */
  lemma HeadTail<T>(a: seq<T>, b: seq<T>)
    requires a != []
    ensures (a + b)[0] == a[0] && (a + b)[1..] == a[1..] + b
  {
  }

  lemma AppendAssoc<T>(x: seq<T>, y: seq<T>, z: seq<T>)
    ensures x + (y + z) == (x + y) + z
  {
  }
}
