/** Values shared by the dashboard components: the `Maybe` wrapper and the
    node record read from the application state. */
module Common {

  /** `Maybe<T>`: a value that may be `null`. */
  datatype Option<+T> = None | Some(value: T)

  type NodeId = nat

  /** A telemetry node as the components read it: an identity, an optional
      location and the number of transactions in its queue. */
  datatype Node = Node(id: NodeId, lat: Option<real>, lon: Option<real>, txs: nat)

  /** A node is drawn on the map only when both coordinates are known. */
  predicate HasLocation(n: Node)
  {
    n.lat.Some? && n.lon.Some?
  }

  function Min(a: int, b: int): (m: int)
    ensures m <= a && m <= b && (m == a || m == b)
  {
    if a < b then a else b
  }
}
