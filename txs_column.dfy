/** The "transactions in queue" column of the node list: a static column
    descriptor and a cell that re-renders only when its value changes. */
module TxsColumn {
  import opened Common

  /** A column descriptor; the source's `label` is `caption` here (`label`
      is a Dafny keyword). The icon is an asset and is left out. */
  datatype Descriptor = Descriptor(caption: string, width: nat, setting: string, sortBy: Node -> int)

  /** The column's sort key: the queue length alone. */
  function SortBy(node: Node): (key: int)
    ensures key == node.txs as int
  {
    node.txs
  }

  const TXS_COLUMN: Descriptor := Descriptor("Transactions in Queue", 26, "txs", SortBy)

  /** The descriptor's constants, and a sort key that ignores every other
      field of the node. */
  lemma DescriptorConstants(a: Node, b: Node)
    requires a.txs == b.txs
    ensures TXS_COLUMN.caption == "Transactions in Queue" && TXS_COLUMN.width == 26
    ensures TXS_COLUMN.setting == "txs"
    ensures TXS_COLUMN.sortBy(a) == TXS_COLUMN.sortBy(b) == a.txs
  {
  }

  /** One cell of the column. `data` is the value shown by the last render. */
  class TxsCell {
    var data: int

    constructor ()
      ensures data == 0
    {
      data := 0;
    }

    method ShouldComponentUpdate(next: Node) returns (update: bool)
      ensures update <==> data != next.txs as int
    {
      update := data != next.txs;
    }

    /** Renders the cell and remembers what it showed. */
    method Render(node: Node) returns (shown: int)
      modifies this
      ensures data == node.txs && shown == node.txs
    {
      var txs := node.txs;
      data := txs;
      shown := txs;
    }

    /** One React update: render only when `shouldComponentUpdate` allows. */
    method Receive(next: Node) returns (shown: Option<int>)
      modifies this
      ensures (Deliver(old(data), [next.txs]).1 == []) <==> shown.None?
      ensures shown.Some? ==> shown.value == next.txs
      ensures data == Deliver(old(data), [next.txs]).0 == next.txs
    {
      var update := ShouldComponentUpdate(next);
      if update {
        var v := Render(next);
        shown := Some(v);
      } else {
        shown := None;
      }
    }
  }

  /** A stream of queue lengths delivered to a cell holding `data`: the data
      afterwards and the values rendered, in order. */
  function Deliver(data: int, stream: seq<int>): (r: (int, seq<int>))
    ensures |r.1| <= |stream|
    ensures stream == [] ==> r == (data, [])
    ensures forall v :: v in r.1 ==> v in stream
    decreases |stream|
  {
    if stream == [] then (data, [])
    else
      var t := stream[0];
      var rest := Deliver(t, stream[1..]);
      if data != t then (rest.0, [t] + rest.1) else rest
  }

  /** After a stream, the cell holds the last delivered value, whether or not
      its delivery re-rendered. */
  lemma {:induction false} DeliverHoldsLast(data: int, stream: seq<int>)
    requires stream != []
    ensures Deliver(data, stream).0 == stream[|stream| - 1]
    decreases |stream|
  {
    if |stream| > 1 {
      DeliverHoldsLast(stream[0], stream[1..]);
    }
  }

  /** No two successive renders show the same value, and the first differs
      from what was shown before: re-delivering a value never re-renders. */
  predicate ChangesOnly(prev: int, rendered: seq<int>)
    decreases |rendered|
  {
    rendered == [] || (rendered[0] != prev && ChangesOnly(rendered[0], rendered[1..]))
  }

  lemma {:induction false} DeliverRendersChangesOnly(data: int, stream: seq<int>)
    ensures ChangesOnly(data, Deliver(data, stream).1)
    decreases |stream|
  {
    if stream != [] {
      var t := stream[0];
      DeliverRendersChangesOnly(t, stream[1..]);
      var rest := Deliver(t, stream[1..]);
      if data != t {
        assert ([t] + rest.1)[1..] == rest.1;
      }
    }
  }

  /** Conversely every change renders: the number of renders is the number
      of deliveries that differ from the value before them. */
  function Changes(prev: int, stream: seq<int>): nat
    decreases |stream|
  {
    if stream == [] then 0
    else (if stream[0] != prev then 1 else 0) + Changes(stream[0], stream[1..])
  }

  lemma {:induction false} DeliverRendersEveryChange(data: int, stream: seq<int>)
    ensures |Deliver(data, stream).1| == Changes(data, stream)
    decreases |stream|
  {
    if stream != [] {
      DeliverRendersEveryChange(stream[0], stream[1..]);
    }
  }
}
