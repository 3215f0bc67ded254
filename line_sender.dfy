/**
 * The row-oriented client the driver writes through (the QuestDB line
 * sender): rows are built with Table/Symbol/...Column/At, buffered, and
 * in this model delivered only by Flush (the client's automatic flushing is
 * not modelled). Wire encoding and the network are not modelled;
 * whether the client refuses a row is an oracle fixed for the connection.
 */
module LineSender {

  /** A column value: float64, timestamp (microseconds) or string. */
  datatype Value = Float64(f: real) | Timestamp(micros: int) | Str(s: string)

  /** One row: target table, tag columns, field columns and the designated timestamp. */
  datatype Row = Row(table: string, symbols: seq<(string, string)>, columns: seq<(string, Value)>, at: int)

  class Sender {
    /** Rows accepted by At and not yet flushed, in submission order. */
    var pending: seq<Row>
    /** Rows delivered to the store by Flush, in submission order. */
    var flushed: seq<Row>
    /** How many times Flush was called. */
    var flushCount: nat
    /** The rows the client refuses when they are submitted. */
    const rejects: Row -> bool

    constructor (rejects: Row -> bool)
      ensures pending == [] && flushed == [] && flushCount == 0
      ensures this.rejects == rejects
    {
      pending, flushed, flushCount := [], [], 0;
      this.rejects := rejects;
    }

    /** Submits one row; a refused row is reported and not buffered. */
    method At(row: Row) returns (ok: bool)
      modifies this
      ensures ok == !rejects(row)
      ensures pending == if ok then old(pending) + [row] else old(pending)
      ensures flushed == old(flushed) && flushCount == old(flushCount)
    {
      ok := !rejects(row);
      if ok {
        pending := pending + [row];
      }
    }

    /** Delivers every buffered row. */
    method Flush()
      modifies this
      ensures flushed == old(flushed) + old(pending) && pending == []
      ensures flushCount == old(flushCount) + 1
    {
      flushed := flushed + pending;
      pending := [];
      flushCount := flushCount + 1;
    }
  }
}
