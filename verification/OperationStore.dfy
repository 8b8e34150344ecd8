/**
  The one-cell durable store that both the admission producer and the browser
  outbox use for compare-and-swap.
*/
module OperationStore {

  datatype Cell<V> = Cell(revision: nat, value: V)

  datatype Status = Updated | Replayed | Conflict

  datatype Outcome<V> = Outcome(status: Status, cell: Cell<V>)

  /** Only the state that immediately follows `expected`, holding the same bytes, counts as a replay. */
  function CompareAndSwap<V(==)>(cell: Cell<V>, expected: nat, value: V): Outcome<V> {
    if cell.revision == expected then Outcome(Updated, Cell(expected + 1, value))
    else if cell.revision == expected + 1 && cell.value == value then Outcome(Replayed, cell)
    else Outcome(Conflict, cell)
  }

  /** The store as the source has it: an object whose cell is replaced in place. */
  class OperationStateStore<V(==)> {
    var cell: Cell<V>

    constructor (initial: V)
      ensures cell == Cell(0, initial)
    {
      cell := Cell(0, initial);
    }

    method Swap(expected: nat, value: V) returns (status: Status)
      modifies this
      ensures old(CompareAndSwap(cell, expected, value)) == Outcome(status, cell)
      ensures status.Updated? <==> old(cell.revision) == expected
      ensures status.Updated? ==> cell == Cell(expected + 1, value)
      ensures status.Replayed? <==> old(cell) == Cell(expected + 1, value)
      ensures !status.Updated? ==> cell == old(cell)
    {
      if cell.revision == expected {
        cell := Cell(expected + 1, value);
        status := Updated;
      } else if cell.revision == expected + 1 && cell.value == value {
        status := Replayed;
      } else {
        status := Conflict;
      }
    }
  }
}
