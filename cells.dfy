/** The memory cells that live parameters alias. In the C++ code a registry entry holds a raw
    `double*` into a field owned by a node, a filter, an envelope or the Sound; here every such
    field is a cell of one store, and the owner keeps the cell's id. Writing through a registry
    entry is then a write to the store, and "no other field changed" is a statement about the
    other cells. */
module Cells {

  type CellId = nat

  datatype Allocation = Allocation(cell: CellId, store: Store)

  datatype Store = Store(cells: map<CellId, real>, next: CellId) {

    /** Every id in use lies below the allocation counter. */
    ghost predicate Valid() {
      forall c :: c in cells ==> c < next
    }

    /** The value a pointer to cell c reads. A cell the store does not hold reads 0.0; every
        owner in this model allocates its cells before using them. */
    function Read(c: CellId): real {
      if c in cells then cells[c] else 0.0
    }

    /** Assignment through a pointer: only cell c changes. The counter moves past c so the
        allocator can never hand c out again. */
    function Write(c: CellId, v: real): (s: Store)
      ensures s.Read(c) == v
      ensures forall d :: d != c ==> s.Read(d) == Read(d)
      ensures c in cells ==> s.cells.Keys == cells.Keys
      ensures forall d :: d in cells ==> d in s.cells
      ensures Valid() ==> s.Valid()
      ensures next <= s.next
    {
      Store(cells[c := v], if c < next then next else c + 1)
    }

    /** A field of a newly constructed object: a fresh cell holding its initial value. */
    function Alloc(v: real): (a: Allocation)
      ensures a.store.Read(a.cell) == v
      ensures Valid() ==> a.cell !in cells && a.store.Valid()
      ensures forall d :: d != a.cell ==> a.store.Read(d) == Read(d)
      ensures a.store.cells.Keys == cells.Keys + {a.cell}
      ensures next < a.store.next
    {
      Allocation(next, Store(cells[next := v], next + 1))
    }
  }

  function EmptyStore(): (s: Store)
    ensures s.Valid() && s.cells == map[]
  {
    Store(map[], 0)
  }

  /** The process memory that all aliased fields live in. */
  class Memory {
    var store: Store

    constructor()
      ensures store == EmptyStore()
    {
      store := EmptyStore();
    }
  }
}
