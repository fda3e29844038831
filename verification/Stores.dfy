/**
 The receiver's channel store (integration-kits/go/stores.go).

 Books is what the store holds, as plain maps; each operation is a function on Books.  The
 in-memory store updates its maps in place and is proved to compute exactly these functions.
 */
module Stores {
  import opened Channel
  import opened Pricing

  datatype Books = Books(
    funding: map<string, Funding>,
    balance: map<string, Payment>,
    usage: map<string, Usage>,
    closing: map<string, ClosingData>,
    closed: map<string, ClosedData>)

  const EMPTY := Books(map[], map[], map[], map[], map[])

  /** An operation that changes the store. */
  datatype Op =
    | InsertFunding(id: string, data: Funding)
    | UpdateBalance(id: string, payment: Payment)
    | IncrementUsage(id: string, incs: Usage)
    | MarkClosing(id: string, closingData: ClosingData)
    | MarkClosed(id: string, closedData: ClosedData)

  function GetUsage(b: Books, id: string): Usage {
    if id in b.usage then b.usage[id] else map[]
  }

  /** Whether a new balance replaces the stored one. */
  predicate Replaces(b: Books, id: string, p: Payment) {
    id !in b.balance || p.balance > b.balance[id].balance || b.balance[id].signature == ""
  }

  function Apply(b: Books, op: Op): Books {
    match op
    case InsertFunding(id, data) =>
      if id in b.funding then b else b.(funding := b.funding[id := data])
    case UpdateBalance(id, p) =>
      if Replaces(b, id, p) then b.(balance := b.balance[id := p]) else b
    case IncrementUsage(id, incs) =>
      b.(usage := b.usage[id := Increment(GetUsage(b, id), incs)])
    case MarkClosing(id, data) =>
      if id in b.closed then b else b.(closing := b.closing[id := data])
    case MarkClosed(id, data) =>
      if id in b.closed then b else b.(closed := b.closed[id := data], closing := b.closing - {id})
  }

  function ApplyAll(b: Books, ops: seq<Op>): Books
    decreases |ops|
  {
    if ops == [] then b else ApplyAll(Apply(b, ops[0]), ops[1..])
  }

  class MemoryStores {
    var funding: map<string, Funding>
    var balance: map<string, Payment>
    var usage: map<string, Usage>
    var closing: map<string, ClosingData>
    var closed: map<string, ClosedData>

    ghost function View(): Books
      reads this
    {
      Books(funding, balance, usage, closing, closed)
    }

    constructor ()
      ensures View() == EMPTY
    {
      funding, balance, usage, closing, closed := map[], map[], map[], map[], map[];
    }

    method InsertFunding(id: string, data: Funding)
      modifies this
      ensures View() == Apply(old(View()), Op.InsertFunding(id, data))
    {
      if id !in funding {
        funding := funding[id := data];
      }
    }

    method UpdateBalance(id: string, p: Payment)
      modifies this
      ensures View() == Apply(old(View()), Op.UpdateBalance(id, p))
    {
      if id !in balance || p.balance > balance[id].balance || balance[id].signature == "" {
        balance := balance[id := p];
      }
    }

    method IncrementUsage(id: string, incs: Usage)
      modifies this
      ensures View() == Apply(old(View()), Op.IncrementUsage(id, incs))
    {
      if id !in usage {
        usage := usage[id := map[]];
      }
      var u := AddUsage(usage[id], incs);
      usage := usage[id := u];
    }

    method MarkClosing(id: string, data: ClosingData)
      modifies this
      ensures View() == Apply(old(View()), Op.MarkClosing(id, data))
    {
      if id !in closed {
        closing := closing[id := data];
      }
    }

    method MarkClosed(id: string, data: ClosedData)
      modifies this
      ensures View() == Apply(old(View()), Op.MarkClosed(id, data))
    {
      if id !in closed {
        closed := closed[id := data];
        closing := closing - {id};
      }
    }
  }
}
