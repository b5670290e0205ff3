/** The item index's single insert and extract, which the index defines in
    terms of a bulk transaction: open one, perform the operation, commit. */
module Inventory {

  /** The outcome of an attempt to bind two indices. */
  datatype BindingResult = NoBind | Replace | Bind

  /** The key of a class of interchangeable items. */
  datatype IndexKey = IndexKey(id: nat)

  datatype OpKind = Extract | Insert

  /** One call on a transaction, with the arguments it received. */
  datatype Op = Op(kind: OpKind, key: IndexKey, count: int, simulate: bool)

  /** What happens to a transaction, in order. */
  datatype Event = Performed(op: Op) | Committed

  /** The operations among `events`, in the order they were performed. */
  function Operations(events: seq<Event>): (ops: seq<Op>)
    ensures |ops| <= |events|
    ensures forall e :: e in events && e.Performed? ==> e.op in ops
  {
    if events == [] then []
    else if events[|events| - 1].Performed? then Operations(events[..|events| - 1]) + [events[|events| - 1].op]
    else Operations(events[..|events| - 1])
  }

  /** Performing an operation appends it to the operations; a commit adds
      none. */
  lemma OperationsAppend(events: seq<Event>, e: Event)
    ensures e.Performed? ==> Operations(events + [e]) == Operations(events) + [e.op]
    ensures e.Committed? ==> Operations(events + [e]) == Operations(events)
  {
    assert (events + [e])[..|events|] == events;
  }

  /** A log of one operation and a commit holds just that operation. */
  lemma SingleOperation(op: Op)
    ensures Operations([Performed(op), Committed]) == [op]
  {
    OperationsAppend([], Performed(op));
    assert [Performed(op), Committed] == [Performed(op)] + [Committed];
    OperationsAppend([Performed(op)], Committed);
  }

  /** How a transaction implementation answers: the count it returns for an
      operation, given the operations already performed on it. */
  type Behaviour = (seq<Op>, Op) -> int

  /** A bulk transaction. Its answers come from `respond`; the model keeps
      the log of what was done to it. */
  class BulkItemTransaction {
    const respond: Behaviour
    var events: seq<Event>

    constructor (respond: Behaviour)
      ensures this.respond == respond && events == []
    {
      this.respond := respond;
      events := [];
    }

    method ExtractItem(key: IndexKey, count: int, simulate: bool) returns (actual: int)
      modifies this
      ensures actual == respond(Operations(old(events)), Op(Extract, key, count, simulate))
      ensures events == old(events) + [Performed(Op(Extract, key, count, simulate))]
    {
      var op := Op(Extract, key, count, simulate);
      actual := respond(Operations(events), op);
      events := events + [Performed(op)];
    }

    method InsertItem(key: IndexKey, count: int, simulate: bool) returns (actual: int)
      modifies this
      ensures actual == respond(Operations(old(events)), Op(Insert, key, count, simulate))
      ensures events == old(events) + [Performed(Op(Insert, key, count, simulate))]
    {
      var op := Op(Insert, key, count, simulate);
      actual := respond(Operations(events), op);
      events := events + [Performed(op)];
    }

    method Commit()
      modifies this
      ensures events == old(events) + [Committed]
    {
      events := events + [Committed];
    }
  }

  /** An item index. Which transaction `bulkTransaction` opens is up to the
      implementation: the `n`-th one answers as `behaviour(n)`. */
  class ItemIndex {
    const behaviour: nat -> Behaviour
    var transactionsOpened: nat

    constructor (behaviour: nat -> Behaviour)
      ensures this.behaviour == behaviour && transactionsOpened == 0
    {
      this.behaviour := behaviour;
      transactionsOpened := 0;
    }

    method BulkTransaction() returns (t: BulkItemTransaction)
      modifies this
      ensures fresh(t) && t.events == [] && t.respond == behaviour(old(transactionsOpened))
      ensures transactionsOpened == old(transactionsOpened) + 1
    {
      t := new BulkItemTransaction(behaviour(transactionsOpened));
      transactionsOpened := transactionsOpened + 1;
    }

    /** Extracts through one fresh transaction: the single operation, with the
        caller's arguments, and then one commit, whether or not it simulates.
        The count is the transaction's answer. */
    method ExtractItem(key: IndexKey, count: int, simulate: bool) returns (actual: int, ghost t: BulkItemTransaction)
      modifies this
      ensures fresh(t) && t.respond == behaviour(old(transactionsOpened))
      ensures transactionsOpened == old(transactionsOpened) + 1
      ensures t.events == [Performed(Op(Extract, key, count, simulate)), Committed]
      ensures Operations(t.events) == [Op(Extract, key, count, simulate)]
      ensures actual == t.respond([], Op(Extract, key, count, simulate))
    {
      var transaction := BulkTransaction();
      actual := transaction.ExtractItem(key, count, simulate);
      transaction.Commit();
      SingleOperation(Op(Extract, key, count, simulate));
      t := transaction;
    }

    /** Inserts through one fresh transaction: the single operation, with the
        caller's arguments, and then one commit, whether or not it simulates.
        The count is the transaction's answer. */
    method InsertItem(key: IndexKey, count: int, simulate: bool) returns (actual: int, ghost t: BulkItemTransaction)
      modifies this
      ensures fresh(t) && t.respond == behaviour(old(transactionsOpened))
      ensures transactionsOpened == old(transactionsOpened) + 1
      ensures t.events == [Performed(Op(Insert, key, count, simulate)), Committed]
      ensures Operations(t.events) == [Op(Insert, key, count, simulate)]
      ensures actual == t.respond([], Op(Insert, key, count, simulate))
    {
      var transaction := BulkTransaction();
      actual := transaction.InsertItem(key, count, simulate);
      transaction.Commit();
      SingleOperation(Op(Insert, key, count, simulate));
      t := transaction;
    }
  }
}
