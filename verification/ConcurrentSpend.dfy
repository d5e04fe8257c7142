/** The over-spend bound for concurrent calls: carried over from the serial ledger to every interleaving. */
module ConcurrentSpend {
  import opened Common
  import opened Ledger
  import opened LedgerRuns
  import opened Overspend
  import opened Transactions

  /** The books after the returned calls, in the order of their return. */
  function Returned(b: Books, last: Sys): Books
    requires forall k :: 0 <= k < |last.history| ==> last.history[k] in last.begun
  {
    RunBooks(b, Serial(last.begun, last.history))
  }

  lemma ReturnedIsCommitted(owner: int -> int, b: Books, events: seq<Event>, last: Sys)
    requires Execution(owner, Start(b.db), events, last)
    ensures forall k :: 0 <= k < |last.history| ==> last.history[k] in last.begun
    ensures Returned(b, last).db == last.db
  {
    StartOk(owner, b.db);
    Serializable(owner, b.db, Start(b.db), events, last);
    RunBooksIsRun(b, Serial(last.begun, last.history));
  }

  /** Under any interleaving of transactions, at any moment, a user's beans - frozen is at or above the floor
      up to the uncovered costs and the beans that closes took from other holds. */
  lemma ConcurrentBound(owner: int -> int, b: Books, events: seq<Event>, last: Sys, u: int)
    requires BooksOk(owner, b) && Exact(b)
    requires u in b.db.users && b.db.users[u].Available() >= BEANS_FLOOR
    requires Execution(owner, Start(b.db), events, last)
    requires forall k :: 0 <= k < |last.history| ==> last.history[k] in last.begun
    requires AllProper(owner, Serial(last.begun, last.history))
    ensures var calls := Serial(last.begun, last.history);
      && u in last.db.users
      && last.db.users[u].Available() >= BEANS_FLOOR - UncoveredTotal(b, calls, u) - OverTakenTotal(b, calls, u)
  {
    ReturnedIsCommitted(owner, b, events, last);
    OverspendBound(owner, b, Serial(last.begun, last.history), u);
  }

  /** So it never falls below the floor when, in the order in which the calls returned, each close took exactly its
      own open hold and each cost was covered; and frozen is then the sum of the open holds. */
  lemma ConcurrentNoOverspend(owner: int -> int, b: Books, events: seq<Event>, last: Sys, u: int)
    requires BooksOk(owner, b) && Exact(b)
    requires u in b.db.users && b.db.users[u].Available() >= BEANS_FLOOR
    requires Execution(owner, Start(b.db), events, last)
    requires forall k :: 0 <= k < |last.history| ==> last.history[k] in last.begun
    requires var calls := Serial(last.begun, last.history);
      AllProper(owner, calls) && TakesOwnAlong(b, calls) && CostsCovered(b, calls)
    ensures u in last.db.users && last.db.users[u].Available() >= BEANS_FLOOR
    ensures last.db.users[u].frozen == SumOpen(Returned(b, last).open, u)
  {
    var calls := Serial(last.begun, last.history);
    ReturnedIsCommitted(owner, b, events, last);
    CleanTotals(b, calls, u);
    NoOverspend(owner, b, calls, u);
    FrozenExact(owner, b, calls);
    ExactAtEnd(b, calls);
  }

  lemma {:induction false} ExactAtEnd(b: Books, ops: seq<Op>)
    requires ExactAlong(b, ops)
    ensures Exact(RunBooks(b, ops))
    decreases |ops|
  {
    if ops == [] {
    } else {
      ExactAtEnd(NextBooks(b, ops[0]), ops[1..]);
    }
  }
}
