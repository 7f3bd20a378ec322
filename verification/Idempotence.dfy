/**
 Creation is idempotent on both stores: once a creation under a key was acknowledged, repeating it before its receipt
 expires finds the run already made, whatever happened to the store in between.
 */
module Idempotence {
  import opened Wrappers
  import opened Protocol
  import opened Checkpoint
  import opened StoreSpec
  import M = MemoryStore
  import Q = SqlStore

  type Answer = Result<CreateOutcome, StoreError>

  predicate Held(receipts: Receipts, slot: (string, string), receipt: Receipt) {
    slot in receipts && receipts[slot] == receipt
  }

  /** The answer to a repeated creation: the run already made for the same request, a refusal for any other. */
  predicate Repeats(run: RunSnapshot, reservation: Reservation, request: string, r: Answer) {
    r == if request == reservation.request then Ok(Duplicate(run.id, reservation.expiresAt)) else Err(StoreError.Conflict)
  }

  lemma StillHeld(before: Receipts, after: Receipts, slot: (string, string), receipt: Receipt, run: RunSnapshot, wanted: Option<Reservation>)
    requires Held(before, slot, receipt) && run.createdAt < receipt.reservation.expiresAt
    requires || after == before
      || after == LiveReceipts(before, run.createdAt)
      || (&& wanted.Some? && !Taken(before, (run.scope, wanted.value.key), run.createdAt)
          && after == LiveReceipts(before, run.createdAt)[(run.scope, wanted.value.key) := Receipt(run.id, wanted.value)])
    ensures Held(after, slot, receipt)
  {
  }

  // ---------------------------------------------------------------- the store in memory

  /** Anything any caller may do to the store before a moment. */
  method BusyMemory(store: M.MemoryExecutionStore, until: nat, ghost slot: (string, string), ghost receipt: Receipt)
    requires store.Valid() && Held(store.receipts, slot, receipt) && until <= receipt.reservation.expiresAt
    modifies store
    ensures store.Valid() && Held(store.receipts, slot, receipt)
  {
    hide Coherent, Admission, HasRoom, FullCommit, NodeCommit, Collected;
    var steps :| steps >= 0;
    for i := 0 to steps
      invariant store.Valid() && Held(store.receipts, slot, receipt)
    {
      var caller: string, id: string, path: string, revision: nat, now: nat := *, *, *, *, *;
      var run: RunSnapshot, record: InvocationRecord, limits: StoreLimits, wanted: Option<Reservation> := *, *, *, *;
      if * {
        if run.createdAt < until {
          ghost var before := store.receipts;
          var r := store.Create(caller, run, wanted, limits);
          StillHeld(before, store.receipts, slot, receipt, run, wanted);
        }
      } else if * {
        var r := store.Commit(caller, revision, run);
      } else if * {
        var r := store.CommitInvocation(caller, id, revision, path, record);
      } else if * {
        if now < until {
          var r := store.Collect(caller, now, limits);
        }
      } else if * {
        var r := store.Claim(caller);
      } else {
        var r := store.Release(caller);
      }
    }
  }

  /**
   A creation, then anything at all before its receipt expires, then a creation by the store's owner in the same scope
   under the same key: the same request is answered with the first run, another one is refused, and no run is made.
   */
  method RepeatMemory(store: M.MemoryExecutionStore, caller: string, run: RunSnapshot, reservation: Reservation, limits: StoreLimits,
                     owner: string, again: RunSnapshot, request: string, expiresAt: nat, later: StoreLimits)
    returns (first: Answer, second: Answer, ghost between: Runs, ghost owned: bool)
    requires store.Valid() && again.scope == run.scope
    requires run.createdAt < reservation.expiresAt && again.createdAt < reservation.expiresAt
    modifies store
    ensures store.Valid()
    ensures first == Ok(Created) && owned ==> Repeats(run, reservation, request, second) && store.Runs() == between
  {
    hide Coherent, Admission, FullCommit, NodeCommit, Collected, HasRoom;
    ghost var slot, receipt := (run.scope, reservation.key), Receipt(run.id, reservation);
    first := store.Create(caller, run, Some(reservation), limits);
    if first == Ok(Created) {
      assert Held(store.receipts, slot, receipt);
      BusyMemory(store, reservation.expiresAt, slot, receipt);
    }
    between, owned := store.Runs(), store.owner == Some(owner);
    second := store.Create(owner, again, Some(Reservation(reservation.key, request, expiresAt)), later);
  }

  /** At or after the expiry the key is free again: a new run is made under it exactly when there is room and it is new. */
  method ReuseMemory(store: M.MemoryExecutionStore, caller: string, run: RunSnapshot, reservation: Reservation, limits: StoreLimits,
                    again: RunSnapshot, next: Reservation, later: StoreLimits)
    returns (first: Answer, second: Answer, ghost between: Runs, ghost receipts: Receipts)
    requires store.Valid() && again.scope == run.scope && next.key == reservation.key
    requires reservation.expiresAt <= again.createdAt
    modifies store
    ensures store.Valid()
    ensures first == Ok(Created) ==>
      && !(second.Ok? && second.value.Duplicate?)
      && (second == Ok(Created) <==>
            HasRoom(between, receipts, again, Some(next), later) && ValidInitial(again) && again.id !in between)
      && (second == Ok(Created) ==> store.Runs() == between[again.id := again])
  {
    hide Coherent, Admission, HasRoom;
    first := store.Create(caller, run, Some(reservation), limits);
    between, receipts := store.Runs(), store.receipts;
    second := store.Create(caller, again, Some(next), later);
  }

  // ---------------------------------------------------------------- the SQL store

  /** Anything any caller may do to the store before a moment. */
  method BusySqlite(store: Q.SqliteExecutionStore, until: nat, ghost slot: (string, string), ghost receipt: Receipt)
    requires store.Valid() && Held(store.tables.receipts, slot, receipt) && until <= receipt.reservation.expiresAt
    modifies store
    ensures store.Valid() && Held(store.tables.receipts, slot, receipt)
  {
    hide Coherent, Admission, HasRoom, FullCommit, NodeCommit, Collected, Q.Sound, Q.Assembly, Q.HashCollides;
    var steps :| steps >= 0;
    for i := 0 to steps
      invariant store.Valid() && Held(store.tables.receipts, slot, receipt)
    {
      var caller: string, id: string, path: string, revision: nat, now: nat := *, *, *, *, *;
      var run: RunSnapshot, record: InvocationRecord, limits: StoreLimits, wanted: Option<Reservation> := *, *, *, *;
      if * {
        if run.createdAt < until {
          ghost var before := store.tables.receipts;
          var r := store.Create(caller, run, wanted, limits);
          StillHeld(before, store.tables.receipts, slot, receipt, run, wanted);
        }
      } else if * {
        var r := store.Commit(caller, revision, run);
      } else if * {
        var r := store.CommitInvocation(caller, id, revision, path, record);
      } else if * {
        if now < until {
          var r := store.Collect(caller, now, limits);
        }
      } else if * {
        var unlocked: bool := *;
        var r := store.Claim(caller, unlocked);
      } else {
        var r := store.Release(caller);
      }
    }
  }

  /**
   A creation, then anything at all before its receipt expires, then a creation by the store's owner in the same scope
   under the same key: the same request is answered with the first run, another one is refused, and no run is made.
   */
  method RepeatSqlite(store: Q.SqliteExecutionStore, caller: string, run: RunSnapshot, reservation: Reservation, limits: StoreLimits,
                     owner: string, again: RunSnapshot, request: string, expiresAt: nat, later: StoreLimits)
    returns (first: Answer, second: Answer, ghost between: Runs, ghost owned: bool)
    requires store.Valid() && again.scope == run.scope
    requires run.createdAt < reservation.expiresAt && again.createdAt < reservation.expiresAt
    modifies store
    ensures store.Valid()
    ensures first == Ok(Created) && owned ==> Repeats(run, reservation, request, second) && store.Runs() == between
  {
    hide Coherent, Admission, FullCommit, NodeCommit, Collected, HasRoom, Q.Sound, Q.Assembly, Q.HashCollides;
    ghost var slot, receipt := (run.scope, reservation.key), Receipt(run.id, reservation);
    first := store.Create(caller, run, Some(reservation), limits);
    if first == Ok(Created) {
      assert Held(store.tables.receipts, slot, receipt);
      BusySqlite(store, reservation.expiresAt, slot, receipt);
    }
    between, owned := store.Runs(), store.owner == Some(owner);
    second := store.Create(owner, again, Some(Reservation(reservation.key, request, expiresAt)), later);
  }

  /** At or after the expiry the key is free again: a new run is made under it exactly when there is room and it is new. */
  method ReuseSqlite(store: Q.SqliteExecutionStore, caller: string, run: RunSnapshot, reservation: Reservation, limits: StoreLimits,
                    again: RunSnapshot, next: Reservation, later: StoreLimits)
    returns (first: Answer, second: Answer, ghost between: Runs, ghost receipts: Receipts)
    requires store.Valid() && again.scope == run.scope && next.key == reservation.key
    requires reservation.expiresAt <= again.createdAt
    modifies store
    ensures store.Valid()
    ensures first == Ok(Created) ==>
      && !(second.Ok? && second.value.Duplicate?)
      && (second == Ok(Created) || second == Err(Corrupt) <==>
            HasRoom(between, receipts, again, Some(next), later) && ValidInitial(again) && again.id !in between)
      && (second == Ok(Created) ==> store.Runs() == between[again.id := again])
  {
    hide Coherent, Admission, HasRoom, Q.Sound, Q.Assembly, Q.HashCollides;
    first := store.Create(caller, run, Some(reservation), limits);
    between, receipts := store.Runs(), store.tables.receipts;
    second := store.Create(caller, again, Some(next), later);
  }
}
