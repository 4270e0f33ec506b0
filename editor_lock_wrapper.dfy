/** The editor-lock guard every tree-editing mutation runs behind
    (src/hooks/useEditorLockWrapper.ts): read the lock status, refuse when
    another user holds the lock, acquire it when nobody does, then run the
    wrapped mutation.

    The three remote calls (status, acquire, the mutation itself) are not
    part of this model; how each of them settles is an input. A run is
    described by its result and by the calls it made, in order. */
module EditorLockWrapper {
  import opened Types
  import opened QueryKeys

  const PartitionKeyRequired := "Partition key required for editor lock"
  const HeldByOtherUser := "Tree is currently being edited by another user. Please try again later."
  const AcquireFailedPrefix := "Failed to acquire editor lock: "

  /** The effects a run can have, in the order they happen. */
  datatype Call = StatusCall | AcquireCall | InvalidateCall(key: seq<string>) | MutationCall

  datatype Run<T> = Run(result: Settled<T>, calls: seq<Call>)

  /** The test of line 36: the status names a lock holder other than the
      current user. A current user id that is not known yet (None) differs
      from every holder. */
  predicate HeldByOther(s: LockStatusResponse, currentUserId: Option<string>)
  {
    s.locked && s.lock.Some? && Some(s.lock.value.lockOwner) != currentUserId
  }

  /** The key of the lock status query of tree `pk`. */
  function LockKey(pk: string): seq<string>
  {
    KeyArray(EditorLockKey(pk))
  }

  /** What one call of the wrapped closure does, given how the status call,
      the acquire call and the mutation settle. The acquire hook's own
      onSuccess invalidates the lock key, and the guard invalidates it again
      afterwards. */
  function Guard<T>(pk: Option<string>, currentUserId: Option<string>,
                    status: Settled<LockStatusResponse>, acquire: Settled<AcquireLockResponse>,
                    mutation: Settled<T>): Run<T>
  {
    if !Truthy(pk) then Run(Rejected(ErrorObject(PartitionKeyRequired)), [])
    else match status
      case Rejected(e) => Run(Rejected(e), [StatusCall])
      case Fulfilled(s) =>
        if HeldByOther(s, currentUserId) then Run(Rejected(ErrorObject(HeldByOtherUser)), [StatusCall])
        else if s.locked then Run(mutation, [StatusCall, MutationCall])
        else match acquire
          case Rejected(e) =>
            Run(Rejected(ErrorObject(AcquireFailedPrefix + MessageOr(e, "Unknown error"))), [StatusCall, AcquireCall])
          case Fulfilled(_) =>
            Run(mutation, [StatusCall, AcquireCall, InvalidateCall(LockKey(pk.value)),
                           InvalidateCall(LockKey(pk.value)), MutationCall])
  }

  /** The up-to-date cache entries after the invalidations among `calls`. */
  function CacheAfter(upToDate: set<seq<string>>, calls: seq<Call>): set<seq<string>>
    decreases |calls|
  {
    if calls == [] then upToDate
    else CacheAfter(CacheStep(upToDate, calls[0]), calls[1..])
  }

  function CacheStep(upToDate: set<seq<string>>, c: Call): set<seq<string>>
  {
    if c.InvalidateCall? then Invalidate(upToDate, KeyPrefix(c.key)) else upToDate
  }

  /** Calls are applied to the cache in order: one more call is one more step. */
  lemma {:induction false} CacheAfterSnoc(upToDate: set<seq<string>>, calls: seq<Call>, c: Call)
    ensures CacheAfter(upToDate, calls + [c]) == CacheStep(CacheAfter(upToDate, calls), c)
    decreases |calls|
  {
    if calls != [] {
      assert (calls + [c])[1..] == calls[1..] + [c];
      CacheAfterSnoc(CacheStep(upToDate, calls[0]), calls[1..], c);
    }
  }

  /** The closure itself, as a sequence of steps over the query cache. */
  method RunGuarded<T>(qc: QueryClient, pk: Option<string>, currentUserId: Option<string>,
                       status: Settled<LockStatusResponse>, acquire: Settled<AcquireLockResponse>,
                       mutation: Settled<T>)
    returns (result: Settled<T>, calls: seq<Call>)
    modifies qc
    ensures Run(result, calls) == Guard(pk, currentUserId, status, acquire, mutation)
    ensures qc.upToDate == CacheAfter(old(qc.upToDate), calls)
  {
    calls := [];
    if !Truthy(pk) {
      result := Rejected(ErrorObject(PartitionKeyRequired));
      return;
    }
    calls := calls + [StatusCall];
    CacheAfterSnoc(old(qc.upToDate), [], StatusCall);
    if status.Rejected? {
      result := Rejected(status.reason);
      return;
    }
    var s := status.value;
    if s.locked && s.lock.Some? && Some(s.lock.value.lockOwner) != currentUserId {
      result := Rejected(ErrorObject(HeldByOtherUser));
      return;
    }
    if !s.locked {
      CacheAfterSnoc(old(qc.upToDate), calls, AcquireCall);
      calls := calls + [AcquireCall];
      if acquire.Rejected? {
        result := Rejected(ErrorObject(AcquireFailedPrefix + MessageOr(acquire.reason, "Unknown error")));
        return;
      }
      // onSuccess of the acquire hook, which runs before mutateAsync resolves
      CacheAfterSnoc(old(qc.upToDate), calls, InvalidateCall(LockKey(pk.value)));
      calls := calls + [InvalidateCall(LockKey(pk.value))];
      qc.InvalidateQueries(KeyPrefix(LockKey(pk.value)));
      // the guard's own invalidation of the lock status
      CacheAfterSnoc(old(qc.upToDate), calls, InvalidateCall(LockKey(pk.value)));
      calls := calls + [InvalidateCall(LockKey(pk.value))];
      qc.InvalidateQueries(KeyPrefix(LockKey(pk.value)));
    }
    CacheAfterSnoc(old(qc.upToDate), calls, MutationCall);
    calls := calls + [MutationCall];
    result := mutation;
  }

  /** Without a partition key the run fails at once and calls nothing. */
  lemma NoPartitionKeyCallsNothing<T>(pk: Option<string>, currentUserId: Option<string>,
                                      status: Settled<LockStatusResponse>, acquire: Settled<AcquireLockResponse>,
                                      mutation: Settled<T>)
    requires !Truthy(pk)
    ensures Guard(pk, currentUserId, status, acquire, mutation) == Run(Rejected(ErrorObject(PartitionKeyRequired)), [])
  {
  }

  /** A lock held by someone else stops the run after the status call. */
  lemma HeldByOtherRejects<T>(pk: Option<string>, currentUserId: Option<string>,
                              s: LockStatusResponse, acquire: Settled<AcquireLockResponse>, mutation: Settled<T>)
    requires Truthy(pk) && s.locked && s.lock.Some? && Some(s.lock.value.lockOwner) != currentUserId
    ensures Guard(pk, currentUserId, Fulfilled(s), acquire, mutation) == Run(Rejected(ErrorObject(HeldByOtherUser)), [StatusCall])
  {
  }

  /** Until the current user is known, every lock with an owner is someone
      else's. */
  lemma UnknownUserIsRejected<T>(pk: Option<string>, s: LockStatusResponse,
                                 acquire: Settled<AcquireLockResponse>, mutation: Settled<T>)
    requires Truthy(pk) && s.locked && s.lock.Some?
    ensures Guard(pk, None, Fulfilled(s), acquire, mutation).result == Rejected(ErrorObject(HeldByOtherUser))
    ensures MutationCall !in Guard(pk, None, Fulfilled(s), acquire, mutation).calls
  {
  }

  /** A free lock is acquired exactly once, its status key invalidated, and
      then the mutation runs and its outcome is the run's outcome. */
  lemma FreeLockIsAcquiredFirst<T>(pk: Option<string>, currentUserId: Option<string>,
                                   s: LockStatusResponse, lock: AcquireLockResponse, mutation: Settled<T>)
    requires Truthy(pk) && !s.locked
    ensures Guard(pk, currentUserId, Fulfilled(s), Fulfilled(lock), mutation) ==
            Run(mutation, [StatusCall, AcquireCall, InvalidateCall(LockKey(pk.value)),
                           InvalidateCall(LockKey(pk.value)), MutationCall])
  {
  }

  /** A failed acquire becomes an Error whose message carries the cause's
      message (or "Unknown error"), and the mutation is not run. */
  lemma FailedAcquireStops<T>(pk: Option<string>, currentUserId: Option<string>,
                              s: LockStatusResponse, cause: Thrown, mutation: Settled<T>)
    requires Truthy(pk) && !s.locked
    ensures Guard(pk, currentUserId, Fulfilled(s), Rejected(cause), mutation) ==
            Run(Rejected(ErrorObject(AcquireFailedPrefix + MessageOr(cause, "Unknown error"))),
                [StatusCall, AcquireCall])
  {
  }

  /** A lock the current user holds, or a locked status without a lock
      record, lets the mutation run without acquiring. */
  lemma HeldLockProceeds<T>(pk: Option<string>, currentUserId: Option<string>,
                            s: LockStatusResponse, acquire: Settled<AcquireLockResponse>, mutation: Settled<T>)
    requires Truthy(pk) && s.locked
    requires s.lock.None? || Some(s.lock.value.lockOwner) == currentUserId
    ensures Guard(pk, currentUserId, Fulfilled(s), acquire, mutation) == Run(mutation, [StatusCall, MutationCall])
  {
  }

  /** The mutation runs exactly when there is a partition key, the status
      call succeeds, no other user holds the lock, and the lock is either
      already taken or is acquired; when it runs, it is the last call, its
      outcome is passed through unchanged, and the acquire, if any, came
      first. No call releases the lock. */
  lemma {:induction false} MutationRunsOnlyWhenAllowed<T>(pk: Option<string>, currentUserId: Option<string>,
                                         status: Settled<LockStatusResponse>, acquire: Settled<AcquireLockResponse>,
                                         mutation: Settled<T>)
    ensures var r := Guard(pk, currentUserId, status, acquire, mutation);
            MutationCall in r.calls <==>
              Truthy(pk) && status.Fulfilled? && !HeldByOther(status.value, currentUserId)
              && (status.value.locked || acquire.Fulfilled?)
    ensures var r := Guard(pk, currentUserId, status, acquire, mutation);
            MutationCall in r.calls ==> r.calls[|r.calls| - 1] == MutationCall && r.result == mutation
    ensures var r := Guard(pk, currentUserId, status, acquire, mutation);
            MutationCall !in r.calls ==> r.result.Rejected?
    ensures var r := Guard(pk, currentUserId, status, acquire, mutation);
            AcquireCall in r.calls <==> Truthy(pk) && status.Fulfilled? && !status.value.locked
    ensures var r := Guard(pk, currentUserId, status, acquire, mutation);
            |r.calls| <= 5 && (r.calls != [] ==> r.calls[0] == StatusCall)
            && (forall i :: 0 <= i < |r.calls| && r.calls[i] == MutationCall ==> i == |r.calls| - 1)
  {
    var r := Guard(pk, currentUserId, status, acquire, mutation);
    if Truthy(pk) && status.Fulfilled? && !HeldByOther(status.value, currentUserId) {
      if status.value.locked {
        assert r.calls == [StatusCall, MutationCall];
      } else if acquire.Fulfilled? {
        assert r.calls[4] == MutationCall;
      } else {
        assert r.calls == [StatusCall, AcquireCall];
      }
    } else if Truthy(pk) {
      assert r.calls == [StatusCall];
    }
  }

  /** The guard leaves every cached entry up to date except, when it
      acquires the lock, the lock status of its own tree. */
  lemma {:induction false} GuardInvalidatesOnlyLockStatus<T>(upToDate: set<seq<string>>, pk: Option<string>,
                                         currentUserId: Option<string>, status: Settled<LockStatusResponse>,
                                         acquire: Settled<AcquireLockResponse>, mutation: Settled<T>, q: QueryKey)
    ensures var r := Guard(pk, currentUserId, status, acquire, mutation);
            KeyArray(q) in upToDate ==>
              (KeyArray(q) in CacheAfter(upToDate, r.calls) <==>
                 !(AcquireCall in r.calls && acquire.Fulfilled? && q == EditorLockKey(pk.value)))
    ensures var r := Guard(pk, currentUserId, status, acquire, mutation);
            CacheAfter(upToDate, r.calls) <= upToDate
  {
    var r := Guard(pk, currentUserId, status, acquire, mutation);
    MutationRunsOnlyWhenAllowed(pk, currentUserId, status, acquire, mutation);
    if AcquireCall in r.calls && acquire.Fulfilled? {
      var key := LockKey(pk.value);
      var once := Invalidate(upToDate, KeyPrefix(key));
      assert r.calls == [StatusCall, AcquireCall, InvalidateCall(key), InvalidateCall(key), MutationCall];
      var c1, c2, c3, c4 := r.calls[1..], r.calls[2..], r.calls[3..], r.calls[4..];
      assert c1 == r.calls[1..][0..] && c2 == c1[1..] && c3 == c2[1..] && c4 == c3[1..];
      assert CacheAfter(upToDate, r.calls) == CacheAfter(upToDate, c1);
      assert CacheAfter(upToDate, c1) == CacheAfter(upToDate, c2);
      assert CacheAfter(upToDate, c2) == CacheAfter(once, c3);
      assert CacheAfter(once, c3) == CacheAfter(Invalidate(once, KeyPrefix(key)), c4);
      assert c4[1..] == [] && c4[0] == MutationCall;
      assert CacheAfter(Invalidate(once, KeyPrefix(key)), c4) == Invalidate(once, KeyPrefix(key));
      assert CacheAfter(upToDate, r.calls) == Invalidate(once, KeyPrefix(key));
      PrefixMatchIsExact(EditorLockKey(pk.value), q);
      assert FilterMatches(KeyPrefix(key), KeyArray(q)) <==> q == EditorLockKey(pk.value);
    } else {
      assert forall i :: 0 <= i < |r.calls| ==> !r.calls[i].InvalidateCall?;
      NoInvalidationKeepsCache(upToDate, r.calls);
    }
  }

  lemma {:induction false} NoInvalidationKeepsCache(upToDate: set<seq<string>>, calls: seq<Call>)
    requires forall i :: 0 <= i < |calls| ==> !calls[i].InvalidateCall?
    ensures CacheAfter(upToDate, calls) == upToDate
    decreases |calls|
  {
    if calls != [] {
      assert !calls[0].InvalidateCall?;
      NoInvalidationKeepsCache(upToDate, calls[1..]);
    }
  }
}
