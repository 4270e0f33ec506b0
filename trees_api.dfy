/** The mutation hooks of src/hooks/useTreesApi.ts: which of them run behind
    the editor-lock guard, and which cached queries each one's `onSuccess`
    invalidates. */
module TreesApi {
  import opened Types
  import opened QueryKeys
  import opened EditorLockWrapper

  /** One call of a mutation hook, with the values its `onSuccess` reads:
      the member id of the variables, or the partition key of the new tree
      in the response. */
  datatype Mutation =
    | CreateTree(createdPartitionKey: string)
    | DeleteTree
    | DeleteAccount
    | UpdateMember(memberId: string)
    | DeleteMember
    | CreateChild
    | CreateParent
    | CreateSpouse
    | UpdateSpouseRelation
    | AddRole
    | RemoveRole
    | AcquireEditorLock
    | ReleaseEditorLock
    | ForceReleaseEditorLock
    | UploadPic(memberId: string)
    | UploadPhotos(memberId: string)

  /** The hooks whose mutationFn is the lock wrapper around the remote call. */
  predicate LockWrapped(m: Mutation)
  {
    m.UpdateMember? || m.DeleteMember? || m.CreateChild? || m.CreateParent? || m.CreateSpouse?
    || m.UpdateSpouseRelation? || m.UploadPic? || m.UploadPhotos?
  }

  /** The client's current partition key, which `setPartitionKey` replaces. */
  class PartitionKeyHolder {
    var partitionKey: Option<string>

    constructor (initial: Option<string>)
      ensures partitionKey == initial
    {
      partitionKey := initial;
    }

    method SetPartitionKey(pk: Option<string>)
      modifies this
      ensures partitionKey == pk
    {
      partitionKey := pk;
    }
  }

  function ByKey(q: QueryKey): QueryFilter
  {
    KeyPrefix(KeyArray(q))
  }

  /** The up-to-date entries after `onSuccess` of `m`, for a hook created with
      partition key `pk`. */
  function AfterSuccess(m: Mutation, pk: Option<string>, u: set<seq<string>>): set<seq<string>>
  {
    match m
    case CreateTree(_) => Invalidate(u, ByKey(TreesKey))
    case DeleteTree => Invalidate(u, ByKey(TreesKey))
    case DeleteAccount => {}
    case UpdateMember(id) =>
      if Truthy(pk) then
        Invalidate(Invalidate(Invalidate(u, ByKey(MemberKey(pk.value, id))), ByKey(MembersKey(pk.value))),
                   DirectRelationsOf(pk.value))
      else u
    case DeleteMember =>
      Invalidate(if Truthy(pk) then Invalidate(u, ByKey(MembersKey(pk.value))) else u, ByKey(TreesKey))
    case CreateChild | CreateParent | CreateSpouse =>
      if Truthy(pk) then Invalidate(Invalidate(u, ByKey(MembersKey(pk.value))), DirectRelationsOf(pk.value))
      else u
    case UpdateSpouseRelation =>
      if Truthy(pk) then Invalidate(u, ByKey(MembersKey(pk.value))) else u
    case AddRole | RemoveRole =>
      if Truthy(pk) then Invalidate(u, ByKey(RolesKey(pk.value))) else u
    case AcquireEditorLock | ReleaseEditorLock | ForceReleaseEditorLock =>
      if Truthy(pk) then Invalidate(u, ByKey(EditorLockKey(pk.value))) else u
    case UploadPic(mid) =>
      if Truthy(pk) then Invalidate(Invalidate(u, ByKey(PicUrlKey(pk.value, mid))), ByKey(MemberKey(pk.value, mid)))
      else u
    case UploadPhotos(mid) =>
      if Truthy(pk) then Invalidate(Invalidate(u, ByKey(PhotosUrlsKey(pk.value, mid))), ByKey(MemberKey(pk.value, mid)))
      else u
  }

  /** The partition key after `onSuccess` of `m`. */
  function KeyAfter(m: Mutation, current: Option<string>): Option<string>
  {
    match m
    case CreateTree(created) => Some(created)
    case DeleteTree => None
    case _ => current
  }

  /** The `onSuccess` callback of each mutation hook. */
  method OnSuccess(qc: QueryClient, holder: PartitionKeyHolder, m: Mutation, pk: Option<string>)
    modifies qc, holder
    ensures qc.upToDate == AfterSuccess(m, pk, old(qc.upToDate))
    ensures holder.partitionKey == KeyAfter(m, old(holder.partitionKey))
  {
    match m
    case CreateTree(created) =>
      holder.SetPartitionKey(Some(created));
      qc.InvalidateQueries(ByKey(TreesKey));
    case DeleteTree =>
      holder.SetPartitionKey(None);
      qc.InvalidateQueries(ByKey(TreesKey));
    case DeleteAccount =>
      qc.Clear();
    case UpdateMember(id) =>
      if Truthy(pk) {
        qc.InvalidateQueries(ByKey(MemberKey(pk.value, id)));
        qc.InvalidateQueries(ByKey(MembersKey(pk.value)));
        qc.InvalidateQueries(DirectRelationsOf(pk.value));
      }
    case DeleteMember =>
      if Truthy(pk) {
        qc.InvalidateQueries(ByKey(MembersKey(pk.value)));
      }
      qc.InvalidateQueries(ByKey(TreesKey));
    case CreateChild | CreateParent | CreateSpouse =>
      if Truthy(pk) {
        qc.InvalidateQueries(ByKey(MembersKey(pk.value)));
        qc.InvalidateQueries(DirectRelationsOf(pk.value));
      }
    case UpdateSpouseRelation =>
      if Truthy(pk) {
        qc.InvalidateQueries(ByKey(MembersKey(pk.value)));
      }
    case AddRole | RemoveRole =>
      if Truthy(pk) {
        qc.InvalidateQueries(ByKey(RolesKey(pk.value)));
      }
    case AcquireEditorLock | ReleaseEditorLock | ForceReleaseEditorLock =>
      if Truthy(pk) {
        qc.InvalidateQueries(ByKey(EditorLockKey(pk.value)));
      }
    case UploadPic(mid) =>
      if Truthy(pk) {
        qc.InvalidateQueries(ByKey(PicUrlKey(pk.value, mid)));
        qc.InvalidateQueries(ByKey(MemberKey(pk.value, mid)));
      }
    case UploadPhotos(mid) =>
      if Truthy(pk) {
        qc.InvalidateQueries(ByKey(PhotosUrlsKey(pk.value, mid)));
        qc.InvalidateQueries(ByKey(MemberKey(pk.value, mid)));
      }
  }

  /** The queries each successful mutation makes stale, stated key by key. */
  predicate Drops(m: Mutation, pk: Option<string>, q: QueryKey)
  {
    match m
    case CreateTree(_) => q == TreesKey
    case DeleteTree => q == TreesKey
    case DeleteAccount => true
    case UpdateMember(id) =>
      Truthy(pk) && (q == MemberKey(pk.value, id) || q == MembersKey(pk.value)
                     || (q.DirectRelationsKey? && q.pk == pk.value))
    case DeleteMember => q == TreesKey || (Truthy(pk) && q == MembersKey(pk.value))
    case CreateChild | CreateParent | CreateSpouse =>
      Truthy(pk) && (q == MembersKey(pk.value) || (q.DirectRelationsKey? && q.pk == pk.value))
    case UpdateSpouseRelation => Truthy(pk) && q == MembersKey(pk.value)
    case AddRole | RemoveRole => Truthy(pk) && q == RolesKey(pk.value)
    case AcquireEditorLock | ReleaseEditorLock | ForceReleaseEditorLock =>
      Truthy(pk) && q == EditorLockKey(pk.value)
    case UploadPic(mid) => Truthy(pk) && (q == PicUrlKey(pk.value, mid) || q == MemberKey(pk.value, mid))
    case UploadPhotos(mid) => Truthy(pk) && (q == PhotosUrlsKey(pk.value, mid) || q == MemberKey(pk.value, mid))
  }

  /** Invalidating by one key drops that key's entry and keeps every other. */
  lemma KeyDropped(u: set<seq<string>>, a: QueryKey, q: QueryKey)
    ensures KeyArray(q) in u ==> (KeyArray(q) in Invalidate(u, ByKey(a)) <==> q != a)
  {
    PrefixMatchIsExact(a, q);
  }

  /** Invalidating a tree's directRelations drops exactly those entries. */
  lemma RelationsDropped(u: set<seq<string>>, p: string, q: QueryKey)
    ensures KeyArray(q) in u ==>
              (KeyArray(q) in Invalidate(u, DirectRelationsOf(p)) <==> !(q.DirectRelationsKey? && q.pk == p))
  {
    DirectRelationsFilterExact(p, q);
  }

  /** `onSuccess` of `m` keeps no entry it did not have, and of the cached
      entry for `q` it drops exactly what `Drops` names. */
  predicate DropsExactly(m: Mutation, pk: Option<string>, u: set<seq<string>>, q: QueryKey)
  {
    AfterSuccess(m, pk, u) <= u
    && (KeyArray(q) in u ==> (KeyArray(q) in AfterSuccess(m, pk, u) <==> !Drops(m, pk, q)))
  }

  lemma TreeListDrops(m: Mutation, pk: Option<string>, u: set<seq<string>>, q: QueryKey)
    requires m.CreateTree? || m.DeleteTree?
    ensures DropsExactly(m, pk, u, q)
  {
    KeyDropped(u, TreesKey, q);
  }

  lemma UpdateMemberDrops(id: string, pk: Option<string>, u: set<seq<string>>, q: QueryKey)
    ensures DropsExactly(UpdateMember(id), pk, u, q)
  {
    var p := OrElse(pk, "");
    var u1 := Invalidate(u, ByKey(MemberKey(p, id)));
    KeyDropped(u, MemberKey(p, id), q);
    KeyDropped(u1, MembersKey(p), q);
    RelationsDropped(Invalidate(u1, ByKey(MembersKey(p))), p, q);
  }

  lemma DeleteMemberDrops(pk: Option<string>, u: set<seq<string>>, q: QueryKey)
    ensures DropsExactly(DeleteMember, pk, u, q)
  {
    var p := OrElse(pk, "");
    KeyDropped(u, MembersKey(p), q);
    KeyDropped(if Truthy(pk) then Invalidate(u, ByKey(MembersKey(p))) else u, TreesKey, q);
  }

  lemma RelativeCreatedDrops(m: Mutation, pk: Option<string>, u: set<seq<string>>, q: QueryKey)
    requires m.CreateChild? || m.CreateParent? || m.CreateSpouse?
    ensures DropsExactly(m, pk, u, q)
  {
    var p := OrElse(pk, "");
    KeyDropped(u, MembersKey(p), q);
    RelationsDropped(Invalidate(u, ByKey(MembersKey(p))), p, q);
  }

  lemma SpouseRelationDrops(pk: Option<string>, u: set<seq<string>>, q: QueryKey)
    ensures DropsExactly(UpdateSpouseRelation, pk, u, q)
  {
    KeyDropped(u, MembersKey(OrElse(pk, "")), q);
  }

  lemma RoleDrops(m: Mutation, pk: Option<string>, u: set<seq<string>>, q: QueryKey)
    requires m.AddRole? || m.RemoveRole?
    ensures DropsExactly(m, pk, u, q)
  {
    KeyDropped(u, RolesKey(OrElse(pk, "")), q);
  }

  lemma LockDrops(m: Mutation, pk: Option<string>, u: set<seq<string>>, q: QueryKey)
    requires m.AcquireEditorLock? || m.ReleaseEditorLock? || m.ForceReleaseEditorLock?
    ensures DropsExactly(m, pk, u, q)
  {
    KeyDropped(u, EditorLockKey(OrElse(pk, "")), q);
  }

  lemma UploadDrops(m: Mutation, pk: Option<string>, u: set<seq<string>>, q: QueryKey)
    requires m.UploadPic? || m.UploadPhotos?
    ensures DropsExactly(m, pk, u, q)
  {
    var p := OrElse(pk, "");
    var a := if m.UploadPic? then PicUrlKey(p, m.memberId) else PhotosUrlsKey(p, m.memberId);
    KeyDropped(u, a, q);
    KeyDropped(Invalidate(u, ByKey(a)), MemberKey(p, m.memberId), q);
  }

  /** Each `onSuccess` invalidates exactly the keys `Drops` names: every
      other cached query stays up to date, and nothing becomes up to date. */
  lemma {:induction false} SuccessDropsExactly(m: Mutation, pk: Option<string>, u: set<seq<string>>, q: QueryKey)
    ensures AfterSuccess(m, pk, u) <= u
    ensures KeyArray(q) in u ==> (KeyArray(q) in AfterSuccess(m, pk, u) <==> !Drops(m, pk, q))
  {
    if m.CreateTree? || m.DeleteTree? {
      TreeListDrops(m, pk, u, q);
    } else if m.UpdateMember? {
      UpdateMemberDrops(m.memberId, pk, u, q);
    } else if m.DeleteMember? {
      DeleteMemberDrops(pk, u, q);
    } else if m.CreateChild? || m.CreateParent? || m.CreateSpouse? {
      RelativeCreatedDrops(m, pk, u, q);
    } else if m.UploadPic? || m.UploadPhotos? {
      UploadDrops(m, pk, u, q);
    } else if m.UpdateSpouseRelation? {
      SpouseRelationDrops(pk, u, q);
    } else if m.AddRole? || m.RemoveRole? {
      RoleDrops(m, pk, u, q);
    } else if !m.DeleteAccount? {
      LockDrops(m, pk, u, q);
    }
  }

  /** A spouse-relation update and a member delete leave every cached
      directRelations entry up to date, while a member update drops the
      directRelations entry of every member of its tree. */
  lemma RelationsInvalidationIsAsymmetric(pk: Option<string>, u: set<seq<string>>, p: string, id: string, updated: string)
    ensures KeyArray(DirectRelationsKey(p, id)) in u ==>
              KeyArray(DirectRelationsKey(p, id)) in AfterSuccess(UpdateSpouseRelation, pk, u)
              && KeyArray(DirectRelationsKey(p, id)) in AfterSuccess(DeleteMember, pk, u)
    ensures Truthy(pk) ==> KeyArray(DirectRelationsKey(pk.value, id)) !in AfterSuccess(UpdateMember(updated), pk, u)
  {
    SuccessDropsExactly(UpdateSpouseRelation, pk, u, DirectRelationsKey(p, id));
    SuccessDropsExactly(DeleteMember, pk, u, DirectRelationsKey(p, id));
    if Truthy(pk) {
      SuccessDropsExactly(UpdateMember(updated), pk, u, DirectRelationsKey(pk.value, id));
    }
  }

  /** A hook created without a partition key invalidates nothing of a tree
      on success: the guarded hooks drop nothing, except that a member
      delete still drops the tree list. */
  lemma NoPartitionKeyDropsNoTreeQuery(m: Mutation, pk: Option<string>, q: QueryKey)
    requires !Truthy(pk) && !m.DeleteAccount?
    ensures Drops(m, pk, q) ==> q == TreesKey
    ensures LockWrapped(m) && Drops(m, pk, q) ==> m == DeleteMember
  {
  }

  /** One call of a hook's `mutateAsync`: through the lock guard for the
      wrapped hooks, otherwise the remote call alone. */
  function HookRun(m: Mutation, pk: Option<string>, currentUserId: Option<string>,
                   status: Settled<LockStatusResponse>, acquire: Settled<AcquireLockResponse>,
                   outcome: Settled<()>): Run<()>
  {
    if LockWrapped(m) then Guard(pk, currentUserId, status, acquire, outcome)
    else Run(outcome, [MutationCall])
  }

  /** The cache after a call: the guard's invalidations, then `onSuccess`
      when the call succeeded. */
  function CacheAfterMutation(m: Mutation, pk: Option<string>, r: Run<()>, u: set<seq<string>>): set<seq<string>>
  {
    var afterGuard := CacheAfter(u, r.calls);
    if r.result.Fulfilled? then AfterSuccess(m, pk, afterGuard) else afterGuard
  }

  method Mutate(qc: QueryClient, holder: PartitionKeyHolder, m: Mutation, pk: Option<string>,
                currentUserId: Option<string>, status: Settled<LockStatusResponse>,
                acquire: Settled<AcquireLockResponse>, outcome: Settled<()>)
    returns (result: Settled<()>, calls: seq<Call>)
    modifies qc, holder
    ensures Run(result, calls) == HookRun(m, pk, currentUserId, status, acquire, outcome)
    ensures qc.upToDate == CacheAfterMutation(m, pk, Run(result, calls), old(qc.upToDate))
    ensures holder.partitionKey == if result.Fulfilled? then KeyAfter(m, old(holder.partitionKey))
                                   else old(holder.partitionKey)
  {
    if LockWrapped(m) {
      result, calls := RunGuarded(qc, pk, currentUserId, status, acquire, outcome);
    } else {
      result, calls := outcome, [MutationCall];
      assert CacheAfter(qc.upToDate, calls) == CacheAfter(qc.upToDate, []) by {
        assert calls[1..] == [];
      }
    }
    if result.Fulfilled? {
      OnSuccess(qc, holder, m, pk);
    }
  }

  /** The lock status is consulted exactly by the wrapped hooks, and a wrapped
      hook succeeds only after the guard let its mutation run: the status
      call succeeded, no other user held the lock, and the remote call
      itself succeeded. */
  lemma {:induction false} SuccessfulEditsPassedTheGuard(m: Mutation, pk: Option<string>, currentUserId: Option<string>,
                                          status: Settled<LockStatusResponse>,
                                          acquire: Settled<AcquireLockResponse>, outcome: Settled<()>)
    ensures var r := HookRun(m, pk, currentUserId, status, acquire, outcome);
            StatusCall in r.calls <==> LockWrapped(m) && Truthy(pk)
    ensures var r := HookRun(m, pk, currentUserId, status, acquire, outcome);
            LockWrapped(m) && r.result.Fulfilled? ==>
              Truthy(pk) && status.Fulfilled? && !HeldByOther(status.value, currentUserId) && outcome.Fulfilled?
  {
    var r := HookRun(m, pk, currentUserId, status, acquire, outcome);
    if LockWrapped(m) {
      MutationRunsOnlyWhenAllowed(pk, currentUserId, status, acquire, outcome);
      if Truthy(pk) {
        assert r.calls[0] == StatusCall;
      }
    } else {
      assert r.calls == [MutationCall];
    }
  }

  /** No call of a hook bound to one tree, successful or not, makes a cached
      query of another tree stale (only account deletion clears everything). */
  lemma {:induction false} MutationKeepsOtherTrees(m: Mutation, pk: Option<string>, currentUserId: Option<string>,
                                    status: Settled<LockStatusResponse>,
                                    acquire: Settled<AcquireLockResponse>, outcome: Settled<()>,
                                    u: set<seq<string>>, q: QueryKey)
    requires !m.DeleteAccount?
    requires KeyTree(q).Some? && KeyTree(q) != pk
    requires KeyArray(q) in u
    ensures KeyArray(q) in CacheAfterMutation(m, pk, HookRun(m, pk, currentUserId, status, acquire, outcome), u)
  {
    var r := HookRun(m, pk, currentUserId, status, acquire, outcome);
    var afterGuard := CacheAfter(u, r.calls);
    if LockWrapped(m) {
      GuardInvalidatesOnlyLockStatus(u, pk, currentUserId, status, acquire, outcome, q);
    } else {
      assert afterGuard == u by {
        assert r.calls == [MutationCall] && r.calls[1..] == [];
      }
    }
    assert KeyArray(q) in afterGuard;
    SuccessDropsExactly(m, pk, afterGuard, q);
  }
}
