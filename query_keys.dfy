/** The query keys of the client cache (src/hooks/useTreesApi.ts:36-49) and
    the part of the query cache the client relies on: which cached entries
    are upToDate, and how `invalidateQueries` and `clear` change that. */
module QueryKeys {
  import opened Types

  /** One constructor per entry of `queryKeys`. */
  datatype QueryKey =
    | TreesKey
    | MembersKey(pk: string)
    | MemberKey(pk: string, id: string)
    | DirectRelationsKey(pk: string, id: string)
    | RolesKey(pk: string)
    | EditorLockKey(pk: string)
    | PicUrlKey(pk: string, memberId: string)
    | PhotosUrlsKey(pk: string, memberId: string)
    | AuthMeKey

  /** The array the source builds for a key; the cache compares these. */
  function KeyArray(q: QueryKey): (k: seq<string>)
    ensures |k| >= 1
  {
    match q
    case TreesKey => ["trees"]
    case MembersKey(pk) => ["members", pk]
    case MemberKey(pk, id) => ["member", pk, id]
    case DirectRelationsKey(pk, id) => ["directRelations", pk, id]
    case RolesKey(pk) => ["roles", pk]
    case EditorLockKey(pk) => ["editorLock", pk]
    case PicUrlKey(pk, memberId) => ["picUrl", pk, memberId]
    case PhotosUrlsKey(pk, memberId) => ["photosUrls", pk, memberId]
    case AuthMeKey => ["auth", "me"]
  }

  /** The tree a key belongs to, if it belongs to one. */
  function KeyTree(q: QueryKey): Option<string>
  {
    match q
    case TreesKey => None
    case AuthMeKey => None
    case _ => Some(q.pk)
  }

  /** Distinct keys build distinct arrays: each constructor is injective and
      two kinds never meet because their first elements differ. */
  lemma KeyArrayInjective(a: QueryKey, b: QueryKey)
    requires KeyArray(a) == KeyArray(b)
    ensures a == b
  {
    var k := KeyArray(a);
    assert k[0] == KeyArray(b)[0];
    match a
    case MembersKey(_) => assert k[1] == KeyArray(b)[1];
    case RolesKey(_) => assert k[1] == KeyArray(b)[1];
    case EditorLockKey(_) => assert k[1] == KeyArray(b)[1];
    case MemberKey(_, _) => assert k[1] == KeyArray(b)[1] && k[2] == KeyArray(b)[2];
    case DirectRelationsKey(_, _) => assert k[1] == KeyArray(b)[1] && k[2] == KeyArray(b)[2];
    case PicUrlKey(_, _) => assert k[1] == KeyArray(b)[1] && k[2] == KeyArray(b)[2];
    case PhotosUrlsKey(_, _) => assert k[1] == KeyArray(b)[1] && k[2] == KeyArray(b)[2];
    case _ =>
  }

  /** The filters `invalidateQueries` is called with: a query key, which
      matches every cached key it is a prefix of (the cache's default partial
      matching), or the predicate "a directRelations key of this tree". */
  datatype QueryFilter = KeyPrefix(prefix: seq<string>) | DirectRelationsOf(pk: string)

  predicate FilterMatches(f: QueryFilter, key: seq<string>)
  {
    match f
    case KeyPrefix(p) => |p| <= |key| && key[..|p|] == p
    case DirectRelationsOf(pk) => |key| >= 2 && key[0] == "directRelations" && key[1] == pk
  }

  /** No key's array is a proper prefix of another's, so invalidating by a
      key drops that key and no other. */
  lemma PrefixMatchIsExact(a: QueryKey, b: QueryKey)
    ensures FilterMatches(KeyPrefix(KeyArray(a)), KeyArray(b)) <==> a == b
  {
    var ka, kb := KeyArray(a), KeyArray(b);
    if FilterMatches(KeyPrefix(ka), kb) {
      assert kb[..|ka|][0] == ka[0];
      assert |ka| == |kb|;
      assert kb[..|ka|] == kb;
      KeyArrayInjective(a, b);
    }
  }

  /** The directRelations predicate drops exactly the directRelations keys of
      that tree, for every member. */
  lemma DirectRelationsFilterExact(pk: string, q: QueryKey)
    ensures FilterMatches(DirectRelationsOf(pk), KeyArray(q)) <==> (q.DirectRelationsKey? && q.pk == pk)
  {
  }

  /** The upToDate entries left after invalidating by `f`. */
  function Invalidate(upToDate: set<seq<string>>, f: QueryFilter): (r: set<seq<string>>)
    ensures r <= upToDate
    ensures forall k :: k in upToDate ==> (k in r <==> !FilterMatches(f, k))
  {
    set k | k in upToDate && !FilterMatches(f, k)
  }

  /** The query cache of one browser tab: the keys whose cached data is
      upToDate. A query whose key is invalidated is refetched before it is used
      again; `clear` drops every entry. */
  class QueryClient {
    var upToDate: set<seq<string>>

    constructor ()
      ensures upToDate == {}
    {
      upToDate := {};
    }

    /** A query fetched its data: its entry is upToDate. */
    method Fetch(key: seq<string>)
      modifies this
      ensures upToDate == old(upToDate) + {key}
    {
      upToDate := upToDate + {key};
    }

    /** `invalidateQueries(filter)` */
    method InvalidateQueries(f: QueryFilter)
      modifies this
      ensures upToDate == Invalidate(old(upToDate), f)
    {
      upToDate := set k | k in upToDate && !FilterMatches(f, k);
    }

    /** `clear()` */
    method Clear()
      modifies this
      ensures upToDate == {}
    {
      upToDate := {};
    }
  }

  /** The query hooks that read through the cache. */
  datatype QueryHook =
    | TreesQuery | MembersQuery | MemberQuery | DirectRelationsQuery | RolesQuery
    | EditorLockStatusQuery | PicUrlQuery | PhotosUrlsQuery | AuthMeQuery

  /** The key a query hook reads under: a missing partition key or member id
      is replaced by ''. */
  function HookKey(h: QueryHook, pk: Option<string>, memberId: Option<string>): QueryKey
  {
    var p := OrElse(pk, "");
    var m := OrElse(memberId, "");
    match h
    case TreesQuery => TreesKey
    case MembersQuery => MembersKey(p)
    case MemberQuery => MemberKey(p, m)
    case DirectRelationsQuery => DirectRelationsKey(p, m)
    case RolesQuery => RolesKey(p)
    case EditorLockStatusQuery => EditorLockKey(p)
    case PicUrlQuery => PicUrlKey(p, m)
    case PhotosUrlsQuery => PhotosUrlsKey(p, m)
    case AuthMeQuery => AuthMeKey
  }

  /** The `enabled` option of each query hook. */
  predicate HookEnabled(h: QueryHook, pk: Option<string>, memberId: Option<string>)
  {
    match h
    case TreesQuery => true
    case AuthMeQuery => true
    case MembersQuery => Truthy(pk)
    case RolesQuery => Truthy(pk)
    case EditorLockStatusQuery => Truthy(pk)
    case _ => Truthy(pk) && Truthy(memberId)
  }

  /** Every per-tree query is off while there is no partition key, and an
      enabled one always reads under the real tree's key, never under ''. */
  lemma PerTreeQueriesNeedPartitionKey(h: QueryHook, pk: Option<string>, memberId: Option<string>)
    ensures KeyTree(HookKey(h, pk, memberId)).Some? && !Truthy(pk) ==> !HookEnabled(h, pk, memberId)
    ensures HookEnabled(h, pk, memberId) && KeyTree(HookKey(h, pk, memberId)).Some? ==>
              KeyTree(HookKey(h, pk, memberId)) == pk && pk.value != ""
  {
  }

  /** A query hook fetches only when enabled. */
  method RunQuery(qc: QueryClient, h: QueryHook, pk: Option<string>, memberId: Option<string>)
    modifies qc
    ensures HookEnabled(h, pk, memberId) ==> qc.upToDate == old(qc.upToDate) + {KeyArray(HookKey(h, pk, memberId))}
    ensures !HookEnabled(h, pk, memberId) ==> qc.upToDate == old(qc.upToDate)
  {
    if HookEnabled(h, pk, memberId) {
      qc.Fetch(KeyArray(HookKey(h, pk, memberId)));
    }
  }
}
