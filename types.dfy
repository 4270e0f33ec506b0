/** The records exchanged with the family-tree service (src/types/index.ts),
    plus the two JavaScript notions every client module needs: a nullable
    value and the way a promise settles. */
module Types {

  /** `T | null` / an optional property. */
  datatype Option<+T> = None | Some(value: T)

  /** A value thrown by JavaScript code: an `Error` object with its message,
      or any other value (`throw 'x'`, `throw {}`). */
  datatype Thrown = ErrorObject(message: string) | OtherValue

  /** How an awaited promise settles. */
  datatype Settled<+T> = Fulfilled(value: T) | Rejected(reason: Thrown)

  /** `err instanceof Error ? err.message : fallback` */
  function MessageOr(t: Thrown, fallback: string): (r: string)
    ensures t.ErrorObject? ==> r == t.message
    ensures t.OtherValue? ==> r == fallback
  {
    match t
    case ErrorObject(m) => m
    case OtherValue => fallback
  }

  /** JavaScript truthiness of a `string | null`: null and '' are falsy. */
  predicate Truthy(s: Option<string>)
  {
    s.Some? && s.value != ""
  }

  datatype Gender = Male | Female

  datatype Role = Owner | Editor | Viewer

  /** The `role` of AddRoleInput: only 'editor' or 'viewer' can be granted. */
  datatype GrantableRole = GrantEditor | GrantViewer

  /** The Role a grant confers; no grant confers ownership. */
  function GrantedRole(g: GrantableRole): (r: Role)
    ensures r != Owner
    ensures (r == Editor) == (g == GrantEditor)
  {
    match g
    case GrantEditor => Editor
    case GrantViewer => Viewer
  }

  datatype AddRoleInput = AddRoleInput(email: string, role: GrantableRole)

  /** A person vertex. Dates are ISO strings; `died` may be absent or null. */
  datatype Member = Member(
    id: string,
    vertexLabel: Option<string>,
    name: string,
    surname: string,
    gender: Gender,
    description: string,
    born: string,
    died: Option<string>,
    pic: string,
    photos: string,
    partitionKey: Option<string>)

  /** A spouse as listed in DirectRelations: the member plus the marriage. */
  datatype SpouseInfo = SpouseInfo(spouse: Member, married: string, divorced: Option<string>)

  /** The neighbourhood of one focused member. The type does not bound the
      number of parents. */
  datatype DirectRelations = DirectRelations(
    member: Member,
    parents: seq<Member>,
    children: seq<Member>,
    spouses: seq<SpouseInfo>)

  /** Fields of a member being created. */
  datatype CreateMemberInput = CreateMemberInput(
    name: string,
    surname: string,
    gender: Gender,
    description: string,
    born: string,
    died: Option<string>,
    pic: string,
    photos: string)

  /** Fields of an existing member that may be sent for update: gender, born
      and died have no place here. */
  datatype UpdateMemberInput = UpdateMemberInput(
    id: string,
    name: Option<string>,
    surname: Option<string>,
    description: Option<string>,
    pic: Option<string>,
    photos: Option<string>)

  datatype CreateTreeInput = CreateTreeInput(treeId: string, member: CreateMemberInput)
  datatype CreateChildInput = CreateChildInput(parentId: string, member: CreateMemberInput)
  datatype CreateParentInput = CreateParentInput(childId: string, member: CreateMemberInput)
  datatype CreateSpouseInput = CreateSpouseInput(
    spouseId: string,
    member: CreateMemberInput,
    married: string,
    divorced: Option<string>)

  datatype UpdateSpouseRelationInput = UpdateSpouseRelationInput(
    husbandId: string,
    wifeId: string,
    married: string,
    divorced: Option<string>)

  datatype EditorLock = EditorLock(treeId: string, lockOwner: string, acquiredAt: string, expiresAt: int)

  /** `locked` and `lock` are independent fields: locked with no lock record
      is a representable response. */
  datatype LockStatusResponse = LockStatusResponse(treeId: string, locked: bool, lock: Option<EditorLock>)

  /** What a successful acquire returns. */
  datatype AcquireLockResponse = AcquireLockResponse(message: string, lock: EditorLock)

  function OrElse<T>(o: Option<T>, d: T): T
  {
    if o.Some? then o.value else d
  }

  /** The member record after the server applies an UpdateMemberInput. The
      server is not part of this model: it is assumed to overwrite exactly
      the fields the input carries and to keep the absent ones. */
  function ApplyUpdate(m: Member, u: UpdateMemberInput): (r: Member)
    requires u.id == m.id
    ensures r.id == m.id && r.gender == m.gender && r.born == m.born && r.died == m.died
    ensures r.name == OrElse(u.name, m.name) && r.surname == OrElse(u.surname, m.surname)
    ensures r.description == OrElse(u.description, m.description)
    ensures r.pic == OrElse(u.pic, m.pic) && r.photos == OrElse(u.photos, m.photos)
  {
    m.(name := OrElse(u.name, m.name),
       surname := OrElse(u.surname, m.surname),
       description := OrElse(u.description, m.description),
       pic := OrElse(u.pic, m.pic),
       photos := OrElse(u.photos, m.photos))
  }

  /** No sequence of updates changes gender, birth or death date. */
  lemma {:induction false} UpdatesKeepImmutableFields(m: Member, us: seq<UpdateMemberInput>)
    requires forall i :: 0 <= i < |us| ==> us[i].id == m.id
    ensures ApplyAll(m, us).gender == m.gender
    ensures ApplyAll(m, us).born == m.born && ApplyAll(m, us).died == m.died
    ensures ApplyAll(m, us).id == m.id
    decreases |us|
  {
    if us != [] {
      UpdatesKeepImmutableFields(ApplyUpdate(m, us[0]), us[1..]);
    }
  }

  function ApplyAll(m: Member, us: seq<UpdateMemberInput>): Member
    requires forall i :: 0 <= i < |us| ==> us[i].id == m.id
    decreases |us|
  {
    if us == [] then m
    else
      var m' := ApplyUpdate(m, us[0]);
      assert m'.id == m.id;
      ApplyAll(m', us[1..])
  }
}
