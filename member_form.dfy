/** The add/edit member dialog (src/components/tree/MemberFormModal.tsx):
    which request a submit sends in each mode, and how the dialog's error,
    loading and open state change. The mutation is not part of this model;
    how its `mutateAsync` settles is an input. */
module MemberForm {
  import opened Types
  import opened Text
  import opened DateOnly
  import opened MemberInput

  datatype Mode = CreateChildMode | CreateParentMode | CreateSpouseMode | EditMode

  /** The dialog's input fields. */
  datatype Fields = Fields(name: string, surname: string, gender: Gender, born: string, died: string,
                           description: string, married: string, divorced: string)

  const EmptyFields := Fields([], [], Male, [], [], [], [], [])

  const NoPartitionKeyMessage := "No partition key set"
  const MarriageDateMessage := "Marriage date is required"
  const OperationFailed := "Operation failed"

  /** The fields after the edit-mode load effect: the member's own values,
      dates cut at their 'T'; the marriage fields are left as they were. */
  function LoadedFields(m: Member, current: Fields): Fields
  {
    current.(name := m.name, surname := m.surname, gender := m.gender,
             born := BeforeFirst(m.born, 'T'),
             died := if Truthy(m.died) then BeforeFirst(m.died.value, 'T') else [],
             description := m.description)
  }

  /** The one request a submit can send. */
  datatype Request =
    | Update(update: UpdateMemberInput)
    | Child(child: CreateChildInput)
    | Parent(parent: CreateParentInput)
    | Spouse(spouse: CreateSpouseInput)

  /** What a submit does before anything is awaited. */
  datatype Plan = NoPartitionKey | MarriageDateRequired | NothingToSend | Send(request: Request)

  /** The edit request: names trimmed, a blank description left out, the
      placeholder picture and photos; never gender, born or died. */
  function EditRequest(id: string, f: Fields): UpdateMemberInput
  {
    UpdateMemberInput(id, Some(Trim(f.name)), Some(Trim(f.surname)),
                      if Trim(f.description) != [] then Some(Trim(f.description)) else None,
                      Some(PlaceholderUrl), Some(PlaceholderUrl))
  }

  function NewMemberOf(f: Fields): CreateMemberInput
  {
    NewMember(f.name, f.surname, f.gender, f.description, f.born, f.died)
  }

  /** The branch `handleSubmit` takes. */
  function SubmitPlan(mode: Mode, pk: Option<string>, memberId: Option<string>,
                      relatedMemberId: Option<string>, f: Fields): Plan
  {
    if !Truthy(pk) then NoPartitionKey
    else if mode == EditMode && Truthy(memberId) then Send(Update(EditRequest(memberId.value, f)))
    else if mode == CreateChildMode && Truthy(relatedMemberId) then
      Send(Child(CreateChildInput(relatedMemberId.value, NewMemberOf(f))))
    else if mode == CreateParentMode && Truthy(relatedMemberId) then
      Send(Parent(CreateParentInput(relatedMemberId.value, NewMemberOf(f))))
    else if mode == CreateSpouseMode && Truthy(relatedMemberId) then
      if f.married == [] then MarriageDateRequired
      else Send(Spouse(CreateSpouseInput(relatedMemberId.value, NewMemberOf(f),
                                         AtMidnight(f.married), OptionalAtMidnight(f.divorced))))
    else NothingToSend
  }

  /** The mode a request belongs to, and the member id it is anchored at. */
  function ModeOf(r: Request): Mode
  {
    match r
    case Update(_) => EditMode
    case Child(_) => CreateChildMode
    case Parent(_) => CreateParentMode
    case Spouse(_) => CreateSpouseMode
  }

  function Anchor(r: Request): string
  {
    match r
    case Update(u) => u.id
    case Child(c) => c.parentId
    case Parent(p) => p.childId
    case Spouse(s) => s.spouseId
  }

  function NewMemberPart(r: Request): Option<CreateMemberInput>
  {
    match r
    case Update(_) => None
    case Child(c) => Some(c.member)
    case Parent(p) => Some(p.member)
    case Spouse(s) => Some(s.member)
  }

  /** `getTitle` */
  function Title(mode: Mode): (t: string)
    ensures t != "Create Member"
    ensures t == "Edit Member" <==> mode == EditMode
  {
    match mode
    case EditMode => "Edit Member"
    case CreateChildMode => "Add Child"
    case CreateParentMode => "Add Parent"
    case CreateSpouseMode => "Add Spouse"
  }

  /** A request is sent only in its own mode, anchored at the member the
      mode names (the edited member, or the related parent, child or
      spouse); with a partition key, nothing is sent exactly when that id is
      missing, or for a spouse without a marriage date. */
  lemma {:induction false} PlanFollowsMode(mode: Mode, pk: Option<string>, memberId: Option<string>,
                          relatedMemberId: Option<string>, f: Fields)
    ensures var p := SubmitPlan(mode, pk, memberId, relatedMemberId, f);
            p.Send? ==> ModeOf(p.request) == mode
                        && Anchor(p.request) == (if mode == EditMode then memberId.value else relatedMemberId.value)
    ensures var p := SubmitPlan(mode, pk, memberId, relatedMemberId, f);
            p == NoPartitionKey <==> !Truthy(pk)
    ensures var p := SubmitPlan(mode, pk, memberId, relatedMemberId, f);
            p == NothingToSend <==> Truthy(pk) && !Truthy(if mode == EditMode then memberId else relatedMemberId)
    ensures var p := SubmitPlan(mode, pk, memberId, relatedMemberId, f);
            p == MarriageDateRequired <==>
              Truthy(pk) && mode == CreateSpouseMode && Truthy(relatedMemberId) && f.married == []
  {
  }

  /** An edit changes exactly the name, surname, picture and photos, and the
      description when one was typed; id, gender and both dates stay. */
  lemma {:induction false} EditChangesOnlyEditableFields(m: Member, f: Fields)
    ensures var r := ApplyUpdate(m, EditRequest(m.id, f));
            r.id == m.id && r.gender == m.gender && r.born == m.born && r.died == m.died
            && r.vertexLabel == m.vertexLabel && r.partitionKey == m.partitionKey
            && r.name == Trim(f.name) && r.surname == Trim(f.surname)
            && r.pic == PlaceholderUrl && r.photos == PlaceholderUrl
            && (IsBlank(f.description) ==> r.description == m.description)
            && (!IsBlank(f.description) ==> r.description == Trim(f.description))
  {
    TrimEmptyIffBlank(f.description);
  }

  /** Opening the dialog on a member whose texts carry no surrounding
      whitespace and saving without edits gives back the same member, except
      that picture and photos become the placeholder. */
  lemma {:induction false} UneditedSaveResetsOnlyMedia(m: Member, current: Fields)
    requires Trim(m.name) == m.name && Trim(m.surname) == m.surname && Trim(m.description) == m.description
    ensures ApplyUpdate(m, EditRequest(m.id, LoadedFields(m, current))) ==
            m.(pic := PlaceholderUrl, photos := PlaceholderUrl)
  {
    var f := LoadedFields(m, current);
    EditChangesOnlyEditableFields(m, f);
    TrimEmptyIffBlank(m.description);
  }

  /** A create request's member part is the member built from the fields. */
  lemma CreateSendsNewMember(mode: Mode, pk: Option<string>, memberId: Option<string>,
                             relatedMemberId: Option<string>, f: Fields)
    ensures var p := SubmitPlan(mode, pk, memberId, relatedMemberId, f);
            p.Send? && mode != EditMode ==> NewMemberPart(p.request) == Some(NewMemberOf(f))
  {
  }

  /** The member built from the fields carries the typed dates at midnight
      UTC, so they parse to the typed dates; an empty death date is sent as
      absent, and the description is never empty. */
  lemma {:induction false} NewMemberKeepsDates(f: Fields)
    requires 'T' !in f.born && 'T' !in f.died
    ensures var n := NewMemberOf(f);
            ParseDateOnly(n.born) == ParseDateOnly(f.born)
            && (n.died.None? <==> f.died == [])
            && (n.died.Some? ==> ParseDateOnly(n.died.value) == ParseDateOnly(f.died))
            && n.description != [] && n.gender == f.gender
  {
    AtMidnightRoundTrip(f.born);
    if f.died != [] {
      AtMidnightRoundTrip(f.died);
    }
  }

  /** A spouse request carries the marriage date at midnight UTC and an
      absent divorce date exactly when none was typed. */
  lemma {:induction false} SpouseRequestDates(pk: Option<string>, memberId: Option<string>,
                            relatedMemberId: Option<string>, f: Fields)
    requires 'T' !in f.married
    ensures var p := SubmitPlan(CreateSpouseMode, pk, memberId, relatedMemberId, f);
            p.Send? ==>
              var s := p.request.spouse;
              f.married != [] && ParseDateOnly(s.married) == ParseDateOnly(f.married)
              && BeforeFirst(s.married, 'T') == f.married
              && (s.divorced.None? <==> f.divorced == [])
  {
    var p := SubmitPlan(CreateSpouseMode, pk, memberId, relatedMemberId, f);
    if p.Send? {
      assert p.request.spouse.married == AtMidnight(f.married);
      AtMidnightRoundTrip(f.married);
    }
  }

  /** The submit button is enabled only with a non-blank name and surname
      and a birth date. */
  predicate SubmitEnabled(loading: bool, f: Fields)
  {
    !loading && Trim(f.name) != [] && Trim(f.surname) != [] && f.born != []
  }

  /** A submit the button allows sends a non-empty name and surname with no
      whitespace at either end. */
  lemma {:induction false} EnabledSubmitSendsNames(f: Fields)
    requires SubmitEnabled(false, f)
    ensures var n := NewMemberOf(f);
            n.name != [] && n.surname != [] && Trim(n.name) == n.name && Trim(n.surname) == n.surname
  {
    TrimIdempotent(f.name);
    TrimIdempotent(f.surname);
  }

  /** The dialog's state. */
  class MemberFormModal {
    var name: string
    var surname: string
    var gender: Gender
    var born: string
    var died: string
    var description: string
    var married: string
    var divorced: string
    var loading: bool
    var error: Option<string>

    function FieldsOf(): Fields
      reads this
    {
      Fields(name, surname, gender, born, died, description, married, divorced)
    }

    constructor ()
      ensures FieldsOf() == EmptyFields && !loading && error.None?
    {
      name, surname, gender, born, died := [], [], Male, [], [];
      description, married, divorced := [], [], [];
      loading, error := false, None;
    }

    /** The load effect in edit mode, once the member has arrived. */
    method LoadExisting(m: Member)
      modifies this
      ensures FieldsOf() == LoadedFields(m, old(FieldsOf()))
      ensures loading == old(loading) && error == old(error)
    {
      name := m.name;
      surname := m.surname;
      gender := m.gender;
      born := BeforeFirst(m.born, 'T');
      died := if Truthy(m.died) then BeforeFirst(m.died.value, 'T') else [];
      description := m.description;
    }

    /** The load effect in a create mode while the dialog is open. */
    method ResetForCreate()
      modifies this
      ensures FieldsOf() == EmptyFields
      ensures loading == old(loading) && error == old(error)
    {
      name, surname, gender, born, died := [], [], Male, [], [];
      description, married, divorced := [], [], [];
    }

    /** `handleSubmit`: returns the request handed to the mutation, if any,
        and whether the dialog called `onSuccess` and closed. `outcome` is
        how that mutation settles. */
    method HandleSubmit(mode: Mode, pk: Option<string>, memberId: Option<string>,
                        relatedMemberId: Option<string>, outcome: Settled<()>)
      returns (sent: Option<Request>, closed: bool)
      modifies this
      ensures FieldsOf() == old(FieldsOf())
      ensures var p := SubmitPlan(mode, pk, memberId, relatedMemberId, old(FieldsOf()));
              (sent.Some? <==> p.Send?) && (sent.Some? ==> sent.value == p.request)
      ensures var p := SubmitPlan(mode, pk, memberId, relatedMemberId, old(FieldsOf()));
              match p
              case NoPartitionKey =>
                error == Some(NoPartitionKeyMessage) && loading == old(loading) && !closed
              case MarriageDateRequired =>
                error == Some(MarriageDateMessage) && !loading && !closed
              case NothingToSend =>
                error.None? && !loading && closed
              case Send(_) =>
                !loading
                && (outcome.Fulfilled? ==> error.None? && closed)
                && (outcome.Rejected? ==> error == Some(MessageOr(outcome.reason, OperationFailed)) && !closed)
    {
      var f := FieldsOf();
      ghost var plan := SubmitPlan(mode, pk, memberId, relatedMemberId, f);
      if !Truthy(pk) {
        error := Some(NoPartitionKeyMessage);
        return None, false;
      }
      error := None;
      loading := true;
      sent := None;
      if mode == EditMode && Truthy(memberId) {
        sent := Some(Update(EditRequest(memberId.value, f)));
      } else if mode == CreateChildMode && Truthy(relatedMemberId) {
        sent := Some(Child(CreateChildInput(relatedMemberId.value, NewMemberOf(f))));
      } else if mode == CreateParentMode && Truthy(relatedMemberId) {
        sent := Some(Parent(CreateParentInput(relatedMemberId.value, NewMemberOf(f))));
      } else if mode == CreateSpouseMode && Truthy(relatedMemberId) {
        if married == [] {
          assert plan == MarriageDateRequired;
          error := Some(MarriageDateMessage);
          loading := false;
          // the finally block
          loading := false;
          return None, false;
        }
        sent := Some(Spouse(CreateSpouseInput(relatedMemberId.value, NewMemberOf(f),
                                              AtMidnight(married), OptionalAtMidnight(divorced))));
      } else {
        assert plan == NothingToSend;
      }
      assert sent.Some? ==> plan == Send(sent.value);
      if sent.Some? && outcome.Rejected? {
        error := Some(MessageOr(outcome.reason, OperationFailed));
        closed := false;
      } else {
        // onSuccess, then handleClose: reset() and onClose()
        error := None;
        loading := false;
        closed := true;
      }
      // the finally block
      loading := false;
    }
  }
}
