/** The two-step "create a tree" wizard
    (src/components/dashboard/CreateTreeModal.tsx): step one creates the
    tree record and stores its id, step two creates the first member in that
    tree. How the two remote calls settle is an input. */
module CreateTree {
  import opened Types
  import opened Text
  import opened DateOnly
  import opened MemberInput
  import opened QueryKeys
  import opened TreesApi

  datatype Step = TreeStep | MemberStep

  const TreeFailed := "Failed to create tree"
  const MemberFailed := "Failed to create first member"

  /** The tree record step one asks for. */
  datatype TreeRecordInput = TreeRecordInput(name: string, description: Option<string>)

  /** `{ name: treeName.trim(), description: treeDescription.trim() || undefined }` */
  function TreeRecord(treeName: string, treeDescription: string): TreeRecordInput
  {
    TreeRecordInput(Trim(treeName),
                    if Trim(treeDescription) != [] then Some(Trim(treeDescription)) else None)
  }

  /** The tree name is sent trimmed; the description is left out exactly
      when it is blank, and is otherwise sent trimmed and non-empty. */
  lemma {:induction false} TreeRecordSpec(treeName: string, treeDescription: string)
    ensures var r := TreeRecord(treeName, treeDescription);
            r.name == Trim(treeName)
            && (r.description.None? <==> IsBlank(treeDescription))
            && (r.description.Some? ==> r.description.value == Trim(treeDescription) && r.description.value != [])
  {
    TrimEmptyIffBlank(treeDescription);
  }

  /** The tree step's submit button: enabled while not saving and the tree
      name is not blank. */
  predicate TreeSubmitEnabled(loading: bool, treeName: string)
  {
    !loading && Trim(treeName) != []
  }

  /** A tree submit the button allows sends a non-empty name with no
      whitespace at either end. */
  lemma {:induction false} EnabledTreeSubmitSendsName(treeName: string, treeDescription: string)
    requires TreeSubmitEnabled(false, treeName)
    ensures var r := TreeRecord(treeName, treeDescription);
            r.name != [] && Trim(r.name) == r.name
  {
    TrimIdempotent(treeName);
  }

  /** What is typed in step one. */
  datatype TreeFields = TreeFields(treeName: string, treeDescription: string)

  /** What is typed in step two. */
  datatype FirstMemberFields = FirstMemberFields(name: string, surname: string, gender: Gender,
                                                 born: string, died: string, description: string)

  const EmptyTreeFields := TreeFields([], [])
  const EmptyMemberFields := FirstMemberFields([], [], Male, [], [], [])

  /** The member part of the step-two request. */
  function FirstMember(f: FirstMemberFields): CreateMemberInput
  {
    NewMember(f.name, f.surname, f.gender, f.description, f.born, f.died)
  }

  /** The member step's submit button: enabled while not saving, with a
      non-blank name and surname and a birth date. */
  predicate MemberSubmitEnabled(loading: bool, f: FirstMemberFields)
  {
    !loading && Trim(f.name) != [] && Trim(f.surname) != [] && f.born != []
  }

  /** A member submit the button allows sends a non-empty, trimmed name and
      surname and a birth date that parses as typed. */
  lemma {:induction false} EnabledMemberSubmitSendsNames(f: FirstMemberFields)
    requires MemberSubmitEnabled(false, f) && 'T' !in f.born
    ensures var n := FirstMember(f);
            n.name != [] && n.surname != [] && Trim(n.name) == n.name && Trim(n.surname) == n.surname
            && ParseDateOnly(n.born) == ParseDateOnly(f.born)
  {
    TrimIdempotent(f.name);
    TrimIdempotent(f.surname);
    AtMidnightRoundTrip(f.born);
  }

  /** The wizard's state. The typed fields of each step are kept together. */
  class CreateTreeModal {
    var step: Step
    var loading: bool
    var error: Option<string>
    var tree: TreeFields
    var amplifyTreeId: Option<string>
    var member: FirstMemberFields

    /** Every field at its initial value. */
    predicate IsInitial()
      reads this
    {
      step == TreeStep && !loading && error.None? && tree == EmptyTreeFields
      && amplifyTreeId.None? && member == EmptyMemberFields
    }

    constructor ()
      ensures IsInitial()
    {
      step, loading, error := TreeStep, false, None;
      tree, amplifyTreeId, member := EmptyTreeFields, None, EmptyMemberFields;
    }

    /** `reset` */
    method Reset()
      modifies this
      ensures IsInitial()
    {
      step := TreeStep;
      loading := false;
      error := None;
      tree := EmptyTreeFields;
      amplifyTreeId := None;
      member := EmptyMemberFields;
    }

    /** Typing into step one or step two. */
    method EditTree(f: TreeFields)
      modifies this
      ensures tree == f
      ensures step == old(step) && loading == old(loading) && error == old(error)
      ensures amplifyTreeId == old(amplifyTreeId) && member == old(member)
    {
      tree := f;
    }

    method EditMember(f: FirstMemberFields)
      modifies this
      ensures member == f
      ensures step == old(step) && loading == old(loading) && error == old(error)
      ensures amplifyTreeId == old(amplifyTreeId) && tree == old(tree)
    {
      member := f;
    }

    /** The part of `handleTreeSubmit` after the request is built: the
        new tree's id is kept and step two shown, or the error is set. */
    method SettleTree(created: Settled<string>)
      modifies this
      ensures !loading && tree == old(tree) && member == old(member)
      ensures created.Fulfilled? ==> amplifyTreeId == Some(created.value) && step == MemberStep && error.None?
      ensures created.Rejected? ==>
                amplifyTreeId == old(amplifyTreeId) && step == old(step)
                && error == Some(MessageOr(created.reason, TreeFailed))
    {
      error := None;
      loading := true;
      if created.Fulfilled? {
        amplifyTreeId := Some(created.value);
        step := MemberStep;
      } else {
        error := Some(MessageOr(created.reason, TreeFailed));
      }
      // the finally block
      loading := false;
    }

    /** `handleTreeSubmit`; `created` is the new tree's id or the failure. */
    method TreeSubmit(created: Settled<string>) returns (request: TreeRecordInput)
      modifies this
      ensures request == TreeRecord(old(tree).treeName, old(tree).treeDescription)
      ensures !loading && tree == old(tree) && member == old(member)
      ensures created.Fulfilled? ==> amplifyTreeId == Some(created.value) && step == MemberStep && error.None?
      ensures created.Rejected? ==>
                amplifyTreeId == old(amplifyTreeId) && step == old(step)
                && error == Some(MessageOr(created.reason, TreeFailed))
    {
      request := TreeRecord(tree.treeName, tree.treeDescription);
      SettleTree(created);
    }

    /** The Back button of step two. */
    method Back()
      modifies this
      ensures step == TreeStep
      ensures amplifyTreeId == old(amplifyTreeId) && loading == old(loading) && error == old(error)
      ensures tree == old(tree) && member == old(member)
    {
      step := TreeStep;
    }

    /** What follows a successful member submit: the `onSuccess` of
        useCreateTree (which runs before `mutateAsync` resolves), the
        dialog's own `setPartitionKey`, and `handleClose`. */
    method Created(qc: QueryClient, holder: PartitionKeyHolder, partitionKey: string)
      modifies this, qc, holder
      ensures IsInitial()
      ensures holder.partitionKey == Some(partitionKey)
      ensures qc.upToDate == Invalidate(old(qc.upToDate), ByKey(TreesKey))
    {
      OnSuccess(qc, holder, CreateTree(partitionKey), None);
      holder.SetPartitionKey(Some(partitionKey));
      Reset();
    }

    /** The part of `handleMemberSubmit` after the tree id check: the tree
        id the page navigates to, if the call succeeds. */
    method SettleMember(qc: QueryClient, holder: PartitionKeyHolder, treeId: string, result: Settled<string>)
      returns (navigateTo: Option<string>)
      modifies this, qc, holder
      ensures !loading
      ensures result.Fulfilled? ==>
                IsInitial() && navigateTo == Some(treeId)
                && holder.partitionKey == Some(result.value)
                && qc.upToDate == Invalidate(old(qc.upToDate), ByKey(TreesKey))
      ensures result.Rejected? ==>
                navigateTo.None? && step == old(step) && amplifyTreeId == old(amplifyTreeId)
                && error == Some(MessageOr(result.reason, MemberFailed))
                && tree == old(tree) && member == old(member)
                && unchanged(qc) && unchanged(holder)
    {
      error := None;
      loading := true;
      if result.Fulfilled? {
        Created(qc, holder, result.value);
        navigateTo := Some(treeId);
      } else {
        error := Some(MessageOr(result.reason, MemberFailed));
        navigateTo := None;
      }
      // the finally block
      loading := false;
    }

    /** `handleMemberSubmit`: the request sent, if any, and the tree id the
        page navigates to on success. `result` is the new partition key or
        the failure of `mutateAsync`. */
    method MemberSubmit(qc: QueryClient, holder: PartitionKeyHolder, result: Settled<string>)
      returns (sent: Option<CreateTreeInput>, navigateTo: Option<string>)
      modifies this, qc, holder
      ensures !Truthy(old(amplifyTreeId)) ==>
                sent.None? && navigateTo.None? && unchanged(this) && unchanged(qc) && unchanged(holder)
      ensures Truthy(old(amplifyTreeId)) ==>
                sent == Some(CreateTreeInput(old(amplifyTreeId).value, FirstMember(old(member)))) && !loading
      ensures Truthy(old(amplifyTreeId)) && result.Fulfilled? ==>
                IsInitial() && navigateTo == old(amplifyTreeId)
                && holder.partitionKey == Some(result.value)
                && qc.upToDate == Invalidate(old(qc.upToDate), ByKey(TreesKey))
      ensures Truthy(old(amplifyTreeId)) && result.Rejected? ==>
                navigateTo.None? && step == old(step) && amplifyTreeId == old(amplifyTreeId)
                && error == Some(MessageOr(result.reason, MemberFailed))
                && tree == old(tree) && member == old(member)
                && unchanged(qc) && unchanged(holder)
    {
      if !Truthy(amplifyTreeId) {
        return None, None;
      }
      var treeId := amplifyTreeId.value;
      sent := Some(CreateTreeInput(treeId, FirstMember(member)));
      navigateTo := SettleMember(qc, holder, treeId, result);
    }
  }
}
