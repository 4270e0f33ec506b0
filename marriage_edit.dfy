/** The marriage-details dialog (src/components/tree/MarriageEditModal.tsx):
    which of the two spouses is sent as husband and which as wife, the
    request a save sends, and the dialog's own state. How the spouse-update
    mutation settles is an input. */
module MarriageEdit {
  import opened Types
  import opened Text
  import opened MemberInput

  const MissingInformation := "Missing required information"
  const UpdateFailed := "Failed to update marriage details"

  /** `member1?.gender === 'male' ? member1 : member2`: a member not loaded
      yet is None. */
  function Husband(member1: Option<Member>, member2: Option<Member>): Option<Member>
  {
    if member1.Some? && member1.value.gender == Male then member1 else member2
  }

  /** `member1?.gender === 'female' ? member1 : member2` */
  function Wife(member1: Option<Member>, member2: Option<Member>): Option<Member>
  {
    if member1.Some? && member1.value.gender == Female then member1 else member2
  }

  /** `x?.id || fallbackId || ''` */
  function IdOr(x: Option<Member>, fallbackId: Option<string>): string
  {
    if x.Some? && x.value.id != [] then x.value.id
    else if Truthy(fallbackId) then fallbackId.value
    else []
  }

  function HusbandId(member1: Option<Member>, member2: Option<Member>, member1Id: Option<string>): string
  {
    IdOr(Husband(member1, member2), member1Id)
  }

  function WifeId(member1: Option<Member>, member2: Option<Member>, member2Id: Option<string>): string
  {
    IdOr(Wife(member1, member2), member2Id)
  }

  /** For a man and a woman the husband is the man and the wife the woman,
      whichever of them is member1. */
  lemma OppositeGendersResolveByGender(a: Member, b: Member)
    requires a.gender != b.gender
    ensures Husband(Some(a), Some(b)) == Husband(Some(b), Some(a))
    ensures Wife(Some(a), Some(b)) == Wife(Some(b), Some(a))
    ensures Husband(Some(a), Some(b)).value.gender == Male
    ensures Wife(Some(a), Some(b)).value.gender == Female
  {
  }

  /** Two men: member1 is the husband. Two women: member2 is the husband and
      member1 the wife, the opposite of the comment at lines 49-50 of the
      dialog. */
  lemma SameGenderResolution(a: Member, b: Member)
    requires a.gender == b.gender
    ensures a.gender == Male ==> Husband(Some(a), Some(b)) == Some(a) && Wife(Some(a), Some(b)) == Some(b)
    ensures a.gender == Female ==> Husband(Some(a), Some(b)) == Some(b) && Wife(Some(a), Some(b)) == Some(a)
  {
  }

  /** Once both members are loaded, one of them is sent as husband and the
      other as wife. */
  lemma {:induction false} LoadedPairIsSplit(a: Member, b: Member)
    ensures Husband(Some(a), Some(b)).Some? && Wife(Some(a), Some(b)).Some?
    ensures multiset{Husband(Some(a), Some(b)).value, Wife(Some(a), Some(b)).value} == multiset{a, b}
  {
    if a.gender == Male {
      assert Husband(Some(a), Some(b)).value == a && Wife(Some(a), Some(b)).value == b;
    } else {
      assert Husband(Some(a), Some(b)).value == b && Wife(Some(a), Some(b)).value == a;
      assert multiset{b, a} == multiset{a, b};
    }
  }

  /** The request a save sends. */
  function SpouseRequest(husbandId: string, wifeId: string, married: string, divorced: string): UpdateSpouseRelationInput
  {
    UpdateSpouseRelationInput(husbandId, wifeId, AtMidnight(married), OptionalAtMidnight(divorced))
  }

  /** The fields the open effect fills from the stored dates: the text before
      'T', and '' for a missing divorce date. */
  function InitialDates(currentMarried: string, currentDivorced: Option<string>): (string, string)
  {
    (BeforeFirst(currentMarried, 'T'),
     if Truthy(currentDivorced) then BeforeFirst(currentDivorced.value, 'T') else [])
  }

  /** Stored dates of the form date + 'T00:00:00Z' are sent back unchanged by
      a save without edits. */
  lemma {:induction false} UneditedSaveRoundTrip(husbandId: string, wifeId: string, married: string,
                                                 divorcedDate: string, currentDivorced: Option<string>)
    requires 'T' !in married && 'T' !in divorcedDate
    requires currentDivorced.None? || (divorcedDate != [] && currentDivorced == Some(AtMidnight(divorcedDate)))
    ensures var dates := InitialDates(AtMidnight(married), currentDivorced);
            SpouseRequest(husbandId, wifeId, dates.0, dates.1) ==
              UpdateSpouseRelationInput(husbandId, wifeId, AtMidnight(married), currentDivorced)
  {
    var dates := InitialDates(AtMidnight(married), currentDivorced);
    AtMidnightRoundTrip(married);
    assert dates.0 == married;
    if currentDivorced.Some? {
      AtMidnightRoundTrip(divorcedDate);
      assert AtMidnight(divorcedDate) != [];
      assert dates.1 == divorcedDate;
    } else {
      assert dates.1 == [];
    }
  }

  /** The dialog's state. */
  class MarriageEditModal {
    var married: string
    var divorced: string
    var loading: bool
    var error: Option<string>

    constructor ()
      ensures married == [] && divorced == [] && !loading && error.None?
    {
      married, divorced, loading, error := [], [], false, None;
    }

    /** The effect that fills the form when the dialog opens on a stored
        marriage date. */
    method Initialize(open: bool, currentMarried: string, currentDivorced: Option<string>)
      modifies this
      ensures open && currentMarried != [] ==> (married, divorced) == InitialDates(currentMarried, currentDivorced)
      ensures !(open && currentMarried != []) ==> married == old(married) && divorced == old(divorced)
      ensures loading == old(loading) && error == old(error)
    {
      if open && currentMarried != [] {
        married := BeforeFirst(currentMarried, 'T');
        divorced := if Truthy(currentDivorced) then BeforeFirst(currentDivorced.value, 'T') else [];
      }
    }

    /** Save is enabled while not saving and a marriage date is set. */
    predicate SaveEnabled()
      reads this
    {
      !loading && married != []
    }

    /** `handleClose` as the Escape key triggers it: ignored while saving. */
    method Escape() returns (closed: bool)
      modifies this
      ensures closed <==> !old(loading)
      ensures married == old(married) && divorced == old(divorced)
      ensures closed ==> error.None? && !loading
      ensures !closed ==> error == old(error) && loading == old(loading)
    {
      closed := false;
      if !loading {
        error := None;
        loading := false;
        closed := true;
      }
    }

    /** `handleSubmit`: the request sent, if any, and whether the dialog
        closed. */
    method HandleSubmit(pk: Option<string>, member1: Option<Member>, member2: Option<Member>,
                        member1Id: Option<string>, member2Id: Option<string>, outcome: Settled<()>)
      returns (sent: Option<UpdateSpouseRelationInput>, closed: bool)
      modifies this
      ensures married == old(married) && divorced == old(divorced)
      ensures var h := HusbandId(member1, member2, member1Id);
              var w := WifeId(member1, member2, member2Id);
              if !Truthy(pk) || h == [] || w == [] then
                sent.None? && !closed && error == Some(MissingInformation) && loading == old(loading)
              else
                sent == Some(SpouseRequest(h, w, old(married), old(divorced))) && !loading
                && (outcome.Fulfilled? ==> closed && error.None?)
                && (outcome.Rejected? ==> !closed && error == Some(MessageOr(outcome.reason, UpdateFailed)))
    {
      var husbandId := HusbandId(member1, member2, member1Id);
      var wifeId := WifeId(member1, member2, member2Id);
      if !Truthy(pk) || husbandId == [] || wifeId == [] {
        error := Some(MissingInformation);
        return None, false;
      }
      error := None;
      loading := true;
      sent := Some(UpdateSpouseRelationInput(husbandId, wifeId, AtMidnight(married), OptionalAtMidnight(divorced)));
      if outcome.Fulfilled? {
        // handleClose
        error := None;
        loading := false;
        closed := true;
      } else {
        error := Some(MessageOr(outcome.reason, UpdateFailed));
        closed := false;
      }
      // the finally block
      loading := false;
    }
  }
}
