/** The member search box of the tree page
    (src/components/tree/MemberSearch.tsx): a case-insensitive substring
    filter over "name surname", and the query / list-open state the input,
    the clear button and the result buttons change. */
module MemberSearch {
  import opened Types
  import opened Text

  /** The text a member is searched by. */
  function FullName(m: Member): string
  {
    m.name + " " + m.surname
  }

  /** The filter callback: the lower-cased full name contains the lower-cased
      query, which is not trimmed. */
  predicate Matches(m: Member, query: string)
  {
    Includes(Lower(FullName(m)), Lower(query))
  }

  /** `members.filter(m => Matches(m, query))` */
  function Select(members: seq<Member>, query: string): (r: seq<Member>)
    ensures |r| <= |members|
    ensures forall m :: m in r <==> m in members && Matches(m, query)
  {
    if members == [] then []
    else if Matches(members[0], query) then [members[0]] + Select(members[1..], query)
    else Select(members[1..], query)
  }

  /** The `filtered` list: nothing for a blank query. */
  function Filtered(members: seq<Member>, query: string): seq<Member>
  {
    if Trim(query) != [] then Select(members, query) else []
  }

  /** The filter keeps input order: filtering a concatenation filters each
      part. */
  lemma {:induction false} SelectAppend(a: seq<Member>, b: seq<Member>, query: string)
    ensures Select(a + b, query) == Select(a, query) + Select(b, query)
    decreases |a|
  {
    if a == [] {
      assert a + b == b;
    } else {
      assert (a + b)[0] == a[0];
      assert (a + b)[1..] == a[1..] + b;
      SelectAppend(a[1..], b, query);
      if Matches(a[0], query) {
        calc {
          Select(a + b, query);
          [a[0]] + Select(a[1..] + b, query);
          [a[0]] + (Select(a[1..], query) + Select(b, query));
          ([a[0]] + Select(a[1..], query)) + Select(b, query);
        }
      } else {
        assert Select(a + b, query) == Select(a[1..] + b, query);
      }
    }
  }

  /** A blank query finds nothing; otherwise the results are exactly the
      matching members, in their input order. */
  lemma {:induction false} FilteredSpec(members: seq<Member>, query: string)
    ensures IsBlank(query) ==> Filtered(members, query) == []
    ensures !IsBlank(query) ==> Filtered(members, query) == Select(members, query)
    ensures forall m :: m in Filtered(members, query) <==> !IsBlank(query) && m in members && Matches(m, query)
  {
    TrimEmptyIffBlank(query);
  }

  /** Lower-casing keeps whitespace whitespace and everything else not. */
  lemma LowerKeepsBlankness(s: string)
    ensures IsBlank(Lower(s)) <==> IsBlank(s)
  {
    assert forall i :: 0 <= i < |s| ==> (IsWhitespace(Lower(s)[i]) <==> IsWhitespace(s[i]));
  }

  /** Queries that differ only in letter case find the same members. */
  lemma {:induction false} QueryCaseDoesNotMatter(members: seq<Member>, q1: string, q2: string)
    requires Lower(q1) == Lower(q2)
    ensures Filtered(members, q1) == Filtered(members, q2)
  {
    LowerKeepsBlankness(q1);
    LowerKeepsBlankness(q2);
    FilteredSpec(members, q1);
    FilteredSpec(members, q2);
    SelectSameMatches(members, q1, q2);
  }

  lemma {:induction false} SelectSameMatches(members: seq<Member>, q1: string, q2: string)
    requires forall m :: Matches(m, q1) == Matches(m, q2)
    ensures Select(members, q1) == Select(members, q2)
    decreases |members|
  {
    if members != [] {
      SelectSameMatches(members[1..], q1, q2);
    }
  }

  /** Names that differ only in letter case are found by the same queries. */
  lemma NameCaseDoesNotMatter(m1: Member, m2: Member, query: string)
    requires Lower(FullName(m1)) == Lower(FullName(m2))
    ensures Matches(m1, query) == Matches(m2, query)
  {
  }

  /** A string without capitals is its own lower case. */
  lemma LowerOfLowerCase(s: string)
    requires forall i :: 0 <= i < |s| ==> !('A' <= s[i] <= 'Z')
    ensures Lower(s) == s
  {
  }

  /** Filtering a single member. */
  lemma FilterOne(m: Member, query: string)
    ensures Filtered([m], query) == if Trim(query) != [] && Matches(m, query) then [m] else []
  {
    assert [m][1..] == [];
  }

  /** The substring step of the example below. */
  lemma LeadingSpaceNotInName()
    ensures !Includes("ann lee", " ann")
  {
    var name, query := "ann lee", " ann";
    IncludesIffOccurs(name, query);
    assert name[0] == 'a' && name[1] == 'n' && name[2] == 'n' && name[4] == 'l';
    forall i | 0 <= i <= 3
      ensures !OccursAt(name, query, i)
    {
      if i < 3 {
        assert name[i..i + 4][0] == name[i] != ' ';
      } else {
        assert name[i..i + 4][1] == name[4] != 'a';
      }
    }
  }

  /** An instance of `FilteredSpec`, which is the general statement: the
      query is trimmed only to decide whether to search, so " ann" is not
      blank, yet its leading space must occur in the name, and it does not
      find "ann lee" while "ann" does. */
  lemma {:induction false} UntrimmedQueryExample(m: Member)
    requires m.name == "ann" && m.surname == "lee"
    ensures Filtered([m], "ann") == [m]
    ensures Filtered([m], " ann") == []
  {
    assert Matches(m, "ann") && !Matches(m, " ann") by {
      assert FullName(m) == "ann lee";
      LowerOfLowerCase("ann lee");
      LowerOfLowerCase("ann");
      LowerOfLowerCase(" ann");
      assert IsPrefix("ann", "ann lee");
      LeadingSpaceNotInName();
    }
    assert Trim("ann") != [] && Trim(" ann") != [] by {
      TrimOfTrimmed("ann");
      TrimEmptyIffBlank(" ann");
      assert !IsWhitespace(" ann"[1]);
    }
    FilterOne(m, "ann");
    FilterOne(m, " ann");
  }

  /** The search box's own state. */
  class SearchBox {
    var query: string
    var isOpen: bool

    constructor ()
      ensures query == [] && !isOpen
    {
      query := [];
      isOpen := false;
    }

    /** The result list is shown. */
    predicate ShowsList(members: seq<Member>)
      reads this
    {
      isOpen && |Filtered(members, query)| > 0
    }

    /** "No members found" is shown. */
    predicate ShowsNoMembersFound(members: seq<Member>)
      reads this
    {
      isOpen && Trim(query) != [] && |Filtered(members, query)| == 0
    }

    /** Typing replaces the query and opens the list. */
    method Type(text: string)
      modifies this
      ensures query == text && isOpen
    {
      query := text;
      isOpen := true;
    }

    method Focus()
      modifies this
      ensures query == old(query) && isOpen
    {
      isOpen := true;
    }

    /** A mouse-down outside the box closes the list. */
    method OutsideClick()
      modifies this
      ensures query == old(query) && !isOpen
    {
      isOpen := false;
    }

    /** The clear button, shown while the query is non-empty. */
    method ClearQuery()
      requires query != []
      modifies this
      ensures query == [] && !isOpen
    {
      query := [];
      isOpen := false;
    }

    /** Choosing the `i`-th listed member reports its id, then empties the
        query and closes the list. */
    method SelectResult(members: seq<Member>, i: nat) returns (selectedId: string)
      requires ShowsList(members) && i < |Filtered(members, query)|
      modifies this
      ensures selectedId == Filtered(members, old(query))[i].id
      ensures query == [] && !isOpen
    {
      selectedId := Filtered(members, query)[i].id;
      query := [];
      isOpen := false;
    }
  }

  /** What the box shows: the list and the "No members found" note never
      appear together; the note appears exactly when the list is open, the
      query is not blank and no member matches; and every listed member
      matches. */
  lemma {:induction false} DisplayIsConsistent(box: SearchBox, members: seq<Member>)
    ensures !(box.ShowsList(members) && box.ShowsNoMembersFound(members))
    ensures box.ShowsNoMembersFound(members) <==>
              box.isOpen && !IsBlank(box.query) && forall m :: m in members ==> !Matches(m, box.query)
    ensures box.ShowsList(members) ==> forall m :: m in Filtered(members, box.query) ==> Matches(m, box.query)
  {
    TrimEmptyIffBlank(box.query);
    FilteredSpec(members, box.query);
    var r := Filtered(members, box.query);
    if |r| > 0 {
      assert r[0] in r;
    }
  }
}
