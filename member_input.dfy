/** How the member forms (src/components/tree/MemberFormModal.tsx,
    src/components/tree/MarriageEditModal.tsx,
    src/components/dashboard/CreateTreeModal.tsx) turn what was typed into
    request fields: dates from a date input get a midnight-UTC time part,
    names are trimmed, a blank description gets a default text. */
module MemberInput {
  import opened Types
  import opened Text
  import opened DateOnly

  const MidnightUtc := "T00:00:00Z"
  const DefaultDescription := "No description provided."
  const PlaceholderUrl := "https://placehold.co/400"

  /** `${date}T00:00:00Z` */
  function AtMidnight(date: string): string
  {
    date + MidnightUtc
  }

  /** `date ? `${date}T00:00:00Z` : undefined` (or null) */
  function OptionalAtMidnight(date: string): (r: Option<string>)
    ensures r.None? <==> date == []
  {
    if date != [] then Some(AtMidnight(date)) else None
  }

  /** A date typed into a date input (no 'T') keeps its meaning: the stored
      string parses to the same date, and splitting it at 'T' gives the typed
      text back. */
  lemma AtMidnightRoundTrip(date: string)
    requires 'T' !in date
    ensures BeforeFirst(AtMidnight(date), 'T') == date
    ensures ParseDateOnly(AtMidnight(date)) == ParseDateOnly(date)
  {
    assert AtMidnight(date) == date + "T" + "00:00:00Z";
    BeforeFirstOfJoin(date, 'T', "00:00:00Z");
    assert date + "T" + "00:00:00Z" == date + ['T'] + "00:00:00Z";
    ParseIgnoresTimePart(date, "00:00:00Z");
  }

  /** `description.trim() || 'No description provided.'`: never empty, the
      trimmed text when there is any. */
  function DescriptionOrDefault(description: string): (r: string)
    ensures r != []
    ensures IsBlank(description) ==> r == DefaultDescription
    ensures !IsBlank(description) ==> r == Trim(description) && !IsWhitespace(r[0]) && !IsWhitespace(r[|r| - 1])
  {
    TrimEmptyIffBlank(description);
    TrimEndsNotWhitespace(description);
    var t := Trim(description);
    if t != [] then t else DefaultDescription
  }

  /** The member part of every create request built from a form. */
  function NewMember(name: string, surname: string, gender: Gender, description: string,
                     born: string, died: string): CreateMemberInput
  {
    CreateMemberInput(Trim(name), Trim(surname), gender, DescriptionOrDefault(description),
                      AtMidnight(born), OptionalAtMidnight(died), PlaceholderUrl, PlaceholderUrl)
  }
}
