/** The field rules the validating variants of the Todo store apply to a
    single todo: the title and description bounds. */
module Rules {
  import opened Outcomes
  import opened JavaString

  /** Both bounds are on `String.length()`, in UTF-16 code units. */
  const MaxTitleLength := 200
  const MaxDescriptionLength := 1000

  /** `s == null || s.trim().isEmpty()`, the emptiness test of the
      transaction script and the clean entity, stated through AllTrimmable
      (JavaString.TrimEmptyIff shows the two agree). */
  predicate NullOrTrimsEmpty(s: Nullable<string>) {
    s.Null? || AllTrimmable(s.value)
  }

  /** The predicate is exactly Java's `s == null || s.trim().isEmpty()`. */
  lemma NullOrTrimsEmptyIsTrimTest(s: Nullable<string>)
    ensures NullOrTrimsEmpty(s) <==> s.Null? || Trim(s.value) == []
  {
    if s.Some? {
      TrimEmptyIff(s.value);
    }
  }

  /** Title rule of the transaction script and the clean entity: not null,
      not empty after trim(), at most 200 UTF-16 code units. */
  predicate TrimmedTitleOk(title: Nullable<string>) {
    !NullOrTrimsEmpty(title) && Utf16Length(title.value) <= MaxTitleLength
  }

  /** Title rule of the DDD value object TodoTitle: not null, not blank
      (isBlank()), at most 200 UTF-16 code units. */
  predicate BlankTitleOk(title: Nullable<string>) {
    title.Some? && !IsBlank(title.value) && Utf16Length(title.value) <= MaxTitleLength
  }

  /** Description rule of every validating variant: absent, or at most 1000
      UTF-16 code units. */
  predicate DescriptionOk(description: Nullable<string>) {
    description.Null? || Utf16Length(description.value) <= MaxDescriptionLength
  }

  /** The variants' title rules accept different titles: an ideographic
      space passes the trim() rule only, a U+0001 the isBlank() rule only. */
  lemma TitleRulesDiffer()
    ensures TrimmedTitleOk(Some("\U{3000}")) && !BlankTitleOk(Some("\U{3000}"))
    ensures BlankTitleOk(Some("\U{1}")) && !TrimmedTitleOk(Some("\U{1}"))
  {
    TrimAndBlankDiffer();
  }

  /** The bounds count code units, not characters: a title of 101 to 200
      characters beyond U+FFFF (emoji, say) is within 200 characters but
      over 200 code units, so both title rules refuse it. */
  lemma SupplementaryTitleTooLong(s: string)
    requires 100 < |s| <= MaxTitleLength
    requires forall i :: 0 <= i < |s| ==> s[i] > '\U{FFFF}'
    ensures !TrimmedTitleOk(Some(s)) && !BlankTitleOk(Some(s))
  {
    Utf16LengthSupplementary(s);
  }
}
