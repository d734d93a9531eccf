/**
 * Display mappings over stored codes: the chip colour for an item's
 * condition and the human-readable age-group and condition labels.
 */
module Labels {
  import opened ItemTypes

  datatype ChipColor = Success | Info | Default

  /** Chip colour for a condition code; unknown codes fall back to the default colour. */
  function StateColor(code: string): (r: ChipColor)
    ensures r == Success <==> code == StateCode(New)
    ensures r == Info <==> code == StateCode(LikeNew)
    ensures r == Default <==> code != StateCode(New) && code != StateCode(LikeNew)
  {
    if code == "new" then Success
    else if code == "like-new" then Info
    else if code == "used" then Default
    else Default
  }

  function AgeGroupLabel(a: AgeGroup): string {
    match a
    case Baby => "Baby (0-12 months)"
    case Toddler => "Toddler (1-3 years)"
    case Preschooler => "Preschooler (3-5 years)"
    case Child => "Child (6+ years)"
  }

  function ConditionLabel(s: ItemState): string {
    match s
    case New => "New (with tags)"
    case LikeNew => "Like New"
    case Used => "Used"
  }

  /** Label for an age-group code: known codes get their label, any other string is returned unchanged. */
  function FormatAgeGroup(code: string): (r: string)
    ensures ParseAgeGroup(code).Some? ==> r == AgeGroupLabel(ParseAgeGroup(code).value)
    ensures ParseAgeGroup(code).None? ==> r == code
  {
    if code == "baby" then "Baby (0-12 months)"
    else if code == "toddler" then "Toddler (1-3 years)"
    else if code == "preschooler" then "Preschooler (3-5 years)"
    else if code == "child" then "Child (6+ years)"
    else code
  }

  /** Label for a condition code: known codes get their label, any other string is returned unchanged. */
  function FormatCondition(code: string): (r: string)
    ensures ParseState(code).Some? ==> r == ConditionLabel(ParseState(code).value)
    ensures ParseState(code).None? ==> r == code
  {
    if code == "new" then "New (with tags)"
    else if code == "like-new" then "Like New"
    else if code == "used" then "Used"
    else code
  }

  /** Distinct age groups and distinct conditions get distinct labels. */
  lemma LabelsDistinct(a1: AgeGroup, a2: AgeGroup, s1: ItemState, s2: ItemState)
    ensures AgeGroupLabel(a1) == AgeGroupLabel(a2) ==> a1 == a2
    ensures ConditionLabel(s1) == ConditionLabel(s2) ==> s1 == s2
  {
  }
}
