/**
 * The task card's badge styling and assignee initials: priority and category
 * are matched after lower-casing, anything unrecognised falls back to gray.
 */
module TaskItem {
  import opened Wrappers
  import opened Text

  /**
   * The priority badge colours. The class strings themselves are opaque: red,
   * yellow and green for the three levels, gray with `text-gray-700` otherwise.
   */
  datatype PriorityBadge = Red | Yellow | Green | Gray

  /** `getPriorityClasses(priority)`, with a missing priority as None. */
  function PriorityClasses(priority: Option<string>): (c: PriorityBadge)
    ensures c == Red <==> priority.Some? && ToLower(priority.value) == "high"
    ensures c == Yellow <==> priority.Some? && ToLower(priority.value) == "medium"
    ensures c == Green <==> priority.Some? && ToLower(priority.value) == "low"
    ensures c == Gray <==> priority.None? || ToLower(priority.value) !in {"high", "medium", "low"}
  {
    match priority
    case None => Gray
    case Some(p) =>
      match ToLower(p)
      case "high" => Red
      case "medium" => Yellow
      case "low" => Green
      case _ => Gray
  }

  /** The priority badge depends only on the priority up to case. */
  lemma PriorityIgnoresCase(a: string, b: string)
    requires EqualsIgnoringCase(a, b)
    ensures PriorityClasses(Some(a)) == PriorityClasses(Some(b))
  {
    ToLowerEqualIff(a, b);
  }

  /** `HIGH`, `High` and `high` all give the red badge, and likewise for the other two levels. */
  lemma PriorityAnyCase(p: string)
    ensures EqualsIgnoringCase(p, "high") ==> PriorityClasses(Some(p)) == Red
    ensures EqualsIgnoringCase(p, "medium") ==> PriorityClasses(Some(p)) == Yellow
    ensures EqualsIgnoringCase(p, "low") ==> PriorityClasses(Some(p)) == Green
  {
    ToLowerEqualIff(p, "high");
    ToLowerEqualIff(p, "medium");
    ToLowerEqualIff(p, "low");
    assert ToLower("high") == "high";
    assert ToLower("medium") == "medium";
    assert ToLower("low") == "low";
  }

  /**
   * The category badge colours, again standing for opaque class strings;
   * `Neutral` is the gray with `text-gray-600`.
   */
  datatype CategoryBadge = Purple | Blue | Indigo | Pink | Teal | Orange | Neutral

  /** The lower-cased names of the six categories with their own colour. */
  const KnownCategories: seq<string> := ["design", "development", "documentation", "qa", "deployment", "ux research"]

  function BadgeForKey(key: string): CategoryBadge {
    match key
    case "design" => Purple
    case "development" => Blue
    case "documentation" => Indigo
    case "qa" => Pink
    case "deployment" => Teal
    case "ux research" => Orange
    case _ => Neutral
  }

  /** `getCategoryClasses(category)`: a missing or empty category is gray before any matching. */
  function CategoryClasses(category: Option<string>): (c: CategoryBadge)
    ensures category.None? || category.value == "" ==> c == Neutral
    ensures category.Some? && ToLower(category.value) !in KnownCategories ==> c == Neutral
    ensures category.Some? && ToLower(category.value) in KnownCategories ==>
              c == BadgeForKey(ToLower(category.value)) && c != Neutral
  {
    if category.None? || category.value == "" then Neutral
    else BadgeForKey(ToLower(category.value))
  }

  /** The six known categories get six different badges, none of them the fallback. */
  lemma CategoryBadgesDistinct(i: nat, j: nat)
    requires i < j < |KnownCategories|
    ensures BadgeForKey(KnownCategories[i]) != BadgeForKey(KnownCategories[j])
    ensures BadgeForKey(KnownCategories[i]) != Neutral
    ensures BadgeForKey(KnownCategories[j]) != Neutral
  {
  }

  /** A missing category, an empty one and an unknown one look the same. */
  lemma MissingLikeUnknown(unknown: string)
    requires ToLower(unknown) !in KnownCategories
    ensures CategoryClasses(None) == CategoryClasses(Some("")) == CategoryClasses(Some(unknown))
  {
  }

  /** The category badge depends only on the category up to case. */
  lemma CategoryIgnoresCase(a: string, b: string)
    requires EqualsIgnoringCase(a, b)
    ensures CategoryClasses(Some(a)) == CategoryClasses(Some(b))
  {
    ToLowerEqualIff(a, b);
  }

  /** The assignee's initials: the first two characters of a non-empty name, upper-cased; None stands for the placeholder icon. */
  function Initials(name: Option<string>): (r: Option<string>)
    ensures r.None? <==> name.None? || name.value == ""
    ensures r.Some? ==>
              && |r.value| == (if |name.value| < 2 then |name.value| else 2)
              && forall i :: 0 <= i < |r.value| ==> r.value[i] == UpperChar(name.value[i])
  {
    match name
    case None => None
    case Some(n) =>
      if n == "" then None
      else Some(ToUpper(n[..if |n| < 2 then |n| else 2]))
  }
}
