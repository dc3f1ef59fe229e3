/**
 * The block's library: the grouping, sort, view, paging and category-display
 * constants and the table of user preferences the block declares, with the
 * default and the allowed choices of each.
 */
module Lib {
  import opened Wrappers

  /** The eight course groupings a user can select. */
  datatype Grouping =
    | AllIncludingHidden
    | All
    | InProgress
    | Future
    | Past
    | Favourites
    | Hidden
    | CustomField

  /** The string each grouping is stored and exported as. */
  function GroupingName(g: Grouping): string
  {
    match g
    case AllIncludingHidden => "allincludinghidden"
    case All => "all"
    case InProgress => "inprogress"
    case Future => "future"
    case Past => "past"
    case Favourites => "favourites"
    case Hidden => "hidden"
    case CustomField => "customfield"
  }

  /** The grouping a stored string names, if any. */
  function ParseGrouping(s: string): (r: Option<Grouping>)
    ensures r.Some? ==> GroupingName(r.value) == s
    ensures forall g :: GroupingName(g) == s ==> r == Some(g)
  {
    if s == "allincludinghidden" then Some(AllIncludingHidden)
    else if s == "all" then Some(All)
    else if s == "inprogress" then Some(InProgress)
    else if s == "future" then Some(Future)
    else if s == "past" then Some(Past)
    else if s == "favourites" then Some(Favourites)
    else if s == "hidden" then Some(Hidden)
    else if s == "customfield" then Some(CustomField)
    else None
  }

  /** The groupings in the order the preference table lists them. */
  const GroupingChoices: seq<Grouping> :=
    [AllIncludingHidden, All, InProgress, Future, Past, Favourites, Hidden, CustomField]

  /** Selects the courses that have no value for the custom field. */
  const CustomFieldEmpty: int := -1

  const SortTitle: string := "title"
  const SortLastAccessed: string := "lastaccessed"
  const SortShortName: string := "shortname"

  const ViewCard: string := "card"
  const ViewList: string := "list"
  const ViewSummary: string := "summary"

  const Paging12: int := 12
  const Paging24: int := 24
  const Paging48: int := 48
  const Paging96: int := 96
  /** A page size of 0 means "show all courses". */
  const PagingAll: int := 0

  const DisplayCategoriesOn: string := "on"
  const DisplayCategoriesOff: string := "off"

  /** The value kinds of the preference table: PHP strings, integers and null. */
  datatype PrefValue = Text(s: string) | Number(n: int) | NullValue

  datatype ParamType = ParamAlpha | ParamRaw | ParamInt

  /**
   * One entry of the preference table. `choices` is None where the entry
   * lists none (any value of the type is accepted). Every entry of the table
   * restricts its permission to the current user.
   */
  datatype PreferenceDefinition = PreferenceDefinition(
    isRegex: bool,
    nullAllowed: bool,
    default: PrefValue,
    paramType: ParamType,
    choices: Option<seq<PrefValue>>)

  const GroupingPreference: string := "block_myoverviewcustom_user_grouping_preference"
  const CustomFieldValuePreference: string := "block_myoverviewcustom_user_grouping_customfieldvalue_preference"
  const SortPreference: string := "block_myoverviewcustom_user_sort_preference"
  const ViewPreference: string := "block_myoverviewcustom_user_view_preference"
  const HiddenCoursePreferencePattern: string := "/^block_myoverviewcustom_hidden_course_(\\d)+$/"
  const PagingPreference: string := "block_myoverviewcustom_user_paging_preference"

  /** The texts of the given strings, in order. */
  function Texts(ss: seq<string>): (r: seq<PrefValue>)
    ensures |r| == |ss|
    ensures forall i :: 0 <= i < |ss| ==> r[i] == Text(ss[i])
  {
    seq(|ss|, i requires 0 <= i < |ss| => Text(ss[i]))
  }

  function GroupingNames(gs: seq<Grouping>): (r: seq<string>)
    ensures |r| == |gs|
    ensures forall i :: 0 <= i < |gs| ==> r[i] == GroupingName(gs[i])
  {
    seq(|gs|, i requires 0 <= i < |gs| => GroupingName(gs[i]))
  }

  /** The table of user preferences the block declares, keyed by preference name. */
  function UserPreferences(): map<string, PreferenceDefinition>
  {
    map[
      GroupingPreference := PreferenceDefinition(
        false, false, Text(GroupingName(All)), ParamAlpha,
        Some(Texts(GroupingNames(GroupingChoices)))),
      CustomFieldValuePreference := PreferenceDefinition(
        false, true, NullValue, ParamRaw, None),
      SortPreference := PreferenceDefinition(
        false, false, Text(SortLastAccessed), ParamAlpha,
        Some([Text(SortTitle), Text(SortLastAccessed), Text(SortShortName)])),
      ViewPreference := PreferenceDefinition(
        false, false, Text(ViewCard), ParamAlpha,
        Some([Text(ViewCard), Text(ViewList), Text(ViewSummary)])),
      HiddenCoursePreferencePattern := PreferenceDefinition(
        true, false, Number(0), ParamInt,
        Some([Number(0), Number(1)])),
      PagingPreference := PreferenceDefinition(
        false, false, Number(Paging12), ParamInt,
        Some([Number(Paging12), Number(Paging24), Number(Paging48), Number(Paging96), Number(PagingAll)]))
    ]
  }

  /** A value the definition admits: one of its choices, or null where null is allowed. */
  predicate Admits(def: PreferenceDefinition, v: PrefValue)
  {
    if v == NullValue then def.nullAllowed
    else match def.choices
      case Some(cs) => v in cs
      case None => true
  }

  /** Every entry's default is a value that entry admits. */
  lemma DefaultsAdmitted()
    ensures forall k :: k in UserPreferences() ==>
      Admits(UserPreferences()[k], UserPreferences()[k].default)
  {
    var t := UserPreferences();
    assert Text(GroupingName(All)) == Texts(GroupingNames(GroupingChoices))[1];
  }

  /** The grouping preference admits exactly the eight grouping names, each once, defaulting to "all". */
  lemma {:induction false} GroupingPreferenceChoices()
    ensures UserPreferences()[GroupingPreference].default == Text("all")
    ensures UserPreferences()[GroupingPreference].choices.Some?
    ensures var cs := UserPreferences()[GroupingPreference].choices.value;
      && |cs| == 8
      && (forall i, j :: 0 <= i < j < |cs| ==> cs[i] != cs[j])
      && (forall v :: v in cs <==> exists g :: v == Text(GroupingName(g)))
  {
    var cs := UserPreferences()[GroupingPreference].choices.value;
    assert cs == Texts(GroupingNames(GroupingChoices));
    forall i, j | 0 <= i < j < |cs| ensures cs[i] != cs[j] {
      if cs[i] == cs[j] {
        GroupingNameInjective(GroupingChoices[i], GroupingChoices[j]);
      }
    }
    forall v ensures v in cs <==> exists g :: v == Text(GroupingName(g)) {
      if v in cs {
        var i :| 0 <= i < |cs| && cs[i] == v;
        assert v == Text(GroupingName(GroupingChoices[i]));
      }
      if g :| v == Text(GroupingName(g)) {
        var i := match g
          case AllIncludingHidden => 0 case All => 1 case InProgress => 2 case Future => 3
          case Past => 4 case Favourites => 5 case Hidden => 6 case CustomField => 7;
        assert cs[i] == v;
      }
    }
  }

  /** The eight grouping constants are pairwise distinct. */
  lemma GroupingNameInjective(a: Grouping, b: Grouping)
    requires GroupingName(a) == GroupingName(b)
    ensures a == b
  {
    assert ParseGrouping(GroupingName(a)) == Some(a);
  }

  /** Sort admits title, lastaccessed and shortname, defaulting to lastaccessed; view admits card, list and summary, defaulting to card. */
  lemma SortAndViewChoices()
    ensures UserPreferences()[SortPreference].default == Text("lastaccessed")
    ensures UserPreferences()[SortPreference].choices
      == Some([Text("title"), Text("lastaccessed"), Text("shortname")])
    ensures UserPreferences()[ViewPreference].default == Text("card")
    ensures UserPreferences()[ViewPreference].choices
      == Some([Text("card"), Text("list"), Text("summary")])
  {
  }

  /** Paging admits 12, 24, 48, 96 and 0 (all courses), defaulting to 12. */
  lemma PagingChoices()
    ensures UserPreferences()[PagingPreference].default == Number(12)
    ensures UserPreferences()[PagingPreference].choices
      == Some([Number(12), Number(24), Number(48), Number(96), Number(0)])
  {
  }

  /** The hidden-course entry is a pattern entry whose values are 0 or 1, defaulting to 0. */
  lemma HiddenCourseChoices()
    ensures var def := UserPreferences()[HiddenCoursePreferencePattern];
      && def.isRegex && !def.nullAllowed
      && def.default == Number(0)
      && (forall v :: Admits(def, v) <==> v == Number(0) || v == Number(1))
  {
  }

  const HiddenCoursePrefix: string := "block_myoverviewcustom_hidden_course_"

  predicate IsDigit(c: char) {
    '0' <= c <= '9'
  }

  predicate AllDigits(s: string) {
    forall i :: 0 <= i < |s| ==> IsDigit(s[i])
  }

  /**
   * The names the pattern `^block_myoverviewcustom_hidden_course_(\d)+$`
   * matches: the prefix, one or more digits, and (because `$` without the D
   * modifier also matches before a final newline) optionally one "\n".
   */
  predicate MatchesHiddenCoursePattern(name: string)
  {
    && |name| > |HiddenCoursePrefix|
    && name[..|HiddenCoursePrefix|] == HiddenCoursePrefix
    && var rest := name[|HiddenCoursePrefix|..];
       || AllDigits(rest)
       || (|rest| >= 2 && rest[|rest| - 1] == '\n' && AllDigits(rest[..|rest| - 1]))
  }

  /** The decimal digits of `n`, most significant first, without leading zeros. */
  function DecimalDigits(n: nat): (r: string)
    ensures |r| >= 1 && AllDigits(r)
    decreases n
  {
    if n < 10 then [('0' as int + n) as char]
    else DecimalDigits(n / 10) + [('0' as int + n % 10) as char]
  }

  /** The value of a string of decimal digits. */
  function DecimalValue(s: string): nat
    requires AllDigits(s)
  {
    if s == [] then 0
    else 10 * DecimalValue(s[..|s| - 1]) + (s[|s| - 1] as int - '0' as int)
  }

  lemma {:induction false} DecimalRoundTrip(n: nat)
    ensures DecimalValue(DecimalDigits(n)) == n
    decreases n
  {
    if n >= 10 {
      DecimalRoundTrip(n / 10);
      var s := DecimalDigits(n);
      assert s[..|s| - 1] == DecimalDigits(n / 10);
    }
  }

  /** The preference name that records whether course `courseid` is hidden. */
  function HiddenCoursePreferenceName(courseid: nat): string
  {
    HiddenCoursePrefix + DecimalDigits(courseid)
  }

  /** Every course's hidden-flag name is matched by the table's pattern and names that course. */
  lemma HiddenCourseNameMatches(courseid: nat)
    ensures MatchesHiddenCoursePattern(HiddenCoursePreferenceName(courseid))
    ensures var rest := HiddenCoursePreferenceName(courseid)[|HiddenCoursePrefix|..];
      AllDigits(rest) && DecimalValue(rest) == courseid
  {
    var name := HiddenCoursePreferenceName(courseid);
    assert name[..|HiddenCoursePrefix|] == HiddenCoursePrefix;
    assert name[|HiddenCoursePrefix|..] == DecimalDigits(courseid);
    DecimalRoundTrip(courseid);
  }
}
