/**
 * The block's main renderable: it resolves the user's stored grouping, sort,
 * view and paging preferences against the admin configuration and exports
 * the result as the context of the block's template.
 */
module Output {
  import opened Wrappers
  import opened Strings
  import opened Lib

  /**
   * The block's admin configuration. Each `displaygrouping…` flag is the
   * truth value of the stored setting (PHP's `== true` and truthiness agree on
   * the stored strings); an absent setting reads as false. `layouts` is the
   * comma-separated layouts setting, "" when it is unset.
   */
  datatype Config = Config(
    displaygroupingallincludinghidden: bool,
    displaygroupingall: bool,
    displaygroupinginprogress: bool,
    displaygroupingfuture: bool,
    displaygroupingpast: bool,
    displaygroupingfavourites: bool,
    displaygroupinghidden: bool,
    displaygroupingcustomfield: bool,
    displaycategories: bool,
    customfiltergrouping: string,
    layouts: string)

  /** The setting `displaygrouping<g>` of the configuration. */
  predicate Enabled(config: Config, g: Grouping)
  {
    match g
    case AllIncludingHidden => config.displaygroupingallincludinghidden
    case All => config.displaygroupingall
    case InProgress => config.displaygroupinginprogress
    case Future => config.displaygroupingfuture
    case Past => config.displaygroupingpast
    case Favourites => config.displaygroupingfavourites
    case Hidden => config.displaygroupinghidden
    case CustomField => config.displaygroupingcustomfield
  }

  /** No grouping option is enabled. */
  predicate NoneEnabled(config: Config)
  {
    && !config.displaygroupingallincludinghidden && !config.displaygroupingall
    && !config.displaygroupinginprogress && !config.displaygroupingfuture && !config.displaygroupingpast
    && !config.displaygroupingfavourites && !config.displaygroupinghidden && !config.displaygroupingcustomfield
  }

  /** `NoneEnabled` says that no grouping at all is enabled. */
  lemma NoneEnabledMeansNoGrouping(config: Config)
    ensures NoneEnabled(config) <==> forall h :: !Enabled(config, h)
  {
    if !NoneEnabled(config) {
      var h :=
        if config.displaygroupingallincludinghidden then AllIncludingHidden
        else if config.displaygroupingall then All
        else if config.displaygroupinginprogress then InProgress
        else if config.displaygroupingfuture then Future
        else if config.displaygroupingpast then Past
        else if config.displaygroupingfavourites then Favourites
        else if config.displaygroupinghidden then Hidden
        else CustomField;
      assert Enabled(config, h);
    } else {
      forall h ensures !Enabled(config, h) {
        match h
        case AllIncludingHidden =>
        case All =>
        case InProgress =>
        case Future =>
        case Past =>
        case Favourites =>
        case Hidden =>
        case CustomField =>
      }
    }
  }

  /** The order in which a replacement grouping is looked for. */
  const FallbackOrder: seq<Grouping> :=
    [All, AllIncludingHidden, InProgress, Future, Past, Favourites, Hidden, CustomField]

  /** The position of a grouping in the fallback order. */
  function FallbackRank(g: Grouping): (r: nat)
    ensures r < |FallbackOrder| && FallbackOrder[r] == g
  {
    match g
    case All => 0
    case AllIncludingHidden => 1
    case InProgress => 2
    case Future => 3
    case Past => 4
    case Favourites => 5
    case Hidden => 6
    case CustomField => 7
  }

  /**
   * The grouping used when the stored one is not available: the first
   * enabled grouping in the fallback order, or all-including-hidden when
   * none is enabled.
   */
  function FallbackGrouping(config: Config): (g: Grouping)
    ensures Enabled(config, g) || (NoneEnabled(config) && g == AllIncludingHidden)
  {
    if config.displaygroupingall then All
    else if config.displaygroupingallincludinghidden then AllIncludingHidden
    else if config.displaygroupinginprogress then InProgress
    else if config.displaygroupingfuture then Future
    else if config.displaygroupingpast then Past
    else if config.displaygroupingfavourites then Favourites
    else if config.displaygroupinghidden then Hidden
    else if config.displaygroupingcustomfield then CustomField
    else AllIncludingHidden
  }

  /** The fallback is the first enabled grouping in the fallback order: every grouping before it is disabled. */
  lemma FallbackIsFirstEnabled(config: Config)
    ensures var g := FallbackGrouping(config);
      Enabled(config, g) ==> forall h :: FallbackRank(h) < FallbackRank(g) ==> !Enabled(config, h)
  {
    var g := FallbackGrouping(config);
    forall h | FallbackRank(h) < FallbackRank(g) && Enabled(config, g)
      ensures !Enabled(config, h)
    {
      match h
      case All =>
      case AllIncludingHidden =>
      case InProgress =>
      case Future =>
      case Past =>
      case Favourites =>
      case Hidden =>
      case CustomField =>
    }
  }

  /**
   * The grouping the block starts with: the stored one when it names a
   * grouping the configuration enables, otherwise the fallback.
   */
  function ResolveGrouping(grouping: string, config: Config): (g: Grouping)
    ensures forall h :: ParseGrouping(grouping) == Some(h) && Enabled(config, h) ==> g == h
    ensures Enabled(config, g) || NoneEnabled(config)
    ensures g != FallbackGrouping(config) ==> GroupingName(g) == grouping && Enabled(config, g)
  {
    if Truthy(grouping) && ParseGrouping(grouping).Some? && Enabled(config, ParseGrouping(grouping).value)
    then ParseGrouping(grouping).value
    else FallbackGrouping(config)
  }

  /**
   * The sort the block starts with. A stored sort is kept; without one the
   * site's `courselistshortnames` setting chooses between shortname and
   * title; and shortname is replaced by title when that setting is off.
   */
  function ResolveSort(sort: string, courselistshortnames: bool): (r: string)
    ensures Truthy(r)
    ensures !courselistshortnames ==> r != SortShortName
    ensures Truthy(sort) && (courselistshortnames || sort != SortShortName) ==> r == sort
    ensures !Truthy(sort) ==> r == (if courselistshortnames then SortShortName else SortTitle)
    ensures !courselistshortnames && sort == SortShortName ==> r == SortTitle
  {
    var chosen :=
      if Truthy(sort) then sort
      else if courselistshortnames then SortShortName
      else SortTitle;
    if !courselistshortnames && sort == SortShortName then SortTitle else chosen
  }

  /** Resolving an already resolved sort changes nothing. */
  lemma ResolveSortIdempotent(sort: string, courselistshortnames: bool)
    ensures ResolveSort(ResolveSort(sort, courselistshortnames), courselistshortnames)
      == ResolveSort(sort, courselistshortnames)
  {
  }

  /**
   * The page size the block starts with: a stored 0 means "all" and stays 0;
   * no stored value gives 12; any other stored value is kept.
   */
  function ResolvePaging(paging: Option<int>): (r: int)
    ensures paging == Some(PagingAll) ==> r == PagingAll
    ensures paging == None ==> r == Paging12
    ensures paging.Some? && paging.value != PagingAll ==> r == paging.value
  {
    if paging.Some? && paging.value == PagingAll then PagingAll
    else if paging.Some? then paging.value
    else Paging12
  }

  /** A page size the preference table admits (or none at all) resolves to one it admits, and resolving again changes nothing. */
  lemma ResolvedPagingAdmitted(paging: Option<int>)
    requires paging.None? || Admits(UserPreferences()[PagingPreference], Number(paging.value))
    ensures Admits(UserPreferences()[PagingPreference], Number(ResolvePaging(paging)))
    ensures ResolvePaging(Some(ResolvePaging(paging))) == ResolvePaging(paging)
  {
    PagingChoices();
  }

  /**
   * The layouts the admin made available: the pieces of the layouts setting
   * when it is set, otherwise only the card layout. Never empty.
   */
  function AvailableLayouts(layoutsConfig: string): (layouts: seq<string>)
    ensures |layouts| >= 1
  {
    if Truthy(layoutsConfig) then Split(layoutsConfig, ',') else [ViewCard]
  }

  /**
   * The available layouts are comma-free names that, joined with commas,
   * give back a set layouts setting; an unset setting gives the card layout.
   */
  lemma AvailableLayoutsFromSetting(layoutsConfig: string)
    ensures var layouts := AvailableLayouts(layoutsConfig);
      && (forall i :: 0 <= i < |layouts| ==> ',' !in layouts[i])
      && (Truthy(layoutsConfig) ==> Join(layouts, ',') == layoutsConfig)
      && (!Truthy(layoutsConfig) ==> layouts == [ViewCard])
  {
    if Truthy(layoutsConfig) {
      JoinSplit(layoutsConfig, ',');
    }
  }

  /** The view the block starts with: the stored one, or else the first available layout. */
  function ResolveView(view: string, layouts: seq<string>): (r: string)
    requires |layouts| >= 1
    ensures Truthy(view) ==> r == view
    ensures !Truthy(view) ==> r == layouts[0] && r in layouts
  {
    if Truthy(view) then view else layouts[0]
  }

  /** The view the template shows: the block's view if it is available, otherwise the first available layout. */
  function EffectiveView(view: string, layouts: seq<string>): (r: string)
    requires |layouts| >= 1
    ensures r in layouts
    ensures view in layouts ==> r == view
    ensures view !in layouts ==> r == layouts[0]
  {
    if view in layouts then view else layouts[0]
  }

  /** A resolved view is always shown when the stored view was empty or available. */
  lemma ResolvedViewShown(view: string, layouts: seq<string>)
    requires |layouts| >= 1
    requires !Truthy(view) || view in layouts
    ensures EffectiveView(ResolveView(view, layouts), layouts) == ResolveView(view, layouts)
  {
  }

  /** The number of true entries (PHP's `count(array_filter(...))`). */
  function CountTrue(bs: seq<bool>): (n: nat)
    ensures n <= |bs|
  {
    if bs == [] then 0 else (if bs[0] then 1 else 0) + CountTrue(bs[1..])
  }

  /** At least two distinct entries are true. */
  predicate AtLeastTwo(bs: seq<bool>)
  {
    exists i, j :: 0 <= i < j < |bs| && bs[i] && bs[j]
  }

  /** Some entry is true. */
  predicate AnyTrue(bs: seq<bool>)
  {
    exists i :: 0 <= i < |bs| && bs[i]
  }

  lemma {:induction false} CountTruePositive(bs: seq<bool>)
    ensures CountTrue(bs) > 0 <==> AnyTrue(bs)
  {
    if bs != [] {
      CountTruePositive(bs[1..]);
      if AnyTrue(bs[1..]) {
        var i :| 0 <= i < |bs[1..]| && bs[1..][i];
        assert bs[i + 1];
      }
      if AnyTrue(bs) && !bs[0] {
        var i :| 0 <= i < |bs| && bs[i];
        assert bs[1..][i - 1];
      }
    }
  }

  /** More than one entry counts as true exactly when two distinct entries are true. */
  lemma {:induction false} CountTrueMoreThanOne(bs: seq<bool>)
    ensures CountTrue(bs) > 1 <==> AtLeastTwo(bs)
  {
    if bs != [] {
      var tail := bs[1..];
      CountTrueMoreThanOne(tail);
      CountTruePositive(tail);
      if AtLeastTwo(bs) {
        var i, j :| 0 <= i < j < |bs| && bs[i] && bs[j];
        if i == 0 {
          assert tail[j - 1];
        } else {
          assert tail[i - 1] && tail[j - 1];
        }
      }
      if CountTrue(bs) > 1 {
        if bs[0] {
          var j :| 0 <= j < |tail| && tail[j];
          assert bs[0] && bs[j + 1];
        } else {
          var i, j :| 0 <= i < j < |tail| && tail[i] && tail[j];
          assert bs[i + 1] && bs[j + 1];
        }
      }
    }
  }

  /**
   * Whether the grouping selector is shown: when more than one of the seven
   * grouping options is enabled, or when grouping by custom field is.
   */
  function SelectorShown(allincludinghidden: bool, all: bool, inprogress: bool, future: bool, past: bool,
                         favourites: bool, hidden: bool, customfield: bool): bool
  {
    CountTrue([allincludinghidden, all, inprogress, future, past, favourites, hidden]) > 1 || customfield
  }

  /** The selector shows exactly when two distinct grouping options are enabled, or grouping by custom field is. */
  lemma SelectorShownWhenTwoEnabled(allincludinghidden: bool, all: bool, inprogress: bool, future: bool, past: bool,
                                    favourites: bool, hidden: bool, customfield: bool)
    ensures SelectorShown(allincludinghidden, all, inprogress, future, past, favourites, hidden, customfield) <==>
      AtLeastTwo([allincludinghidden, all, inprogress, future, past, favourites, hidden]) || customfield
  {
    CountTrueMoreThanOne([allincludinghidden, all, inprogress, future, past, favourites, hidden]);
  }

  /** Three options that are off do not change whether two options are on. */
  lemma TwoOfSevenWithThreeOff(a: bool, b: bool, c: bool, d: bool)
    ensures AtLeastTwo([a, b, false, false, false, c, d]) <==> AtLeastTwo([a, b, c, d])
  {
    var seven := [a, b, false, false, false, c, d];
    var four := [a, b, c, d];
    if AtLeastTwo(seven) {
      var i, j :| 0 <= i < j < 7 && seven[i] && seven[j];
      var i', j' := if i < 2 then i else i - 3, if j < 2 then j else j - 3;
      assert four[i'] && four[j'];
    }
    if AtLeastTwo(four) {
      var i, j :| 0 <= i < j < 4 && four[i] && four[j];
      var i', j' := if i < 2 then i else i + 3, if j < 2 then j else j + 3;
      assert seven[i'] && seven[j'];
    }
  }

  /**
   * The in-progress, future, past and custom-field options, which the block
   * always switches off, add nothing to the selector: it shows exactly when
   * two of the remaining four options are enabled.
   */
  lemma SelectorCountsEnabledOptions(allincludinghidden: bool, all: bool, favourites: bool, hidden: bool)
    ensures SelectorShown(allincludinghidden, all, false, false, false, favourites, hidden, false)
      <==> AtLeastTwo([allincludinghidden, all, favourites, hidden])
  {
    SelectorShownWhenTwoEnabled(allincludinghidden, all, false, false, false, favourites, hidden, false);
    TwoOfSevenWithThreeOff(allincludinghidden, all, favourites, hidden);
  }

  /** The key the template sorts courses by. */
  function TemplateSortKey(sort: string): (key: string)
    ensures key == "shortname" || key == "fullname" || key == "ul.timeaccess desc"
    ensures key == "shortname" <==> sort == SortShortName
    ensures key == "fullname" <==> sort == SortTitle
  {
    if sort == SortShortName then "shortname"
    else if sort == SortTitle then "fullname"
    else "ul.timeaccess desc"
  }

  /** With `courselistshortnames` off the template never sorts by short name. */
  lemma NoShortNameSortWhenOff(sort: string)
    ensures TemplateSortKey(ResolveSort(sort, false)) != "shortname"
  {
  }

  /**
   * The selected preferences as a map from the selected value to true: the
   * sort, the grouping's name, and the view if available (else the first
   * layout).
   */
  function PreferencesAsBooleans(sort: string, grouping: Grouping, view: string, layouts: seq<string>)
    : (prefs: map<string, bool>)
    requires |layouts| >= 1
    ensures prefs.Keys == {sort, GroupingName(grouping), EffectiveView(view, layouts)}
    ensures forall k :: k in prefs ==> prefs[k]
  {
    map[sort := true][GroupingName(grouping) := true][EffectiveView(view, layouts) := true]
  }

  /** A layout as the template sees it. Its localised name and label are left out. */
  datatype LayoutExport = LayoutExport(id: string, active: bool)

  function FormatLayout(view: string, layoutname: string): (layout: LayoutExport)
    ensures layout.id == layoutname
    ensures layout.active <==> layoutname == view
  {
    LayoutExport(layoutname, view == layoutname)
  }

  function FormattedLayouts(view: string, layouts: seq<string>): (r: seq<LayoutExport>)
    ensures |r| == |layouts|
    ensures forall i :: 0 <= i < |layouts| ==> r[i] == FormatLayout(view, layouts[i])
  {
    seq(|layouts|, i requires 0 <= i < |layouts| => FormatLayout(view, layouts[i]))
  }

  /**
   * The exported layouts keep the layouts' order and ids, and some layout
   * is active exactly when the view is available.
   */
  lemma ExportedLayoutsMarkView(view: string, layouts: seq<string>)
    ensures var r := FormattedLayouts(view, layouts);
      && |r| == |layouts|
      && (forall i :: 0 <= i < |r| ==> r[i].id == layouts[i] && (r[i].active <==> layouts[i] == view))
      && ((exists i :: 0 <= i < |r| && r[i].active) <==> view in layouts)
  {
    var r := FormattedLayouts(view, layouts);
    if view in layouts {
      var i :| 0 <= i < |layouts| && layouts[i] == view;
      assert r[i].active;
    }
  }

  /** One value of the custom field as offered in the grouping dropdown. */
  datatype CustomFieldOption = CustomFieldOption(name: string, value: string, active: bool)

  /**
   * PHP's `$field->value == $this->customfieldvalue` for a value and the
   * selection, which may be null; null equals only the empty string.
   */
  predicate ValueMatches(value: string, selected: Option<string>)
  {
    match selected
    case Some(s) => value == s
    case None => value == ""
  }

  /** The index of the first option whose value matches the selection. */
  function FirstMatch(values: seq<CustomFieldOption>, selected: Option<string>): (r: Option<nat>)
    ensures r.Some? ==> r.value < |values| && ValueMatches(values[r.value].value, selected)
    ensures r.Some? ==> forall j :: 0 <= j < r.value ==> !ValueMatches(values[j].value, selected)
    ensures r.None? ==> forall j :: 0 <= j < |values| ==> !ValueMatches(values[j].value, selected)
    decreases |values|
  {
    if values == [] then None
    else if ValueMatches(values[0].value, selected) then Some(0)
    else match FirstMatch(values[1..], selected)
      case Some(i) => Some(i + 1)
      case None => None
  }

  /** The name of the first option that matches the selection, or "" when none does. */
  method FindSelectedCustomField(values: seq<CustomFieldOption>, selected: Option<string>)
    returns (name: string)
    ensures name == match FirstMatch(values, selected)
      case Some(i) => values[i].name
      case None => ""
  {
    name := "";
    var i := 0;
    while i < |values|
      invariant 0 <= i <= |values|
      invariant forall j :: 0 <= j < i ==> !ValueMatches(values[j].value, selected)
      invariant name == ""
    {
      if ValueMatches(values[i].value, selected) {
        name := values[i].name;
        return;
      }
      i := i + 1;
    }
  }

  /** The grouping, custom-field value and selected field name after the custom-field check. */
  datatype Selection = Selection(grouping: Grouping, customfieldvalue: Option<string>, selectedcustomfield: string)

  /**
   * The custom-field check of the template export. When the grouping is by
   * custom field and no option matches the stored value (or the match has
   * a falsy name), the grouping falls back; if the fallback is still the
   * custom field, the first option is selected.
   */
  function SelectCustomField(grouping: Grouping, customfieldvalue: Option<string>,
                             values: seq<CustomFieldOption>, config: Config): (s: Selection)
    ensures grouping != CustomField ==> s == Selection(grouping, customfieldvalue, "")
    ensures s.grouping == grouping || s.grouping == FallbackGrouping(config)
    ensures grouping == CustomField && values == [] ==>
      s == Selection(FallbackGrouping(config), customfieldvalue, "")
    ensures Truthy(s.selectedcustomfield) ==>
      && s.grouping == CustomField
      && exists i :: 0 <= i < |values| && values[i].name == s.selectedcustomfield
                     && ValueMatches(values[i].value, s.customfieldvalue)
    // The first matching option with a truthy name is selected and the grouping stays.
    ensures grouping == CustomField ==>
      var m := FirstMatch(values, customfieldvalue);
      m.Some? && Truthy(values[m.value].name) ==>
        s == Selection(CustomField, customfieldvalue, values[m.value].name)
    // Without such a match the grouping falls back.
    ensures grouping == CustomField ==>
      var m := FirstMatch(values, customfieldvalue);
      !(m.Some? && Truthy(values[m.value].name)) ==> s.grouping == FallbackGrouping(config)
    // A fallback that is still the custom field selects the first option and its value.
    ensures grouping == CustomField ==>
      var m := FirstMatch(values, customfieldvalue);
      !(m.Some? && Truthy(values[m.value].name)) && FallbackGrouping(config) == CustomField && values != [] ==>
        s.customfieldvalue == Some(values[0].value) && s.selectedcustomfield == values[0].name
    // Any other fallback keeps the stored value and the (falsy) name found, if any.
    ensures grouping == CustomField ==>
      var m := FirstMatch(values, customfieldvalue);
      !(m.Some? && Truthy(values[m.value].name)) && (FallbackGrouping(config) != CustomField || values == []) ==>
        s.customfieldvalue == customfieldvalue && s.selectedcustomfield == (if m.Some? then values[m.value].name else "")
  {
    if grouping != CustomField then Selection(grouping, customfieldvalue, "")
    else
      var found := match FirstMatch(values, customfieldvalue)
        case Some(i) => values[i].name
        case None => "";
      if Truthy(found) then Selection(grouping, customfieldvalue, found)
      else
        var g := FallbackGrouping(config);
        if g == CustomField && |values| > 0 then
          Selection(g, Some(values[0].value), values[0].name)
        else Selection(g, customfieldvalue, found)
  }

  /** The custom-field check keeps the grouping an enabled one whenever some grouping is enabled. */
  lemma SelectionKeepsGroupingEnabled(grouping: Grouping, customfieldvalue: Option<string>,
                                      values: seq<CustomFieldOption>, config: Config)
    requires Enabled(config, grouping) || NoneEnabled(config)
    ensures var s := SelectCustomField(grouping, customfieldvalue, values, config);
      Enabled(config, s.grouping) || NoneEnabled(config)
  {
  }

  /** A value of the template context. */
  datatype ContextValue =
    | Str(s: string)
    | Int(i: int)
    | Bool(b: bool)
    | Null
    | Layouts(layouts: seq<LayoutExport>)
    | Options(options: seq<CustomFieldOption>)

  /** The template's default variables, one field per context key. */
  datatype TemplateDefaults = TemplateDefaults(
    totalcoursecount: int,
    nocoursesimg: string,
    newcourseurl: string,
    grouping: string,
    sort: string,
    view: string,
    paging: int,
    layouts: seq<LayoutExport>,
    displaycategories: string,
    displaydropdown: bool,
    displaygroupingallincludinghidden: bool,
    displaygroupingall: bool,
    displaygroupinginprogress: bool,
    displaygroupingfuture: bool,
    displaygroupingpast: bool,
    displaygroupingfavourites: bool,
    displaygroupinghidden: bool,
    displaygroupingselector: bool,
    displaygroupingcustomfield: bool,
    customfieldname: string,
    customfieldvalue: Option<string>,
    customfieldvalues: seq<CustomFieldOption>,
    selectedcustomfield: string,
    showsortbyshortname: bool)

  /** The default variables as the keyed array the template receives. */
  function ContextOf(d: TemplateDefaults): map<string, ContextValue>
  {
    map[
      "totalcoursecount" := Int(d.totalcoursecount),
      "nocoursesimg" := Str(d.nocoursesimg),
      "newcourseurl" := Str(d.newcourseurl),
      "grouping" := Str(d.grouping),
      "sort" := Str(d.sort),
      "view" := Str(d.view),
      "paging" := Int(d.paging),
      "layouts" := Layouts(d.layouts),
      "displaycategories" := Str(d.displaycategories),
      "displaydropdown" := Bool(d.displaydropdown),
      "displaygroupingallincludinghidden" := Bool(d.displaygroupingallincludinghidden),
      "displaygroupingall" := Bool(d.displaygroupingall),
      "displaygroupinginprogress" := Bool(d.displaygroupinginprogress),
      "displaygroupingfuture" := Bool(d.displaygroupingfuture),
      "displaygroupingpast" := Bool(d.displaygroupingpast),
      "displaygroupingfavourites" := Bool(d.displaygroupingfavourites),
      "displaygroupinghidden" := Bool(d.displaygroupinghidden),
      "displaygroupingselector" := Bool(d.displaygroupingselector),
      "displaygroupingcustomfield" := Bool(d.displaygroupingcustomfield),
      "customfieldname" := Str(d.customfieldname),
      "customfieldvalue" := (match d.customfieldvalue case Some(v) => Str(v) case None => Null),
      "customfieldvalues" := Options(d.customfieldvalues),
      "selectedcustomfield" := Str(d.selectedcustomfield),
      "showsortbyshortname" := Bool(d.showsortbyshortname)
    ]
  }

  /** `array_merge($defaults, $preferences)`: every preference key is set to true, overriding a default of the same name. */
  function MergeContext(defaults: map<string, ContextValue>, prefs: map<string, bool>)
    : (context: map<string, ContextValue>)
    ensures context.Keys == defaults.Keys + prefs.Keys
    ensures forall k :: k in prefs ==> context[k] == Bool(prefs[k])
    ensures forall k :: k in defaults && k !in prefs ==> context[k] == defaults[k]
  {
    defaults + map k | k in prefs :: Bool(prefs[k])
  }

  /** Everything the block's renderable holds, as one value. */
  datatype MainState = MainState(
    grouping: Grouping,
    sort: string,
    view: string,
    paging: int,
    displaycategories: string,
    layouts: seq<string>,
    displaygroupingallincludinghidden: bool,
    displaygroupingall: bool,
    displaygroupinginprogress: bool,
    displaygroupingfuture: bool,
    displaygroupingpast: bool,
    displaygroupingfavourites: bool,
    displaygroupinghidden: bool,
    displaygroupingcustomfield: bool,
    customfiltergrouping: string,
    customfieldvalue: Option<string>,
    displaygroupingselector: bool)

  /** The renderable's invariant: there is a layout, and the selector flag agrees with the enabled options. */
  predicate Invariant(layouts: seq<string>, allincludinghidden: bool, all: bool, inprogress: bool, future: bool,
                      past: bool, favourites: bool, hidden: bool, customfield: bool, selector: bool)
  {
    && |layouts| >= 1
    && selector == SelectorShown(allincludinghidden, all, inprogress, future, past, favourites, hidden, customfield)
  }

  predicate ValidState(st: MainState)
  {
    Invariant(st.layouts, st.displaygroupingallincludinghidden, st.displaygroupingall, st.displaygroupinginprogress,
              st.displaygroupingfuture, st.displaygroupingpast, st.displaygroupingfavourites, st.displaygroupinghidden,
              st.displaygroupingcustomfield, st.displaygroupingselector)
  }

  /**
   * The state the constructor builds from the stored preferences, the
   * block's configuration and the site's `courselistshortnames` setting.
   * The in-progress, future and past options are always off, and grouping
   * by custom field is switched off whatever the setting says.
   */
  function InitialState(grouping: string, sort: string, view: string, paging: Option<int>,
                        customfieldvalue: Option<string>, config: Config, courselistshortnames: bool): MainState
  {
    var layouts := AvailableLayouts(config.layouts);
    var customfield := false && Truthy(config.customfiltergrouping);
    MainState(
      ResolveGrouping(grouping, config),
      ResolveSort(sort, courselistshortnames),
      ResolveView(view, layouts),
      ResolvePaging(paging),
      if config.displaycategories then DisplayCategoriesOn else DisplayCategoriesOff,
      layouts,
      config.displaygroupingallincludinghidden,
      config.displaygroupingall,
      false,
      false,
      false,
      config.displaygroupingfavourites,
      config.displaygroupinghidden,
      customfield,
      config.customfiltergrouping,
      customfieldvalue,
      SelectorShown(config.displaygroupingallincludinghidden, config.displaygroupingall, false, false, false,
                    config.displaygroupingfavourites, config.displaygroupinghidden, customfield))
  }

  /** The constructed state keeps the invariant. */
  lemma InitialStateValid(grouping: string, sort: string, view: string, paging: Option<int>,
                          customfieldvalue: Option<string>, config: Config, courselistshortnames: bool)
    ensures ValidState(InitialState(grouping, sort, view, paging, customfieldvalue, config, courselistshortnames))
  {
  }

  /**
   * The constructed selector shows exactly when two of the
   * allincludinghidden, all, favourites and hidden options are enabled.
   */
  lemma InitialSelector(grouping: string, sort: string, view: string, paging: Option<int>,
                        customfieldvalue: Option<string>, config: Config, courselistshortnames: bool)
    ensures var st := InitialState(grouping, sort, view, paging, customfieldvalue, config, courselistshortnames);
      st.displaygroupingselector <==> AtLeastTwo([config.displaygroupingallincludinghidden,
        config.displaygroupingall, config.displaygroupingfavourites, config.displaygroupinghidden])
  {
    SelectorCountsEnabledOptions(config.displaygroupingallincludinghidden, config.displaygroupingall,
                                 config.displaygroupingfavourites, config.displaygroupinghidden);
  }

  /**
   * In the constructed state the grouping is enabled unless none is, the
   * sort is never shortname with `courselistshortnames` off, an empty
   * stored view becomes an available layout, and the in-progress, future,
   * past and custom-field options are off.
   */
  lemma InitialStateChoices(grouping: string, sort: string, view: string, paging: Option<int>,
                            customfieldvalue: Option<string>, config: Config, courselistshortnames: bool)
    ensures var st := InitialState(grouping, sort, view, paging, customfieldvalue, config, courselistshortnames);
      && (Enabled(config, st.grouping) || NoneEnabled(config))
      && (courselistshortnames || st.sort != SortShortName)
      && (!Truthy(view) ==> st.view in st.layouts)
      && !st.displaygroupinginprogress && !st.displaygroupingfuture && !st.displaygroupingpast
      && !st.displaygroupingcustomfield
  {
  }

  /** The main renderable of the block, holding the resolved preferences. */
  class Main {
    var grouping: Grouping
    var sort: string
    var view: string
    var paging: int
    var displaycategories: string
    var layouts: seq<string>
    var displaygroupingallincludinghidden: bool
    var displaygroupingall: bool
    var displaygroupinginprogress: bool
    var displaygroupingfuture: bool
    var displaygroupingpast: bool
    var displaygroupingfavourites: bool
    var displaygroupinghidden: bool
    var displaygroupingcustomfield: bool
    var customfiltergrouping: string
    var customfieldvalue: Option<string>
    var displaygroupingselector: bool

    /** The fields as one value. */
    function State(): MainState
      reads this
    {
      MainState(grouping, sort, view, paging, displaycategories, layouts,
                displaygroupingallincludinghidden, displaygroupingall, displaygroupinginprogress,
                displaygroupingfuture, displaygroupingpast, displaygroupingfavourites, displaygroupinghidden,
                displaygroupingcustomfield, customfiltergrouping, customfieldvalue, displaygroupingselector)
    }

    ghost predicate Valid()
      reads this
    {
      ValidState(State())
    }

    constructor (grouping: string, sort: string, view: string, paging: Option<int>,
                 customfieldvalue: Option<string>, config: Config, courselistshortnames: bool)
      ensures State() == InitialState(grouping, sort, view, paging, customfieldvalue, config, courselistshortnames)
      ensures Valid()
    {
      var st := InitialState(grouping, sort, view, paging, customfieldvalue, config, courselistshortnames);
      InitialStateValid(grouping, sort, view, paging, customfieldvalue, config, courselistshortnames);
      this.grouping := st.grouping;
      this.sort := st.sort;
      this.view := st.view;
      this.paging := st.paging;
      this.displaycategories := st.displaycategories;
      this.layouts := st.layouts;
      this.displaygroupingallincludinghidden := st.displaygroupingallincludinghidden;
      this.displaygroupingall := st.displaygroupingall;
      this.displaygroupinginprogress := st.displaygroupinginprogress;
      this.displaygroupingfuture := st.displaygroupingfuture;
      this.displaygroupingpast := st.displaygroupingpast;
      this.displaygroupingfavourites := st.displaygroupingfavourites;
      this.displaygroupinghidden := st.displaygroupinghidden;
      this.displaygroupingcustomfield := st.displaygroupingcustomfield;
      this.customfiltergrouping := st.customfiltergrouping;
      this.customfieldvalue := st.customfieldvalue;
      this.displaygroupingselector := st.displaygroupingselector;
    }

    method SetAvailableLayouts(layoutsConfig: string)
      modifies this`layouts
      ensures layouts == AvailableLayouts(layoutsConfig)
      ensures old(Valid()) ==> Valid()
    {
      if Truthy(layoutsConfig) {
        layouts := Split(layoutsConfig, ',');
      } else {
        layouts := [ViewCard];
      }
    }

    /** The selected preferences, each mapped to true. */
    method GetPreferencesAsBooleans() returns (prefs: map<string, bool>)
      requires Valid()
      ensures prefs == PreferencesAsBooleans(sort, grouping, view, layouts)
    {
      prefs := map[];
      prefs := prefs[sort := true];
      prefs := prefs[GroupingName(grouping) := true];
      if view in layouts {
        prefs := prefs[view := true];
      } else {
        prefs := prefs[layouts[0] := true];
      }
    }

    /** The custom-field values for the dropdown; `fromDatabase` stands for what the database lookup yields. */
    method GetCustomfieldValuesForExport(fromDatabase: seq<CustomFieldOption>)
      returns (values: seq<CustomFieldOption>)
      ensures !displaygroupingcustomfield ==> values == []
      ensures displaygroupingcustomfield ==> values == fromDatabase
    {
      if !displaygroupingcustomfield {
        return [];
      }
      values := fromDatabase;
    }

    /** The template context before the preferences are merged in. */
    function DefaultVariables(values: seq<CustomFieldOption>, selectedcustomfield: string,
                              courselistshortnames: bool, totalcoursecount: int,
                              nocoursesimg: string, newcourseurl: string): TemplateDefaults
      reads this
      requires |layouts| >= 1
    {
      TemplateDefaults(
        totalcoursecount, nocoursesimg, newcourseurl,
        GroupingName(grouping),
        TemplateSortKey(sort),
        EffectiveView(view, layouts),
        paging,
        FormattedLayouts(view, layouts),
        displaycategories,
        |layouts| > 1,
        displaygroupingallincludinghidden, displaygroupingall, displaygroupinginprogress,
        displaygroupingfuture, displaygroupingpast, displaygroupingfavourites, displaygroupinghidden,
        displaygroupingselector,
        displaygroupingcustomfield && |values| > 0,
        customfiltergrouping, customfieldvalue, values, selectedcustomfield,
        courselistshortnames)
    }

    /**
     * The template's view is an available layout and is the one layout key
     * the preferences mark; the dropdown shows exactly when there is more
     * than one layout; the exported layouts mark the view as active.
     */
    lemma ExportedViewAndDropdown(values: seq<CustomFieldOption>, selectedcustomfield: string,
                                  courselistshortnames: bool, totalcoursecount: int,
                                  nocoursesimg: string, newcourseurl: string)
      requires Valid()
      ensures var d := DefaultVariables(values, selectedcustomfield, courselistshortnames,
                                        totalcoursecount, nocoursesimg, newcourseurl);
        && d.view in layouts
        && d.view in PreferencesAsBooleans(sort, grouping, view, layouts)
        && d.displaydropdown == (|layouts| > 1)
        && |d.layouts| == |layouts|
        && (view in layouts ==> exists i :: 0 <= i < |layouts| && d.layouts[i].active)
    {
      ExportedLayoutsMarkView(view, layouts);
    }

    /**
     * The custom-field check at the start of the export: it may replace the
     * grouping by its fallback and select the first custom-field value.
     */
    method CheckCustomFieldSelection(values: seq<CustomFieldOption>, config: Config)
      returns (selected: string)
      modifies this`grouping, this`customfieldvalue
      ensures var s := SelectCustomField(old(grouping), old(customfieldvalue), values, config);
        grouping == s.grouping && customfieldvalue == s.customfieldvalue && selected == s.selectedcustomfield
    {
      selected := "";
      if grouping == CustomField {
        selected := FindSelectedCustomField(values, customfieldvalue);
        if !Truthy(selected) {
          grouping := FallbackGrouping(config);
          if grouping == CustomField {
            if |values| > 0 {
              selected := values[0].name;
              customfieldvalue := Some(values[0].value);
            }
          }
        }
      }
    }

    /**
     * The template context. `fromDatabase` stands for the custom-field values
     * the database lookup would offer; `totalcoursecount`, `nocoursesimg` and
     * `newcourseurl` for the values the host computes.
     */
    method ExportForTemplate(config: Config, courselistshortnames: bool,
                             fromDatabase: seq<CustomFieldOption>, totalcoursecount: int,
                             nocoursesimg: string, newcourseurl: string)
      returns (context: map<string, ContextValue>)
      requires Valid()
      modifies this`grouping, this`customfieldvalue
      ensures Valid()
      ensures var values := if displaygroupingcustomfield then fromDatabase else [];
        var s := SelectCustomField(old(grouping), old(customfieldvalue), values, config);
        && grouping == s.grouping
        && customfieldvalue == s.customfieldvalue
        && context == MergeContext(
             ContextOf(DefaultVariables(values, s.selectedcustomfield, courselistshortnames,
                                        totalcoursecount, nocoursesimg, newcourseurl)),
             PreferencesAsBooleans(sort, grouping, view, layouts))
    {
      var values := GetCustomfieldValuesForExport(fromDatabase);
      var selected := CheckCustomFieldSelection(values, config);
      assert Valid();
      var prefs := GetPreferencesAsBooleans();
      context := MergeContext(
        ContextOf(DefaultVariables(values, selected, courselistshortnames, totalcoursecount, nocoursesimg, newcourseurl)),
        prefs);
    }
  }
}
