/**
 * The block's remote endpoint `get_enrolled_courses_by_timeline_classification`:
 * it validates the classification, chooses the course fields to fetch,
 * fetches the user's enrolled courses, filters them by the classification,
 * marks favourites and returns the courses with the offset for the next
 * request. The host's course fetch, course filters, favourites service and
 * text cleaning are fields of `Host` and stay uninterpreted.
 */
module TimelineClassification {
  import opened Wrappers
  import opened Strings

  /**
   * The classifications the endpoint accepts. Their names are the values of
   * Moodle core's `COURSE_TIMELINE_*`, `COURSE_FAVOURITES` and
   * `COURSE_CUSTOMFIELD` constants, which no file of the block defines.
   */
  datatype Classification =
    | AllIncludingHidden
    | All
    | Past
    | InProgress
    | Future
    | Favourites
    | Hidden
    | Search
    | CustomField

  function ClassificationName(c: Classification): string
  {
    match c
    case AllIncludingHidden => "allincludinghidden"
    case All => "all"
    case Past => "past"
    case InProgress => "inprogress"
    case Future => "future"
    case Favourites => "favourites"
    case Hidden => "hidden"
    case Search => "search"
    case CustomField => "customfield"
  }

  /** The switch over the accepted classification names. */
  function ParseClassification(s: string): (r: Option<Classification>)
    ensures r.Some? ==> ClassificationName(r.value) == s
    ensures forall c :: ClassificationName(c) == s ==> r == Some(c)
  {
    if s == "allincludinghidden" then Some(AllIncludingHidden)
    else if s == "all" then Some(All)
    else if s == "past" then Some(Past)
    else if s == "inprogress" then Some(InProgress)
    else if s == "future" then Some(Future)
    else if s == "favourites" then Some(Favourites)
    else if s == "hidden" then Some(Hidden)
    else if s == "search" then Some(Search)
    else if s == "customfield" then Some(CustomField)
    else None
  }

  /** The property names of the course summary exporter, in its order. */
  const ExporterFields: seq<string> := [
    "id", "fullname", "shortname", "idnumber", "summary", "summaryformat",
    "startdate", "enddate", "visible", "showactivitydates", "showcompletionconditions",
    "pdfexportfont"]

  /** `array_intersect(xs, ys)`: the entries of `xs` that occur in `ys`, in the order of `xs`. */
  function Intersect(xs: seq<string>, ys: seq<string>): (r: seq<string>)
    ensures |r| <= |xs|
    ensures forall x :: x in r <==> x in xs && x in ys
  {
    if xs == [] then []
    else (if xs[0] in ys then [xs[0]] else []) + Intersect(xs[1..], ys)
  }

  /** Keeping only entries that occur in `ys` changes nothing when every entry does. */
  lemma {:induction false} IntersectAll(xs: seq<string>, ys: seq<string>)
    requires forall x :: x in xs ==> x in ys
    ensures Intersect(xs, ys) == xs
  {
    if xs != [] {
      assert forall x :: x in xs[1..] ==> x in xs;
      IntersectAll(xs[1..], ys);
    }
  }

  /** `array_intersect` works entry by entry: a single entry stays exactly when it occurs in `ys`. */
  lemma IntersectSingle(x: string, ys: seq<string>)
    ensures Intersect([x], ys) == if x in ys then [x] else []
  {
    assert [x][1..] == [];
  }

  /** `array_intersect` keeps the order and the repetitions of the first list. */
  lemma {:induction false} IntersectAppend(xs: seq<string>, zs: seq<string>, ys: seq<string>)
    ensures Intersect(xs + zs, ys) == Intersect(xs, ys) + Intersect(zs, ys)
  {
    if xs == [] {
      assert xs + zs == zs;
    } else {
      assert (xs + zs)[1..] == xs[1..] + zs;
      IntersectAppend(xs[1..], zs, ys);
    }
  }

  /**
   * The properties to fetch: the exporter's properties that were asked for,
   * or all of them when none of them was asked for.
   */
  function RequiredProperties(exporterfields: seq<string>, requiredfields: seq<string>): (r: seq<string>)
    ensures exporterfields != [] ==> r != []
    ensures forall f :: f in r ==> f in exporterfields
    ensures (exists f :: f in exporterfields && f in requiredfields) ==>
      forall f :: f in r <==> f in exporterfields && f in requiredfields
    ensures (forall f :: f in exporterfields ==> f !in requiredfields) ==> r == exporterfields
  {
    var requested := Intersect(exporterfields, requiredfields);
    if requested == [] then exporterfields
    else
      assert requested[0] in exporterfields && requested[0] in requiredfields;
      requested
  }

  /** Asking for every exporter property fetches all of them, in the exporter's order. */
  lemma RequestAllFields(requiredfields: seq<string>)
    requires forall f :: f in ExporterFields ==> f in requiredfields
    ensures RequiredProperties(ExporterFields, requiredfields) == ExporterFields
  {
    IntersectAll(ExporterFields, requiredfields);
  }

  /** An enrolled course as the host returns it: its id and the fetched columns. */
  datatype Course = Course(id: int, columns: map<string, string>)

  /** A course as the endpoint returns it; the exporter's other computed values are left out. */
  datatype CourseSummary = CourseSummary(course: Course, isfavourite: bool)

  datatype Favourite = Favourite(itemid: int)

  /** The host fetch the endpoint asks for. */
  datatype FetchRequest =
    | EnrolledCourses(offset: int, sort: Option<string>, fields: string,
                      includeonly: seq<int>, exclude: seq<int>)
    | EnrolledCoursesFromSearch(offset: int, sort: Option<string>, fields: string, search: string)

  /** The host filter the endpoint applies to the fetched courses. */
  datatype FilterRequest =
    | ByFavourites(favouriteids: seq<int>, limit: int)
    | ByCustomField(customfieldname: Option<string>, customfieldvalue: Option<string>, limit: int)
    | ByTimeline(classification: Classification, limit: int)

  /** What a host filter yields: the kept courses (some entries may be null) and how many fetched courses it looked at. */
  datatype FilterResult = FilterResult(filtered: seq<Option<Course>>, processedcount: int)

  /**
   * The host services: the user's hidden courses, the user's favourites,
   * text cleaning, the course fetch and the course filters.
   */
  datatype Host = Host(
    hiddencourses: seq<int>,
    favourites: seq<Favourite>,
    cleanText: Option<string> -> string,
    fetch: FetchRequest -> seq<Course>,
    filter: (FilterRequest, seq<Course>) -> FilterResult)

  datatype Params = Params(
    classification: string,
    limit: int,
    offset: int,
    sort: Option<string>,
    customfieldname: Option<string>,
    customfieldvalue: Option<string>,
    searchvalue: Option<string>,
    requiredfields: seq<string>)

  datatype Response = Response(courses: seq<CourseSummary>, nextoffset: int)

  /**
   * The endpoint's failures: the invalid-parameter exception, and the
   * PHP Error raised when a `new` names a class that does not exist.
   */
  datatype Error =
    | InvalidParameter(message: string)
    | ClassNotFound(name: string)

  /**
   * The class the `throw` for an unknown classification names as written:
   * the unqualified `invalid_parameter_exception` resolves against the
   * file's namespace `block_myoverviewcustom\external`, which has no such class.
   */
  const UnqualifiedInvalidParameter: string := "block_myoverviewcustom\\external\\invalid_parameter_exception"

  /**
   * The fetch for a classification: all-including-hidden is not restricted,
   * hidden is restricted to the hidden courses, search uses the search
   * fetch, and every other classification excludes the hidden courses.
   */
  function FetchRequestFor(c: Classification, offset: int, sort: Option<string>, fields: string,
                           hiddencourses: seq<int>, search: string): (r: FetchRequest)
    ensures r.offset == offset && r.sort == sort && r.fields == fields
    ensures r.EnrolledCoursesFromSearch? <==> c == Search
    ensures r.EnrolledCoursesFromSearch? ==> r.search == search
    ensures r.EnrolledCourses? ==> r.includeonly == (if c == Hidden then hiddencourses else [])
    ensures r.EnrolledCourses? ==> r.exclude == (if c == AllIncludingHidden || c == Hidden then [] else hiddencourses)
  {
    if c == AllIncludingHidden then EnrolledCourses(offset, sort, fields, [], [])
    else if c == Hidden then EnrolledCourses(offset, sort, fields, hiddencourses, [])
    else if c == Search then EnrolledCoursesFromSearch(offset, sort, fields, search)
    else EnrolledCourses(offset, sort, fields, [], hiddencourses)
  }

  /**
   * The filter for a classification: favourites and custom field have
   * their own filters, every other classification the timeline filter; all
   * of them get the request's limit.
   */
  function FilterRequestFor(c: Classification, favouriteids: seq<int>, customfieldname: Option<string>,
                            customfieldvalue: Option<string>, limit: int): (r: FilterRequest)
    ensures r.limit == limit
    ensures r.ByFavourites? <==> c == Favourites
    ensures r.ByCustomField? <==> c == CustomField
    ensures r.ByFavourites? ==> r.favouriteids == favouriteids
    ensures r.ByCustomField? ==> r.customfieldname == customfieldname && r.customfieldvalue == customfieldvalue
    ensures r.ByTimeline? ==> r.classification == c
  {
    if c == Favourites then ByFavourites(favouriteids, limit)
    else if c == CustomField then ByCustomField(customfieldname, customfieldvalue, limit)
    else ByTimeline(c, limit)
  }

  function FavouriteCourseIds(favourites: seq<Favourite>): (ids: seq<int>)
    ensures |ids| == |favourites|
    ensures forall i :: 0 <= i < |favourites| ==> ids[i] == favourites[i].itemid
  {
    seq(|favourites|, i requires 0 <= i < |favourites| => favourites[i].itemid)
  }

  /** A kept course as returned, flagged as favourite exactly when its id is a favourite id. */
  function Summarise(course: Course, favouriteids: seq<int>): (s: CourseSummary)
    ensures s.course == course
    ensures s.isfavourite <==> course.id in favouriteids
  {
    CourseSummary(course, course.id in favouriteids)
  }

  /** The `array_map` over the filtered courses: null stays null, every course is summarised. */
  function FormatCourses(filtered: seq<Option<Course>>, favouriteids: seq<int>): (r: seq<Option<CourseSummary>>)
    ensures |r| == |filtered|
    ensures forall i :: 0 <= i < |filtered| ==>
      (r[i].None? <==> filtered[i].None?) &&
      (filtered[i].Some? ==> r[i] == Some(Summarise(filtered[i].value, favouriteids)))
  {
    seq(|filtered|, i requires 0 <= i < |filtered| =>
      match filtered[i]
      case None => None
      case Some(c) => Some(Summarise(c, favouriteids)))
  }

  /** The `array_filter` that drops null entries, keeping the others in order. */
  function DropNulls<T(!new)>(xs: seq<Option<T>>): (r: seq<T>)
    ensures |r| <= |xs|
    ensures xs == [] ==> r == []
    ensures forall y :: y in r <==> Some(y) in xs
  {
    if xs == [] then []
    else
      var rest := DropNulls(xs[1..]);
      assert forall y :: Some(y) in xs[1..] ==> Some(y) in xs;
      assert forall y :: Some(y) in xs ==> xs[0] == Some(y) || Some(y) in xs[1..];
      match xs[0]
      case None => rest
      case Some(x) => [x] + rest
  }

  /** Dropping nulls works entry by entry from the front. */
  lemma DropNullsCons<T(!new)>(x: Option<T>, xs: seq<Option<T>>)
    ensures DropNulls([x] + xs) == (if x.Some? then [x.value] else []) + DropNulls(xs)
  {
    assert ([x] + xs)[1..] == xs;
  }

  /** `array_filter` keeps the order and the repetitions of the entries it keeps. */
  lemma {:induction false} DropNullsAppend<T(!new)>(xs: seq<Option<T>>, ys: seq<Option<T>>)
    ensures DropNulls(xs + ys) == DropNulls(xs) + DropNulls(ys)
  {
    if xs == [] {
      assert xs + ys == ys;
    } else {
      var zs := xs + ys;
      assert zs[0] == xs[0] && zs[1..] == xs[1..] + ys;
      DropNullsAppend(xs[1..], ys);
    }
  }

  /** Summarises every course of a list. */
  function SummariseAll(courses: seq<Course>, favouriteids: seq<int>): (r: seq<CourseSummary>)
    ensures |r| == |courses|
    ensures forall i :: 0 <= i < |courses| ==> r[i] == Summarise(courses[i], favouriteids)
  {
    seq(|courses|, i requires 0 <= i < |courses| => Summarise(courses[i], favouriteids))
  }

  /** Formatting and then dropping nulls returns the non-null filtered courses, in order, each summarised. */
  lemma {:induction false} FormatThenDrop(filtered: seq<Option<Course>>, favouriteids: seq<int>)
    ensures DropNulls(FormatCourses(filtered, favouriteids)) == SummariseAll(DropNulls(filtered), favouriteids)
  {
    if filtered != [] {
      FormatThenDrop(filtered[1..], favouriteids);
      assert FormatCourses(filtered, favouriteids)[1..] == FormatCourses(filtered[1..], favouriteids);
      match filtered[0]
      case None =>
      case Some(c) =>
        assert SummariseAll(DropNulls(filtered), favouriteids)
          == [Summarise(c, favouriteids)] + SummariseAll(DropNulls(filtered[1..]), favouriteids);
    }
  }

  /** The endpoint. */
  function Execute(p: Params, host: Host): (r: Result<Response, Error>)
    ensures r.Success? <==> ParseClassification(p.classification).Some?
    ensures r.Failure? ==> r.error == InvalidParameter("Invalid classification")
  {
    match ParseClassification(p.classification)
    case None => Failure(InvalidParameter("Invalid classification"))
    case Some(c) =>
      var search := host.cleanText(p.searchvalue);
      var fields := Join(RequiredProperties(ExporterFields, p.requiredfields), ',');
      var courses := host.fetch(FetchRequestFor(c, p.offset, p.sort, fields, host.hiddencourses, search));
      var favouriteids := FavouriteCourseIds(host.favourites);
      var result := host.filter(FilterRequestFor(c, favouriteids, p.customfieldname, p.customfieldvalue, p.limit), courses);
      Success(Response(
        DropNulls(FormatCourses(result.filtered, favouriteids)),
        p.offset + result.processedcount))
  }

  /** An unknown classification is rejected before any host service is used: the answer is the same error for every host. */
  lemma UnknownClassificationRejected(p: Params, host: Host, other: Host)
    requires p.classification !in [
      "allincludinghidden", "all", "past", "inprogress", "future",
      "favourites", "hidden", "search", "customfield"]
    ensures Execute(p, host) == Failure(InvalidParameter("Invalid classification"))
    ensures Execute(p, host) == Execute(p, other)
  {
  }

  /**
   * The endpoint as written: an unknown classification reaches a `throw`
   * whose class does not resolve, so PHP raises a class-not-found Error
   * instead of the invalid-parameter exception. Accepted classifications
   * behave as in `Execute`.
   */
  function ExecuteAsWritten(p: Params, host: Host): (r: Result<Response, Error>)
    ensures r.Failure? <==> ParseClassification(p.classification).None?
    ensures r.Failure? ==> r.error == ClassNotFound(UnqualifiedInvalidParameter)
    ensures r.Success? ==> r == Execute(p, host)
  {
    match ParseClassification(p.classification)
    case None => Failure(ClassNotFound(UnqualifiedInvalidParameter))
    case Some(_) => Execute(p, host)
  }

  /**
   * The classification "foo" passes the PARAM_ALPHA cleaning but is not a
   * classification: as written the endpoint fails with a class-not-found
   * Error, where the intended endpoint fails with "Invalid classification".
   */
  lemma UnknownClassificationThrowsMissingClass(p: Params, host: Host)
    requires p.classification == "foo"
    ensures ExecuteAsWritten(p, host) == Failure(ClassNotFound(UnqualifiedInvalidParameter))
    ensures Execute(p, host) == Failure(InvalidParameter("Invalid classification"))
    ensures ExecuteAsWritten(p, host) != Execute(p, host)
  {
  }

  /** No exporter field name contains the comma that separates fetched fields. */
  lemma ExporterFieldsHaveNoComma()
    ensures forall i :: 0 <= i < |ExporterFields| ==> ',' !in ExporterFields[i]
  {
  }

  /** The fields the endpoint fetches are never empty and read back, split at commas, as the chosen properties. */
  lemma FetchedFieldsNonEmpty(requiredfields: seq<string>)
    ensures var props := RequiredProperties(ExporterFields, requiredfields);
      && props != []
      && Split(Join(props, ','), ',') == props
  {
    var props := RequiredProperties(ExporterFields, requiredfields);
    ExporterFieldsHaveNoComma();
    forall i | 0 <= i < |props| ensures ',' !in props[i] {
      assert props[i] in ExporterFields;
      var j :| 0 <= j < |ExporterFields| && ExporterFields[j] == props[i];
    }
    SplitJoin(props, ',');
  }

  /**
   * What an accepted request returns: the courses the host filter kept,
   * without nulls and in the filter's order, each summarised against the
   * user's favourites; and the next offset is the request's offset plus the
   * number of fetched courses the filter looked at, so it never moves
   * backwards.
   */
  lemma ExecuteResponse(p: Params, host: Host)
    requires ParseClassification(p.classification).Some?
    ensures var c := ParseClassification(p.classification).value;
      var fields := Join(RequiredProperties(ExporterFields, p.requiredfields), ',');
      var courses := host.fetch(FetchRequestFor(c, p.offset, p.sort, fields, host.hiddencourses,
                                                host.cleanText(p.searchvalue)));
      var favouriteids := FavouriteCourseIds(host.favourites);
      var result := host.filter(FilterRequestFor(c, favouriteids, p.customfieldname, p.customfieldvalue, p.limit),
                                courses);
      var r := Execute(p, host);
      && r.Success?
      && r.value.courses == SummariseAll(DropNulls(result.filtered), favouriteids)
      && r.value.nextoffset == p.offset + result.processedcount
      && (result.processedcount >= 0 ==> r.value.nextoffset >= p.offset)
  {
    var c := ParseClassification(p.classification).value;
    var favouriteids := FavouriteCourseIds(host.favourites);
    var fields := Join(RequiredProperties(ExporterFields, p.requiredfields), ',');
    var courses := host.fetch(FetchRequestFor(c, p.offset, p.sort, fields, host.hiddencourses,
                                              host.cleanText(p.searchvalue)));
    var result := host.filter(FilterRequestFor(c, favouriteids, p.customfieldname, p.customfieldvalue, p.limit),
                              courses);
    FormatThenDrop(result.filtered, favouriteids);
  }

  /**
   * Every returned course is one the host filter kept, and it is flagged as
   * favourite exactly when the user has a favourite with its id.
   */
  lemma ExecuteReturnsKeptCourses(p: Params, host: Host)
    requires ParseClassification(p.classification).Some?
    ensures var c := ParseClassification(p.classification).value;
      var fields := Join(RequiredProperties(ExporterFields, p.requiredfields), ',');
      var courses := host.fetch(FetchRequestFor(c, p.offset, p.sort, fields, host.hiddencourses,
                                                host.cleanText(p.searchvalue)));
      var result := host.filter(FilterRequestFor(c, FavouriteCourseIds(host.favourites), p.customfieldname,
                                                 p.customfieldvalue, p.limit), courses);
      var r := Execute(p, host);
      && r.Success?
      && (forall s :: s in r.value.courses ==> Some(s.course) in result.filtered)
      && (forall s :: s in r.value.courses ==>
            (s.isfavourite <==> exists f :: f in host.favourites && f.itemid == s.course.id))
  {
    var c := ParseClassification(p.classification).value;
    var fields := Join(RequiredProperties(ExporterFields, p.requiredfields), ',');
    var courses := host.fetch(FetchRequestFor(c, p.offset, p.sort, fields, host.hiddencourses,
                                              host.cleanText(p.searchvalue)));
    var favouriteids := FavouriteCourseIds(host.favourites);
    var result := host.filter(FilterRequestFor(c, favouriteids, p.customfieldname, p.customfieldvalue, p.limit),
                              courses);
    ExecuteResponse(p, host);
    var out := SummariseAll(DropNulls(result.filtered), favouriteids);
    forall s | s in out
      ensures Some(s.course) in result.filtered
      ensures s.isfavourite <==> exists f :: f in host.favourites && f.itemid == s.course.id
    {
      var i :| 0 <= i < |out| && out[i] == s;
      assert s.course == DropNulls(result.filtered)[i];
      if s.isfavourite {
        var k :| 0 <= k < |favouriteids| && favouriteids[k] == s.course.id;
        assert host.favourites[k] in host.favourites;
      }
      if f :| f in host.favourites && f.itemid == s.course.id {
        var k :| 0 <= k < |host.favourites| && host.favourites[k] == f;
        assert favouriteids[k] == s.course.id;
      }
    }
  }
}

module TimelineOffsetExample {
  import opened Wrappers
  import opened Strings
  import opened TimelineClassification

  /** Five enrolled courses c1..c5 in the host's order; c4 and c5 start in the future. */
  function EnrolledFive(): seq<Course>
  {
    [Course(1, map[]), Course(2, map[]), Course(3, map[]), Course(4, map[]), Course(5, map[])]
  }

  /**
   * A host whose fetch skips `offset` of the five courses and whose timeline
   * filter keeps the future ones (c4 and c5), nulling the others, after
   * looking at every fetched course.
   */
  function FiveCourseHost(): Host
  {
    Host(
      [], [],
      (s: Option<string>) => "",
      (req: FetchRequest) => if 0 <= req.offset <= 5 then EnrolledFive()[req.offset..] else [],
      (f: FilterRequest, got: seq<Course>) =>
        FilterResult(seq(|got|, i requires 0 <= i < |got| => if got[i].id >= 4 then Some(got[i]) else None), |got|))
  }

  /**
   * The offset applies before classification: for a host whose fetch at
   * offset 1 skips c1 and whose timeline filter keeps c4 and c5 after
   * looking at all four fetched courses, asking for future courses at
   * offset 1 returns c4 and c5 and gives 5 as the next offset.
   */
  lemma OffsetCountsUnfilteredCourses(p: Params, host: Host)
    requires p.classification == "future" && p.offset == 1 && host.favourites == []
    requires forall req: FetchRequest :: req.offset == 1 ==>
      host.fetch(req) == [Course(2, map[]), Course(3, map[]), Course(4, map[]), Course(5, map[])]
    requires forall f: FilterRequest :: f.ByTimeline? ==>
      host.filter(f, [Course(2, map[]), Course(3, map[]), Course(4, map[]), Course(5, map[])])
        == FilterResult([None, None, Some(Course(4, map[])), Some(Course(5, map[]))], 4)
    ensures Execute(p, host)
      == Success(Response([CourseSummary(Course(4, map[]), false), CourseSummary(Course(5, map[]), false)], 5))
  {
    var c4, c5 := Course(4, map[]), Course(5, map[]);
    assert ClassificationName(Future) == p.classification;
    FutureRequestFiltered(p, host);
    ExecuteResponse(p, host);
    DropTwoNulls(c4, c5);
    SummariseNoFavourites(c4, c5);
  }

  /** The host of the example filters the fetched courses at offset 1 down to c4 and c5, having looked at 4. */
  lemma FutureRequestFiltered(p: Params, host: Host)
    requires p.offset == 1 && host.favourites == []
    requires forall req: FetchRequest :: req.offset == 1 ==>
      host.fetch(req) == [Course(2, map[]), Course(3, map[]), Course(4, map[]), Course(5, map[])]
    requires forall f: FilterRequest :: f.ByTimeline? ==>
      host.filter(f, [Course(2, map[]), Course(3, map[]), Course(4, map[]), Course(5, map[])])
        == FilterResult([None, None, Some(Course(4, map[])), Some(Course(5, map[]))], 4)
    ensures var fields := Join(RequiredProperties(ExporterFields, p.requiredfields), ',');
      var courses := host.fetch(FetchRequestFor(Future, p.offset, p.sort, fields, host.hiddencourses,
                                                host.cleanText(p.searchvalue)));
      host.filter(FilterRequestFor(Future, FavouriteCourseIds(host.favourites), p.customfieldname,
                                   p.customfieldvalue, p.limit), courses)
        == FilterResult([None, None, Some(Course(4, map[])), Some(Course(5, map[]))], 4)
  {
    var fields := Join(RequiredProperties(ExporterFields, p.requiredfields), ',');
    var req := FetchRequestFor(Future, p.offset, p.sort, fields, host.hiddencourses, host.cleanText(p.searchvalue));
    assert host.fetch(req) == [Course(2, map[]), Course(3, map[]), Course(4, map[]), Course(5, map[])];
    assert FavouriteCourseIds(host.favourites) == [];
    assert FilterRequestFor(Future, [], p.customfieldname, p.customfieldvalue, p.limit).ByTimeline?;
  }

  /** The five-course host is such a host. */
  lemma FiveCourseHostSkipsOne(p: Params)
    requires p.classification == "future" && p.offset == 1
    ensures Execute(p, FiveCourseHost())
      == Success(Response([CourseSummary(Course(4, map[]), false), CourseSummary(Course(5, map[]), false)], 5))
  {
    forall req: FetchRequest | req.offset == 1
      ensures FiveCourseHost().fetch(req) == [Course(2, map[]), Course(3, map[]), Course(4, map[]), Course(5, map[])]
    {
      FetchSkipsOne(req);
    }
    forall f: FilterRequest | f.ByTimeline?
      ensures FiveCourseHost().filter(f, [Course(2, map[]), Course(3, map[]), Course(4, map[]), Course(5, map[])])
        == FilterResult([None, None, Some(Course(4, map[])), Some(Course(5, map[]))], 4)
    {
      FutureFilterKeeps(f);
    }
    OffsetCountsUnfilteredCourses(p, FiveCourseHost());
  }

  lemma FetchSkipsOne(req: FetchRequest)
    requires req.offset == 1
    ensures FiveCourseHost().fetch(req) == [Course(2, map[]), Course(3, map[]), Course(4, map[]), Course(5, map[])]
  {
  }

  lemma FutureFilterKeeps(f: FilterRequest)
    ensures var got := [Course(2, map[]), Course(3, map[]), Course(4, map[]), Course(5, map[])];
      FiveCourseHost().filter(f, got)
        == FilterResult([None, None, Some(Course(4, map[])), Some(Course(5, map[]))], 4)
  {
  }

  lemma SummariseNoFavourites(a: Course, b: Course)
    ensures SummariseAll([a, b], []) == [CourseSummary(a, false), CourseSummary(b, false)]
  {
    var r := SummariseAll([a, b], []);
    assert r[0] == CourseSummary(a, false) && r[1] == CourseSummary(b, false);
  }

  lemma DropTwoNulls(c4: Course, c5: Course)
    ensures DropNulls([None, None, Some(c4), Some(c5)]) == [c4, c5]
  {
    DropNullsCons(None, [None, Some(c4), Some(c5)]);
    DropNullsCons(None, [Some(c4), Some(c5)]);
    DropNullsCons(Some(c4), [Some(c5)]);
    DropNullsCons(Some(c5), []);
  }
}
