/**
 * The HTTP handlers of the server and its start-up seeding.
 *
 * The list handler turns the `search` query parameter into a storage query;
 * the create handler turns the outcome of validation and of the insert into a
 * response; seeding fills an empty table with the fixed list of codes.
 * Express itself, JSON encoding and the request body's validator are not part
 * of the model: validation arrives as a `Validation` value.
 */
module ServerRoutes {
  import opened Wrappers
  import opened Text
  import opened Seqs
  import opened SqlLike
  import opened Schema
  import opened Storage
  import opened SharedRoutes
  import opened Seeds

  /** `search || ""`: the query the list handler hands to storage. */
  function ListQuery(search: Option<string>): (q: string)
    ensures q == "" <==> search.None? || search.value == ""
    ensures search.Some? ==> q == search.value
  {
    if search.Some? then search.value else ""
  }

  /** GET /api/downtime-codes: always 200 with the search result; an absent or
      empty `search` lists the whole table. */
  method HandleList(storage: DatabaseStorage, search: Option<string>) returns (status: int, body: seq<DowntimeCode>)
    ensures status == 200
    ensures body == storage.SearchDowntimeCodes(ListQuery(search))
    ensures search.None? || search == Some("") ==> body == storage.rows
    ensures IsSubsequence(body, storage.rows)
  {
    body := storage.SearchDowntimeCodes(ListQuery(search));
    status := 200;
  }

  /** `String(segment)` for one element of an issue's path. */
  function SegmentText(segment: PathSegment): (text: string)
  {
    match segment
    case Key(name) => name
    case Index(position) => NatToDecimal(position)
  }

  /** `path.join('.')`. */
  function JoinPath(path: seq<PathSegment>): (r: string)
    ensures path == [] ==> r == ""
    ensures |path| == 1 ==> r == SegmentText(path[0])
  {
    if path == [] then ""
    else if |path| == 1 then SegmentText(path[0])
    else SegmentText(path[0]) + "." + JoinPath(path[1..])
  }

  /** Joining a longer path puts one `.` between the joined prefix and the new segment. */
  lemma {:induction false} JoinPathAppend(path: seq<PathSegment>, segment: PathSegment)
    requires path != []
    ensures JoinPath(path + [segment]) == JoinPath(path) + "." + SegmentText(segment)
    decreases |path|
  {
    var p := path + [segment];
    assert p[0] == path[0] && p[1..] == path[1..] + [segment];
    if |path| > 1 {
      JoinPathAppend(path[1..], segment);
    }
  }

  /** The answer to POST /api/downtime-codes. */
  datatype CreateResponse =
    | Created(record: DowntimeCode)         // 201 with the stored row
    | BadRequest(body: ValidationErrorBody) // 400 with the first validation issue
    | Rethrown(error: DbError)              // left to the server's error handling

  /** The 400 body for a failed validation: the first issue's message and its
      path joined by dots. */
  function ValidationFailureBody(first: Issue): (b: ValidationErrorBody)
    ensures b.message == first.message && b.field == Some(JoinPath(first.path))
    ensures first.path == [] ==> b.field == Some("")
    ensures first.path == [Key("code")] ==> b.field == Some("code")
  {
    ValidationErrorBody(first.message, Some(JoinPath(first.path)))
  }

  /** POST /api/downtime-codes. Invalid input is answered with 400 before storage
      is touched; valid input is inserted and answered with 201, and any error
      of the insert, such as a duplicate code, is rethrown and never becomes 400. */
  method HandleCreate(storage: DatabaseStorage, validation: Validation) returns (response: CreateResponse)
    requires storage.Valid()
    modifies storage
    ensures storage.Valid()
    ensures validation.Invalid? ==>
      && response == BadRequest(ValidationFailureBody(validation.first))
      && storage.rows == old(storage.rows) && storage.nextId == old(storage.nextId)
    ensures validation.Valid? ==>
      var outcome := InsertOutcome(old(storage.rows), validation.input, old(storage.nextId));
      response == if outcome.Success? then Created(outcome.value) else Rethrown(outcome.error)
    ensures validation.Valid? ==>
      storage.nextId == if StoredRow(validation.input, old(storage.nextId)).Success? then old(storage.nextId) + 1 else old(storage.nextId)
    ensures response.Created? ==> storage.rows == old(storage.rows) + [response.record]
    ensures !response.Created? ==> storage.rows == old(storage.rows)
    ensures response.BadRequest? <==> validation.Invalid?
  {
    match validation
    case Invalid(first, _) =>
      response := BadRequest(ValidationFailureBody(first));
    case Valid(input) =>
      var result := storage.CreateDowntimeCode(input);
      match result
      case Success(record) =>
        response := Created(record);
      case Failure(error) =>
        response := Rethrown(error);
  }

  /** Start-up seeding: a table with rows is left alone; an empty table receives
      the seed list in order, every insert succeeding. */
  method SeedIfEmpty(storage: DatabaseStorage)
    requires storage.Valid()
    modifies storage
    ensures storage.Valid()
    ensures old(storage.rows) != [] ==> storage.rows == old(storage.rows) && storage.nextId == old(storage.nextId)
    ensures old(storage.rows) == [] ==>
      storage.rows == SeededTable(old(storage.nextId)) && storage.nextId == old(storage.nextId) + SeedCount
  {
    var existing := storage.GetAllDowntimeCodes();
    if |existing| == 0 {
      var seeds := SeedList();
      ghost var start := storage.nextId;
      SeedCodesDistinct();
      SeedsFitColumns();
      for i := 0 to |seeds|
        invariant storage.Valid()
        invariant storage.nextId == start + i
        invariant storage.rows == Enumerate(seeds[..i], start)
      {
        assert !CodeTaken(storage.rows, seeds[i].code);
        assert FitsColumns(ToRecord(seeds[i], 0));
        var result := storage.CreateDowntimeCode(seeds[i]);
        assert result == Success(ToRecord(seeds[i], start + i));
        assert Enumerate(seeds[..i + 1], start) == Enumerate(seeds[..i], start) + [ToRecord(seeds[i], start + i)];
      }
      assert seeds[..|seeds|] == seeds;
    }
  }

  /** After seeding, searching for "spring" finds D17 ("... GUARD SPRING CUT")
      and D63 ("CUTTER SPRING CUT"). */
  lemma SpringSearchFindsD17AndD63(s: DatabaseStorage, start: int)
    requires s.rows == SeededTable(start)
    ensures s.rows[16].code == "D17" && s.rows[16] in s.SearchDowntimeCodes("spring")
    ensures s.rows[62].code == "D63" && s.rows[62] in s.SearchDowntimeCodes("spring")
  {
    SpringIsPlain();
    D17MentionsSpring(s.rows, start);
    D63MentionsSpring(s.rows, start);
    FindsBySubstring(s, "spring", s.rows[16], 27);
    FindsBySubstring(s, "spring", s.rows[62], 7);
  }

  lemma SpringIsPlain()
    ensures Lower("spring") == "spring" && IsPlain("spring")
  {
  }

  lemma D17MentionsSpring(t: seq<DowntimeCode>, start: int)
    requires t == SeededTable(start)
    ensures t[16].code == "D17" && OccursAt(Lower(t[16].description), "spring", 27)
  {
    var l := SeedList();
    assert t[16] == ToRecord(l[16], start + 16) && l[16] == SeedAt(16);
    assert SeedDescription(16) == "CUTTER BILLET ROLLER GUARD " + "SPRING" + " CUT";
    assert Lower("SPRING") == "spring";
    WordOccursAfterLowering("CUTTER BILLET ROLLER GUARD ", "SPRING", " CUT");
  }

  lemma D63MentionsSpring(t: seq<DowntimeCode>, start: int)
    requires t == SeededTable(start)
    ensures t[62].code == "D63" && OccursAt(Lower(t[62].description), "spring", 7)
  {
    var l := SeedList();
    assert t[62] == ToRecord(l[62], start + 62) && l[62] == SeedAt(62);
    assert SeedDescription(62) == "CUTTER " + "SPRING" + " CUT";
    assert Lower("SPRING") == "spring";
    WordOccursAfterLowering("CUTTER ", "SPRING", " CUT");
  }

  lemma WordOccursAfterLowering(before: string, word: string, after: string)
    ensures OccursAt(Lower(before + word + after), Lower(word), |before|)
  {
    LowerAppend(before + word, after);
    LowerAppend(before, word);
  }

  lemma FindsBySubstring(s: DatabaseStorage, query: string, x: DowntimeCode, at: int)
    requires query != "" && IsPlain(query) && x in s.rows
    requires OccursAt(Lower(x.description), Lower(query), at)
    ensures x in s.SearchDowntimeCodes(query)
  {
    SearchIsSubstringMatch(s, query, x);
  }
}
