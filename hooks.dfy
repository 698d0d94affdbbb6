/**
 * The client's data hooks: the cache key and URL of the list query, and how
 * the list query and the create mutation read the server's answers.
 *
 * `fetch` is replaced by the response it yields, `encodeURIComponent` by a
 * function parameter, and the cache by the keys it is addressed with.
 */
module DowntimeHooks {
  import opened Wrappers
  import opened Seqs
  import opened Schema
  import opened SharedRoutes

  /** An element of the array the query key is built from. */
  datatype KeyPart = Str(s: string) | Undefined

  /** `Boolean(v)`: the empty string and `undefined` are falsy. */
  predicate Truthy(v: KeyPart)
  {
    v.Str? && v.s != ""
  }

  function SearchPart(search: Option<string>): (part: KeyPart)
  {
    if search.Some? then Str(search.value) else Undefined
  }

  /** Filtering a truthy head and a second part keeps the second part only when it is truthy. */
  lemma KeyFilter(head: KeyPart, part: KeyPart)
    requires Truthy(head)
    ensures Filter([head, part], Truthy) == if Truthy(part) then [head, part] else [head]
  {
    FilterPair(head, part, Truthy);
  }

  /** `[path, search].filter(Boolean)` for a non-empty path. */
  function KeyOf(path: string, search: Option<string>): (key: seq<KeyPart>)
    requires path != ""
    ensures search.None? || search == Some("") ==> key == [Str(path)]
    ensures search.Some? && search.value != "" ==> key == [Str(path), Str(search.value)]
  {
    var head, part := Str(path), SearchPart(search);
    KeyFilter(head, part);
    Filter([head, part], Truthy)
  }

  /** The list query's key: the path alone unless there is a non-empty search. */
  function QueryKey(search: Option<string>): (key: seq<KeyPart>)
    ensures search.None? || search == Some("") ==> key == [Str(DowntimeCodesPath)]
    ensures search.Some? && search.value != "" ==> key == [Str(DowntimeCodesPath), Str(search.value)]
    ensures forall k :: 0 <= k < |key| ==> Truthy(key[k])
  {
    assert DowntimeCodesPath[0] == '/';
    KeyOf(DowntimeCodesPath, search)
  }

  /** The key that a successful create invalidates. */
  const InvalidatedKey: seq<KeyPart> := [Str(DowntimeCodesPath)]

  /** The invalidated key is a prefix of every list query's key, so a successful
      create marks every cached list stale, whatever its search. */
  lemma InvalidationCoversEveryList(search: Option<string>)
    ensures InvalidatedKey <= QueryKey(search)
  {
  }

  /** The URL the list query fetches: the bare path for a falsy search, else the
      path with the encoded search as the `search` query parameter. */
  function ListUrl(search: Option<string>, encode: string -> string): (url: string)
    ensures search.None? || search == Some("") ==> url == DowntimeCodesPath
    ensures search.Some? && search.value != "" ==> url == DowntimeCodesPath + "?search=" + encode(search.value)
  {
    if search.Some? && search.value != "" then DowntimeCodesPath + "?search=" + encode(search.value)
    else DowntimeCodesPath
  }

  /** Searches that share a cache entry fetch the same URL, and searches that
      fetch different URLs have different cache entries. */
  lemma KeyDeterminesUrl(a: Option<string>, b: Option<string>, encode: string -> string)
    requires QueryKey(a) == QueryKey(b)
    ensures ListUrl(a, encode) == ListUrl(b, encode)
  {
    var ka, kb := QueryKey(a), QueryKey(b);
    if a.Some? && a.value != "" {
      assert |ka| == 2 && ka[1] == Str(a.value);
      assert b.Some? && b.value == a.value;
    }
  }

  /** Distinct non-empty searches are cached under distinct keys. */
  lemma DistinctSearchesDistinctKeys(a: string, b: string)
    requires a != "" && b != "" && a != b
    ensures QueryKey(Some(a)) != QueryKey(Some(b))
  {
    assert QueryKey(Some(a))[1] == Str(a);
  }

  /** A response body as the client sees it. */
  datatype ResponseBody =
    | CodeList(items: seq<DowntimeCode>)                 // a JSON array of records
    | CodeRecord(record: DowntimeCode)                   // a JSON object holding one record
    | ErrorObject(message: string, field: Option<string>) // a JSON object with a string `message`
    | OtherJson                                          // any other JSON value
    | NotJson                                            // a body `res.json()` cannot parse

  datatype HttpResponse = HttpResponse(status: int, body: ResponseBody)

  /** `res.ok`: a status in the 200-299 range. */
  predicate Ok(r: HttpResponse)
  {
    200 <= r.status <= 299
  }

  /** Why a query or mutation fails. */
  datatype ClientError =
    | Message(text: string)  // an `Error` thrown with this message
    | SchemaMismatch         // a zod error from parsing a body or the input
    | MalformedJson          // the body is not JSON

  const ListFailureMessage: string := "Failed to fetch downtime codes"
  const CreateFailureMessage: string := "Failed to create downtime code"

  datatype ListOutcome = Loaded(codes: seq<DowntimeCode>) | ListFailed(error: ClientError)

  /** The list query's function, given the response: a non-ok status fails with a
      fixed message without the body being read; an ok body must be a JSON array,
      whose elements are accepted unchecked. */
  function ListOutcomeOf(r: HttpResponse): (o: ListOutcome)
    ensures !Ok(r) ==> o == ListFailed(Message(ListFailureMessage))
    ensures o.Loaded? <==> Ok(r) && r.body.CodeList?
    ensures o.Loaded? ==> o.codes == r.body.items
  {
    if !Ok(r) then ListFailed(Message(ListFailureMessage))
    else match r.body
      case CodeList(items) => Loaded(items)
      case NotJson => ListFailed(MalformedJson)
      case _ => ListFailed(SchemaMismatch)
  }

  /** A non-ok answer never reaches the data, whatever its body. */
  lemma ListErrorIgnoresBody(status: int, b1: ResponseBody, b2: ResponseBody)
    requires !(200 <= status <= 299)
    ensures ListOutcomeOf(HttpResponse(status, b1)) == ListOutcomeOf(HttpResponse(status, b2))
  {
  }

  datatype CreateOutcome = CreateSucceeded(body: ResponseBody) | CreateFailed(error: ClientError)

  /** How the mutation reads the create answer: 400 carries the server's message,
      any other non-ok status the fixed message, and an ok answer is accepted
      as it is (the 201 schema checks nothing) once it parses as JSON. */
  function CreateOutcomeOf(r: HttpResponse): (o: CreateOutcome)
    ensures r.status == 400 && r.body.ErrorObject? ==> o == CreateFailed(Message(r.body.message))
    ensures !Ok(r) && r.status != 400 ==> o == CreateFailed(Message(CreateFailureMessage))
    ensures o.CreateSucceeded? <==> Ok(r) && !r.body.NotJson?
    ensures o.CreateSucceeded? ==> o.body == r.body
  {
    if !Ok(r) then
      if r.status == 400 then
        match r.body
        case ErrorObject(message, _) => CreateFailed(Message(message))
        case NotJson => CreateFailed(MalformedJson)
        case _ => CreateFailed(SchemaMismatch)
      else CreateFailed(Message(CreateFailureMessage))
    else if r.body.NotJson? then CreateFailed(MalformedJson)
    else CreateSucceeded(r.body)
  }

  /** One run of the create mutation: the request it sends, if any, how it ends,
      and whether it invalidates the cached lists. */
  datatype MutationRun = MutationRun(request: Option<CreateRequest>, outcome: CreateOutcome, invalidatesLists: bool)

  /** A POST the create mutation sends: the URL it goes to and the validated body. */
  datatype CreateRequest = CreateRequest(url: string, body: InsertDowntimeCode)

  /** The create mutation, with the server's answer to each request given as
      `respond`. The input is validated first and invalid input is never sent;
      the lists are invalidated exactly when the mutation succeeds. */
  function CreateMutation(validation: Validation, respond: InsertDowntimeCode -> HttpResponse): (run: MutationRun)
    ensures validation.Invalid? ==> run.request.None? && run.outcome == CreateFailed(SchemaMismatch)
    ensures validation.Valid? ==>
      run.request == Some(CreateRequest(DowntimeCodesPath, validation.input))
      && run.outcome == CreateOutcomeOf(respond(validation.input))
    ensures run.invalidatesLists <==> run.outcome.CreateSucceeded?
  {
    match validation
    case Invalid(_, _) => MutationRun(None, CreateFailed(SchemaMismatch), false)
    case Valid(input) =>
      var outcome := CreateOutcomeOf(respond(input));
      MutationRun(Some(CreateRequest(DowntimeCodesPath, input)), outcome, outcome.CreateSucceeded?)
  }
}
