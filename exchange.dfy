/**
 * How the server's answers reach the client's hooks: the server's handler
 * results put on the wire, and the create path followed from the form's
 * input through both ends.
 */
module Exchange {
  import opened Wrappers
  import opened Schema
  import opened Storage
  import opened SharedRoutes
  import opened ServerRoutes
  import opened DowntimeHooks

  /** The HTTP answer for a create handler result. An error rethrown by the
      handler is answered by the server's default error handling, taken here
      as status 500 with a body that is not JSON. */
  function CreateWire(response: CreateResponse): (r: HttpResponse)
    ensures response.Created? <==> Ok(r)
    ensures r.status == 400 <==> response.BadRequest?
  {
    match response
    case Created(record) => HttpResponse(201, CodeRecord(record))
    case BadRequest(body) => HttpResponse(400, ErrorObject(body.message, body.field))
    case Rethrown(_) => HttpResponse(500, NotJson)
  }

  /** What the mutation makes of each server answer: the stored record, the first
      validation message, or the fixed failure message for a rethrown error. */
  lemma ClientReadsCreateAnswer(response: CreateResponse)
    ensures response.Created? ==> CreateOutcomeOf(CreateWire(response)) == CreateSucceeded(CodeRecord(response.record))
    ensures response.BadRequest? ==> CreateOutcomeOf(CreateWire(response)) == CreateFailed(Message(response.body.message))
    ensures response.Rethrown? ==> CreateOutcomeOf(CreateWire(response)) == CreateFailed(Message(CreateFailureMessage))
  {
  }

  /** The list answer is read back as exactly the rows the server sent. */
  lemma ClientReadsListAnswer(body: seq<DowntimeCode>)
    ensures ListOutcomeOf(HttpResponse(200, CodeList(body))) == Loaded(body)
  {
  }

  /** A create submitted from the client: invalid input stops before any request;
      otherwise the server handles it and the client reads the answer. A code
      that is already taken ends in the fixed failure message with the table as
      it was. */
  method SubmitCreate(storage: DatabaseStorage, validation: Validation) returns (outcome: CreateOutcome)
    requires storage.Valid()
    modifies storage
    ensures storage.Valid()
    ensures validation.Invalid? ==> outcome == CreateFailed(SchemaMismatch) && storage.rows == old(storage.rows)
    ensures validation.Valid? && CodeTaken(old(storage.rows), validation.input.code) ==>
      outcome == CreateFailed(Message(CreateFailureMessage)) && storage.rows == old(storage.rows)
    ensures outcome.CreateSucceeded? ==>
      exists record :: outcome == CreateSucceeded(CodeRecord(record)) && storage.rows == old(storage.rows) + [record]
    ensures !outcome.CreateSucceeded? ==> storage.rows == old(storage.rows)
    ensures validation.Valid? && FitsColumns(ToRecord(validation.input, old(storage.nextId)))
            && !CodeTaken(old(storage.rows), validation.input.code) ==>
      outcome == CreateSucceeded(CodeRecord(ToRecord(validation.input, old(storage.nextId))))
    ensures validation.Invalid? ==> storage.nextId == old(storage.nextId)
    ensures validation.Valid? ==>
      var o := InsertOutcome(old(storage.rows), validation.input, old(storage.nextId));
      outcome == if o.Success? then CreateSucceeded(CodeRecord(o.value)) else CreateFailed(Message(CreateFailureMessage))
    ensures validation.Valid? ==>
      storage.nextId == if StoredRow(validation.input, old(storage.nextId)).Success? then old(storage.nextId) + 1 else old(storage.nextId)
  {
    if validation.Invalid? {
      outcome := CreateFailed(SchemaMismatch);
    } else {
      var response := HandleCreate(storage, validation);
      ClientReadsCreateAnswer(response);
      outcome := CreateOutcomeOf(CreateWire(response));
    }
  }
}
