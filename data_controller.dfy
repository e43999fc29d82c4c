/**
 Model of the data-controller event handler: one inbound event is dispatched on its
 type ("insert", "get", anything else), its body is decoded and validated, the table
 (primary key `Email` = request id, column `Template` = embeddings) is written or read,
 and the handler answers with exactly one of a reply event, a 400 or a 500.

 What the outside world decides is an input of the model: the result of decoding the
 event body (`Body`), whether the store call fails and whether encoding the reply
 fails (`Effects`).
 */
module DataController {

  datatype Option<T> = None | Some(value: T)

  /** The table, from `Email` (the request id) to `Template` (the embeddings). */
  type Store = map<string, string>

  /** CloudEvents specification version of every reply. */
  const SpecVersion: string := "1.0"
  /** Source attribute of every reply. */
  const Source: string := "data-controller"
  /** Type of the reply to a successful insert or get. */
  const SuccessType: string := "inserter"
  /** Type of the reply to an event of an unsupported type. */
  const ErrorType: string := "error"

  const SuccessMessage: string := "Success"
  const UnsupportedMessage: string := "Error, no supported event type given"
  const InsertInvalidMessage: string := "id or embeddings cannot be nil"
  const GetInvalidMessage: string := "id cannot be nil"
  const NotFoundMessage: string := "id not found in db"

  /** Decoded body of an inbound event. */
  datatype Request = Request(id: string, embeddings: string)

  /** Body of a reply; an empty `embeddings` is the field omitted from the JSON. */
  datatype Response = Response(message: string, embeddings: string)

  datatype ReplyEvent = ReplyEvent(specVersion: string, eventType: string, source: string, data: Response)

  /** What the handler returns: a reply event, or no event and an HTTP result. */
  datatype Outcome = Reply(event: ReplyEvent) | Status(code: int, message: string)

  /** The body of an event as decoding it into a `Request` turns out. */
  datatype Body = Parsed(req: Request) | Malformed(err: string)

  datatype Event = Event(eventType: string, data: Body)

  /** Failures of the store call and of encoding the reply (`None`: no failure). */
  datatype Effects = Effects(storeError: Option<string>, encodeError: Option<string>)

  /** Outcome of handling one event together with the store afterwards. */
  datatype Step = Step(outcome: Outcome, store: Store)

  /** The reply to a successful insert. */
  const InsertedReply: ReplyEvent := ReplyEvent(SpecVersion, SuccessType, Source, Response(SuccessMessage, ""))

  /** The reply to a successful get of a key holding `embeddings`. */
  function FoundReply(embeddings: string): ReplyEvent
  {
    ReplyEvent(SpecVersion, SuccessType, Source, Response(SuccessMessage, embeddings))
  }

  /** The reply to an event of an unsupported type. */
  const UnsupportedReply: ReplyEvent := ReplyEvent(SpecVersion, ErrorType, Source, Response(UnsupportedMessage, ""))

  /** Builds a reply event and encodes its data; an encoding failure is a 500. */
  function Respond(eventType: string, resp: Response, encodeError: Option<string>): (o: Outcome)
    ensures o.Reply? <==> encodeError.None?
    ensures o.Reply? ==> o.event == ReplyEvent(SpecVersion, eventType, Source, resp)
    ensures o.Status? ==> o.code == 500 && o.message == "failed to set response data: " + encodeError.value
  {
    match encodeError
    case None => Reply(ReplyEvent(SpecVersion, eventType, Source, resp))
    case Some(err) => Status(500, "failed to set response data: " + err)
  }

  /** An insert request needs a non-empty id and non-empty embeddings. */
  predicate ValidInsert(req: Request)
  {
    |req.id| != 0 && |req.embeddings| != 0
  }

  /** A get request needs a non-empty id. */
  predicate ValidGet(req: Request)
  {
    |req.id| != 0
  }

  /** True when an insert with this body and these effects writes the store. */
  predicate Writes(body: Body, fx: Effects)
  {
    body.Parsed? && ValidInsert(body.req) && fx.storeError.None?
  }

  /** Reading one key: nothing when the key is absent or the read fails. */
  function Lookup(store: Store, id: string, storeError: Option<string>): (v: Option<string>)
    ensures v.Some? <==> id in store && storeError.None?
    ensures v.Some? ==> v.value == store[id]
  {
    if storeError.None? && id in store then Some(store[id]) else None
  }

  /** Handling an "insert" event. */
  function InsertStep(store: Store, body: Body, fx: Effects): (s: Step)
    ensures s.store == if Writes(body, fx) then store[body.req.id := body.req.embeddings] else store
    ensures s.outcome.Reply? <==> Writes(body, fx) && fx.encodeError.None?
    ensures s.outcome.Reply? ==> s.outcome.event == InsertedReply
    ensures s.outcome.Status? ==> (s.outcome.code == 400 <==> !(body.Parsed? && ValidInsert(body.req)))
    ensures s.outcome.Status? ==> s.outcome.code == 400 || s.outcome.code == 500
    ensures body.Parsed? && ValidInsert(body.req) && fx.storeError.Some? ==>
              s.outcome == Status(500, "error while inserting data in database: " + fx.storeError.value)
  {
    match body
    case Malformed(err) => Step(Status(400, "failed to convert data: " + err), store)
    case Parsed(req) =>
      if !ValidInsert(req) then
        Step(Status(400, InsertInvalidMessage), store)
      else if fx.storeError.Some? then
        Step(Status(500, "error while inserting data in database: " + fx.storeError.value), store)
      else
        Step(Respond(SuccessType, Response(SuccessMessage, ""), fx.encodeError), store[req.id := req.embeddings])
  }

  /** Handling a "get" event; the store is only read. */
  function GetOutcome(store: Store, body: Body, fx: Effects): (o: Outcome)
    ensures o.Reply? <==>
              body.Parsed? && ValidGet(body.req) && body.req.id in store
              && fx.storeError.None? && fx.encodeError.None?
    ensures o.Reply? ==> o.event == FoundReply(store[body.req.id])
    ensures o.Status? ==> (o.code == 500 <==> body.Parsed? && ValidGet(body.req) && Lookup(store, body.req.id, fx.storeError).Some?)
    ensures o.Status? ==> o.code == 400 || o.code == 500
  {
    match body
    case Malformed(err) => Status(400, "failed to convert data: " + err)
    case Parsed(req) =>
      if !ValidGet(req) then
        Status(400, GetInvalidMessage)
      else
        match Lookup(store, req.id, fx.storeError)
        case None => Status(400, NotFoundMessage)
        case Some(template) => Respond(SuccessType, Response(SuccessMessage, template), fx.encodeError)
  }

  /** Handling one event of any type. */
  function Handle(store: Store, ev: Event, fx: Effects): (s: Step)
    ensures s.outcome.Reply? || s.outcome.code == 400 || s.outcome.code == 500
    ensures s.store == if ev.eventType == "insert" && Writes(ev.data, fx)
                       then store[ev.data.req.id := ev.data.req.embeddings]
                       else store
    ensures s.outcome.Reply? ==> s.outcome.event.source == Source && s.outcome.event.specVersion == SpecVersion
    ensures s.outcome.Reply? ==> s.outcome.event.eventType == (if ev.eventType in {"insert", "get"} then SuccessType else ErrorType)
  {
    if ev.eventType == "insert" then InsertStep(store, ev.data, fx)
    else if ev.eventType == "get" then Step(GetOutcome(store, ev.data, fx), store)
    else Step(Respond(ErrorType, Response(UnsupportedMessage, ""), fx.encodeError), store)
  }

  /** The receiver, holding the table the handlers write and read. */
  class Receiver {
    var store: Store

    constructor (initial: Store)
      ensures store == initial
    {
      store := initial;
    }

    /** Dispatches one event on its type. */
    method ReceiveAndReply(ev: Event, fx: Effects) returns (o: Outcome)
      modifies this
      ensures Step(o, store) == Handle(old(store), ev, fx)
    {
      if ev.eventType == "insert" {
        o := ProcessInsert(ev.data, fx);
        return;
      }
      if ev.eventType == "get" {
        o := ProcessGet(ev.data, fx);
        return;
      }
      o := Respond(ErrorType, Response(UnsupportedMessage, ""), fx.encodeError);
    }

    /** Decodes, validates and upserts one record, then replies. */
    method ProcessInsert(body: Body, fx: Effects) returns (o: Outcome)
      modifies this
      ensures Step(o, store) == InsertStep(old(store), body, fx)
    {
      if body.Malformed? {
        return Status(400, "failed to convert data: " + body.err);
      }
      var req := body.req;
      if !ValidInsert(req) {
        return Status(400, InsertInvalidMessage);
      }
      if fx.storeError.Some? {
        return Status(500, "error while inserting data in database: " + fx.storeError.value);
      }
      store := store[req.id := req.embeddings];
      o := Respond(SuccessType, Response(SuccessMessage, ""), fx.encodeError);
    }

    /** Decodes and validates a request, reads one key, then replies. */
    method ProcessGet(body: Body, fx: Effects) returns (o: Outcome)
      ensures o == GetOutcome(store, body, fx)
      ensures o.Reply? ==> body.Parsed? && body.req.id in store && o.event.data.embeddings == store[body.req.id]
    {
      if body.Malformed? {
        return Status(400, "failed to convert data: " + body.err);
      }
      var req := body.req;
      if !ValidGet(req) {
        return Status(400, GetInvalidMessage);
      }
      var template := Lookup(store, req.id, fx.storeError);
      if template.None? {
        return Status(400, NotFoundMessage);
      }
      o := Respond(SuccessType, Response(SuccessMessage, template.value), fx.encodeError);
    }
  }
}
