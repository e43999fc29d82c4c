/**
 Properties of handling a single event: what each path replies and what it does to
 the table.
 */
module HandlerProperties {
  import opened DataController

  /** An event of any other type than "insert" or "get" gets the "error" reply and
      leaves the table alone; only a failure to encode that reply turns it into a 500. */
  lemma UnsupportedType(store: Store, ev: Event, fx: Effects)
    requires ev.eventType != "insert" && ev.eventType != "get"
    ensures Handle(store, ev, fx).store == store
    ensures fx.encodeError.None? ==> Handle(store, ev, fx).outcome == Reply(UnsupportedReply)
    ensures fx.encodeError.Some? ==> Handle(store, ev, fx).outcome.Status? && Handle(store, ev, fx).outcome.code == 500
  {
  }

  /** The answer to an event of an unsupported type does not depend on its body. */
  lemma UnsupportedIgnoresBody(store: Store, eventType: string, b1: Body, b2: Body, fx: Effects)
    requires eventType != "insert" && eventType != "get"
    ensures Handle(store, Event(eventType, b1), fx) == Handle(store, Event(eventType, b2), fx)
  {
  }

  /** An insert whose body does not decode is a 400 without a reply, and the table is untouched. */
  lemma InsertMalformed(store: Store, err: string, fx: Effects)
    ensures Handle(store, Event("insert", Malformed(err)), fx)
            == Step(Status(400, "failed to convert data: " + err), store)
  {
  }

  /** An insert with an empty id or empty embeddings is a 400 before the table is written. */
  lemma InsertInvalid(store: Store, req: Request, fx: Effects)
    requires req.id == "" || req.embeddings == ""
    ensures Handle(store, Event("insert", Parsed(req)), fx) == Step(Status(400, InsertInvalidMessage), store)
  {
  }

  /** A successful insert is an upsert: the id now holds the embeddings, whatever it held
      before, every other key keeps its value, and the reply says "Success" with no embeddings. */
  lemma InsertUpserts(store: Store, req: Request, fx: Effects)
    requires ValidInsert(req) && fx.storeError.None?
    ensures var s := Handle(store, Event("insert", Parsed(req)), fx);
            req.id in s.store && s.store[req.id] == req.embeddings
            && s.store.Keys == store.Keys + {req.id}
            && (forall k :: k in store && k != req.id ==> s.store[k] == store[k])
            && (fx.encodeError.None? ==> s.outcome == Reply(InsertedReply))
  {
  }

  /** A failed write is a 500 and changes nothing. */
  lemma InsertStoreFailure(store: Store, req: Request, fx: Effects)
    requires ValidInsert(req) && fx.storeError.Some?
    ensures var s := Handle(store, Event("insert", Parsed(req)), fx);
            s.store == store
            && s.outcome == Status(500, "error while inserting data in database: " + fx.storeError.value)
  {
  }

  /** A reply that cannot be encoded after a successful write is a 500, yet the write stays. */
  lemma InsertEncodeFailure(store: Store, req: Request, fx: Effects)
    requires ValidInsert(req) && fx.storeError.None? && fx.encodeError.Some?
    ensures var s := Handle(store, Event("insert", Parsed(req)), fx);
            s.store == store[req.id := req.embeddings] && s.outcome.Status? && s.outcome.code == 500
  {
  }

  /** A get never changes the table. */
  lemma GetReadOnly(store: Store, body: Body, fx: Effects)
    ensures Handle(store, Event("get", body), fx).store == store
  {
  }

  /** A get whose body does not decode, or whose id is empty, is a 400 decided without
      reading the table: its answer is the same whatever the table holds and whatever
      the store call would have done. */
  lemma GetRejectedWithoutReading(s1: Store, s2: Store, body: Body, fx1: Effects, fx2: Effects)
    requires body.Malformed? || body.req.id == ""
    ensures GetOutcome(s1, body, fx1) == GetOutcome(s2, body, fx2)
    ensures body.Malformed? ==> GetOutcome(s1, body, fx1) == Status(400, "failed to convert data: " + body.err)
    ensures body.Parsed? ==> GetOutcome(s1, body, fx1) == Status(400, GetInvalidMessage)
  {
  }

  /** A get of an absent id and a get whose read fails give the same 400 "id not found in db". */
  lemma GetMiss(store: Store, req: Request, fx: Effects)
    requires ValidGet(req)
    requires req.id !in store || fx.storeError.Some?
    ensures Handle(store, Event("get", Parsed(req)), fx).outcome == Status(400, NotFoundMessage)
  {
  }

  /** A get of a present id with no failure replies "Success" with the stored embeddings. */
  lemma GetHit(store: Store, req: Request)
    requires ValidGet(req) && req.id in store
    ensures Handle(store, Event("get", Parsed(req)), Effects(None, None)).outcome
            == Reply(FoundReply(store[req.id]))
  {
  }
}
