/**
 Properties of handling a sequence of events one at a time, in order: which keys the
 table holds, which value each holds, and the insert-then-get round trip.
 */
module HandlerTraces {
  import opened DataController

  /** One delivered event together with what the outside world did while it was handled. */
  datatype Delivery = Delivery(ev: Event, fx: Effects)

  /** True when handling `d` writes the key `id`. */
  predicate WritesKey(d: Delivery, id: string)
  {
    d.ev.eventType == "insert" && Writes(d.ev.data, d.fx) && d.ev.data.req.id == id
  }

  /** No delivery of `trace` writes `id`. */
  predicate Untouched(trace: seq<Delivery>, id: string)
  {
    forall i :: 0 <= i < |trace| ==> !WritesKey(trace[i], id)
  }

  /** The ids the deliveries of `trace` write. */
  function WrittenIds(trace: seq<Delivery>): (ids: set<string>)
    ensures forall id :: id in ids <==> !Untouched(trace, id)
  {
    if trace == [] then {}
    else
      var d := trace[0];
      var rest := WrittenIds(trace[1..]);
      assert forall id :: Untouched(trace, id) <==> !WritesKey(d, id) && Untouched(trace[1..], id) by {
        forall id ensures Untouched(trace, id) <==> !WritesKey(d, id) && Untouched(trace[1..], id) {
          if !WritesKey(d, id) && Untouched(trace[1..], id) {
            forall i | 0 <= i < |trace| ensures !WritesKey(trace[i], id) {
              if i > 0 { assert trace[i] == trace[1..][i - 1]; }
            }
          }
        }
      }
      if d.ev.eventType == "insert" && Writes(d.ev.data, d.fx) then rest + {d.ev.data.req.id} else rest
  }

  /** The table after the handler has processed the deliveries of `trace`. The keys it holds
      are exactly those it held before and those the trace wrote. */
  function Run(store: Store, trace: seq<Delivery>): (s: Store)
    ensures s.Keys == store.Keys + WrittenIds(trace)
    decreases |trace|
  {
    if trace == [] then store
    else Run(Handle(store, trace[0].ev, trace[0].fx).store, trace[1..])
  }

  /** Handling one more delivery after a trace is handling the longer trace. */
  lemma {:induction false} RunSnoc(store: Store, trace: seq<Delivery>, d: Delivery)
    ensures Run(store, trace + [d]) == Handle(Run(store, trace), d.ev, d.fx).store
    decreases |trace|
  {
    if trace != [] {
      assert (trace + [d])[1..] == trace[1..] + [d];
      RunSnoc(Handle(store, trace[0].ev, trace[0].fx).store, trace[1..], d);
    }
  }

  /** Reference definition of what the table holds for `id` after `trace`: the embeddings of
      the last delivery that wrote `id`, or else what the table held before. */
  function LastWrite(store: Store, trace: seq<Delivery>, id: string): Option<string>
  {
    if trace == [] then (if id in store then Some(store[id]) else None)
    else if WritesKey(trace[|trace| - 1], id) then Some(trace[|trace| - 1].ev.data.req.embeddings)
    else LastWrite(store, trace[..|trace| - 1], id)
  }

  /** Last write wins: handling the trace leaves in the table, for every id, exactly the value
      of the last write of that id, or the earlier value when the trace never wrote it. */
  lemma {:induction false} RunIsLastWrite(store: Store, trace: seq<Delivery>, id: string)
    ensures id in Run(store, trace) <==> LastWrite(store, trace, id).Some?
    ensures id in Run(store, trace) ==> Run(store, trace)[id] == LastWrite(store, trace, id).value
    decreases |trace|
  {
    if trace != [] {
      var front, d := trace[..|trace| - 1], trace[|trace| - 1];
      assert trace == front + [d];
      RunSnoc(store, front, d);
      RunIsLastWrite(store, front, id);
    }
  }

  /** A trace that never writes `id` leaves its presence and its value as they were. */
  lemma {:induction false} UntouchedKeyKept(store: Store, trace: seq<Delivery>, id: string)
    requires Untouched(trace, id)
    ensures id in Run(store, trace) <==> id in store
    ensures id in store ==> Run(store, trace)[id] == store[id]
    decreases |trace|
  {
    if trace != [] {
      var s1 := Handle(store, trace[0].ev, trace[0].fx).store;
      assert !WritesKey(trace[0], id);
      assert Untouched(trace[1..], id) by {
        forall i | 0 <= i < |trace[1..]| ensures !WritesKey(trace[1..][i], id) {
          assert trace[1..][i] == trace[i + 1];
        }
      }
      UntouchedKeyKept(s1, trace[1..], id);
    }
  }

  /** The event that inserts `embeddings` under `id`. */
  function InsertEvent(id: string, embeddings: string): Event
  {
    Event("insert", Parsed(Request(id, embeddings)))
  }

  /** The event that gets `id` (the embeddings of a get request are ignored). */
  function GetEvent(id: string): Event
  {
    Event("get", Parsed(Request(id, "")))
  }

  /** Round trip: after a successful write of `(id, e)` — whether or not its reply could be
      encoded — and any later events that do not write `id`, a get of `id` replies "Success"
      with `e`. */
  lemma InsertThenGet(store: Store, id: string, e: string, insertFx: Effects, later: seq<Delivery>)
    requires id != "" && e != "" && insertFx.storeError.None?
    requires Untouched(later, id)
    ensures var s1 := Handle(store, InsertEvent(id, e), insertFx).store;
            Handle(Run(s1, later), GetEvent(id), Effects(None, None)).outcome == Reply(FoundReply(e))
  {
    var s1 := Handle(store, InsertEvent(id, e), insertFx).store;
    UntouchedKeyKept(s1, later, id);
  }

  /** Two inserts of the same id followed by a get return the second payload. */
  lemma SecondInsertWins(store: Store, id: string, e1: string, e2: string)
    requires id != "" && e1 != "" && e2 != ""
    ensures var trace := [Delivery(InsertEvent(id, e1), Effects(None, None)),
                          Delivery(InsertEvent(id, e2), Effects(None, None))];
            Handle(Run(store, trace), GetEvent(id), Effects(None, None)).outcome == Reply(FoundReply(e2))
  {
    var d1 := Delivery(InsertEvent(id, e1), Effects(None, None));
    var d2 := Delivery(InsertEvent(id, e2), Effects(None, None));
    RunIsLastWrite(store, [d1, d2], id);
    assert [d1, d2][..1] == [d1];
  }

  /** A get of an id that the table did not hold and that no later event wrote is a 400
      "id not found in db". */
  lemma NeverInsertedNotFound(store: Store, trace: seq<Delivery>, id: string, fx: Effects)
    requires id != "" && id !in store
    requires Untouched(trace, id)
    ensures Handle(Run(store, trace), GetEvent(id), fx).outcome == Status(400, NotFoundMessage)
  {
    UntouchedKeyKept(store, trace, id);
  }

  /** With no failures, a get of a non-empty id after a trace finds a record exactly when the
      id was in the table at the start or some delivery of the trace wrote it. */
  lemma GetFindsIffWritten(store: Store, trace: seq<Delivery>, id: string)
    requires id != ""
    ensures Handle(Run(store, trace), GetEvent(id), Effects(None, None)).outcome.Reply?
            <==> id in store || !Untouched(trace, id)
  {
  }
}
