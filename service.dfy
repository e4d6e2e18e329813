/**
 * The two request handlers of app.py with the state they share: whether the
 * `events` collection is reachable (`events_collection is None` or not) and
 * the documents in it. The driver's outcomes (whether a connection attempt
 * succeeds, whether an insert or a query succeeds, the ObjectId an insert
 * assigns) and the clock are parameters.
 */
module Service {
  import opened Wrappers
  import Json
  import Events
  import Documents
  import Query

  /** What a handler answers, before JSON rendering. */
  datatype Reply =
    | Stored
    | Ignored(event: Option<string>)
    | Listed(events: seq<Documents.Doc>)
    | DatabaseUnavailable
    | InvalidJson
    | DatabaseError
    | InternalError

  /** The HTTP status each reply is sent with. */
  function Status(r: Reply): (s: int)
    ensures s in {200, 400, 500}
    ensures s == 200 <==> r.Stored? || r.Ignored? || r.Listed?
    ensures s == 400 <==> r == InvalidJson
  {
    match r
    case Stored => 200
    case Ignored(_) => 200
    case Listed(_) => 200
    case InvalidJson => 400
    case DatabaseUnavailable => 500
    case DatabaseError => 500
    case InternalError => 500
  }

  /** What `insert_one` did: assigned an ObjectId, or raised a driver error. */
  datatype InsertOutcome = Inserted(id: Documents.ObjectId) | WriteFailed

  /**
   * What `find().sort("timestamp", -1).limit(20)` did: returned documents, or
   * raised (a driver error or any other exception).
   */
  datatype QueryOutcome = Fetched(docs: seq<Documents.Doc>) | QueryFailed

  /** `if not payload`: no JSON at all, or a falsy JSON value. */
  predicate PayloadPresent(body: Option<Json.Value>)
    ensures PayloadPresent(body) <==> body.Some? && body.value !in Json.FALSY
  {
    body.Some? && Json.Truthy(body.value)
  }

  class WebhookService {
    var connected: bool
    var store: seq<Documents.Doc>

    /** Start-up (line 45-46): one connection attempt against a collection that may already hold documents. */
    constructor (existing: seq<Documents.Doc>, connectOk: bool)
      ensures connected == connectOk
      ensures store == existing
    {
      connected := connectOk;
      store := existing;
    }

    /** `connect_to_mongodb`: the collection handle is set on success and cleared on failure. */
    method Connect(ok: bool)
      modifies this`connected
      ensures connected == ok
    {
      connected := ok;
    }

    /** The retry at the top of both handlers: one reconnect, only when unavailable. */
    method EnsureConnected(reconnectOk: bool)
      modifies this`connected
      ensures connected == (old(connected) || reconnectOk)
    {
      if !connected {
        Connect(reconnectOk);
      }
    }

    /**
     * POST /webhook. Checks in order: storage (500), body (400), event kind
     * (200 ignored), payload shape (500), insert (500 on a driver error).
     * Only a stored reply changes the collection, by appending one document.
     */
    method Webhook(event: Option<string>, body: Option<Json.Value>, now: string,
                   reconnectOk: bool, insert: InsertOutcome) returns (reply: Reply)
      modifies this`connected, this`store
      ensures connected == (old(connected) || reconnectOk)
      ensures !connected ==> reply == DatabaseUnavailable
      ensures connected && !PayloadPresent(body) ==> reply == InvalidJson
      ensures connected && PayloadPresent(body) ==>
        var c := Events.Normalize(event, body.value, now);
        && (c.Unhandled? ==> reply == Ignored(event))
        && (c.Malformed? ==> reply == InternalError)
        && (c.Normalized? && insert.WriteFailed? ==> reply == DatabaseError)
        && (c.Normalized? && insert.Inserted? ==>
              reply == Stored && store == old(store) + [Documents.Doc(Documents.Native(insert.id), c.rec)])
      ensures reply != Stored ==> store == old(store)
      ensures Documents.AllZStamped(old(store)) ==> Documents.AllZStamped(store)
    {
      EnsureConnected(reconnectOk);
      if !connected {
        return DatabaseUnavailable;
      }
      if !PayloadPresent(body) {
        return InvalidJson;
      }
      var c := Events.Normalize(event, body.value, now);
      match c {
        case Unhandled =>
          reply := Ignored(event);
        case Malformed =>
          reply := InternalError;
        case Normalized(rec) =>
          match insert {
            case WriteFailed =>
              reply := DatabaseError;
            case Inserted(id) =>
              store := store + [Documents.Doc(Documents.Native(id), rec)];
              reply := Stored;
          }
      }
    }

    /**
     * GET /api/events: the query's result (any result the database may give:
     * the newest twenty documents, newest first), each rewritten with a
     * string `_id` and a string timestamp. The collection is left as it is.
     */
    method GetEvents(reconnectOk: bool, query: QueryOutcome) returns (reply: Reply)
      requires query.Fetched? ==> Query.IsNewest(store, query.docs)
      modifies this`connected
      ensures connected == (old(connected) || reconnectOk)
      ensures !connected ==> reply == DatabaseUnavailable
      ensures connected && query.QueryFailed? ==> reply == DatabaseError
      ensures connected && query.Fetched? ==>
        && reply.Listed?
        && |reply.events| == |query.docs|
        && forall i :: 0 <= i < |reply.events| ==> reply.events[i] == Documents.Wire(query.docs[i])
      ensures reply.Listed? ==>
        && |reply.events| == Query.Min(|store|, Query.LIMIT)
        && (|store| == 0 ==> reply.events == [])
        && forall i :: 0 <= i < |reply.events| ==> Documents.OnWire(reply.events[i])
      ensures reply.Listed? && Documents.AllZStamped(store) ==>
        forall i :: 0 <= i < |reply.events| ==> Documents.ZStamped(reply.events[i])
    {
      EnsureConnected(reconnectOk);
      if !connected {
        return DatabaseUnavailable;
      }
      if query.QueryFailed? {
        return DatabaseError;
      }
      var fetched := query.docs;
      var events := new Documents.Doc[|fetched|](i requires 0 <= i < |fetched| => fetched[i]);
      Documents.WireAll(events);
      reply := Listed(events[..]);
      ListingIsWireForm(store, fetched, reply.events);
    }
  }

  /**
   * A listing built by the wire loop from a query result of at most twenty
   * documents of the collection: at most twenty documents, none at all for
   * an empty collection, each with a string `_id` and a string timestamp, and
   * the timestamps end with "Z" whenever the collection's textual timestamps
   * do.
   */
  lemma ListingIsWireForm(store: seq<Documents.Doc>, fetched: seq<Documents.Doc>, events: seq<Documents.Doc>)
    requires |fetched| <= Query.LIMIT
    requires multiset(fetched) <= multiset(store)
    requires |events| == |fetched|
    requires forall i :: 0 <= i < |events| ==> events[i] == Documents.Wire(fetched[i])
    ensures |events| <= Query.LIMIT
    ensures |store| == 0 ==> events == []
    ensures forall i :: 0 <= i < |events| ==> Documents.OnWire(events[i])
    ensures Documents.AllZStamped(store) ==> forall i :: 0 <= i < |events| ==> Documents.ZStamped(events[i])
  {
    if |store| == 0 {
      assert |multiset(fetched)| == 0;
    }
    forall i | 0 <= i < |events|
      ensures Documents.AllZStamped(store) ==> Documents.ZStamped(events[i])
    {
      Documents.WireIdempotent(fetched[i]);
      if Documents.AllZStamped(store) {
        assert fetched[i] in multiset(store);
        var j :| 0 <= j < |store| && store[j] == fetched[i];
      }
    }
  }
}
