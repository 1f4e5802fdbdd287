/**
 * The registry of live server-sent-events subscribers (the global sseClients
 * map with its mutex) and the non-blocking fan-out broadcastSSERaw.
 *
 * Each subscriber owns an unbuffered channel, so a send succeeds only when
 * the subscriber's goroutine is parked in its select, ready to receive. The
 * model keeps, per registered id, the messages handed over so far (its log)
 * and the set of ids that are ready. A successful send hands the message
 * over and the receiver is busy writing its frame until it waits again.
 * Every operation runs under the mutex, so each is one atomic step here.
 */
module Registry {

  import opened Wrappers
  import opened Events
  import Sse

  type Id = string

  datatype Subscribers = Subscribers(logs: map<Id, seq<string>>, ready: set<Id>)

  /** Only a registered subscriber can be waiting for a message. */
  predicate Consistent(s: Subscribers)
  {
    s.ready <= s.logs.Keys
  }

  /** Registering a fresh id: a new entry with nothing received, not yet waiting. */
  function Registered(s: Subscribers, id: Id): (t: Subscribers)
    requires id !in s.logs
    ensures t.logs.Keys == s.logs.Keys + {id} && t.logs[id] == []
    ensures forall other :: other in s.logs ==> t.logs[other] == s.logs[other]
    ensures t.ready == s.ready
    ensures Consistent(s) ==> Consistent(t)
  {
    Subscribers(s.logs[id := []], s.ready)
  }

  /** The subscriber's goroutine reaches its select and waits for a message. */
  function Awaiting(s: Subscribers, id: Id): (t: Subscribers)
    requires id in s.logs
    ensures t.logs == s.logs && t.ready == s.ready + {id}
    ensures Consistent(s) ==> Consistent(t)
  {
    Subscribers(s.logs, s.ready + {id})
  }

  /** Deleting an id; like Go's delete, nothing happens when it is absent. */
  function Deregistered(s: Subscribers, id: Id): (t: Subscribers)
    ensures t.logs.Keys == s.logs.Keys - {id}
    ensures forall other :: other in t.logs ==> t.logs[other] == s.logs[other]
    ensures t.ready == s.ready - {id}
    ensures Consistent(s) ==> Consistent(t)
    ensures Consistent(s) && id !in s.logs ==> t == s
  {
    Subscribers(s.logs - {id}, s.ready - {id})
  }

  /** One non-blocking send of msg to id: it succeeds only if id is waiting. */
  function TrySend(s: Subscribers, id: Id, msg: string): (t: Subscribers)
    ensures t.logs.Keys == s.logs.Keys
    ensures forall other :: other in s.logs && other != id ==> t.logs[other] == s.logs[other]
    ensures id in s.logs && id in s.ready ==> t.logs[id] == s.logs[id] + [msg] && t.ready == s.ready - {id}
    ensures !(id in s.logs && id in s.ready) ==> t == s
    ensures Consistent(s) ==> Consistent(t)
  {
    if id in s.ready && id in s.logs then Subscribers(s.logs[id := s.logs[id] + [msg]], s.ready - {id})
    else s
  }

  /** The state once a fan-out of msg has visited exactly the ids in done. */
  function Visited(s: Subscribers, done: set<Id>, msg: string): Subscribers
  {
    Subscribers(
      map id | id in s.logs :: if id in s.ready && id in done then s.logs[id] + [msg] else s.logs[id],
      s.ready - done)
  }

  /**
   * broadcastSSERaw: every waiting subscriber is handed msg, every other
   * subscriber is skipped without error, and the registered ids stay the same.
   */
  function Broadcast(s: Subscribers, msg: string): (t: Subscribers)
    ensures t.logs.Keys == s.logs.Keys
    ensures forall id :: id in s.logs && id in s.ready ==> t.logs[id] == s.logs[id] + [msg]
    ensures forall id :: id in s.logs && id !in s.ready ==> t.logs[id] == s.logs[id]
    ensures Consistent(s) ==> t.ready == {}
  {
    Visited(s, s.logs.Keys, msg)
  }

  /** The ids listed in order. */
  function Elems(order: seq<Id>): set<Id>
  {
    set i | 0 <= i < |order| :: order[i]
  }

  /** Sending to the ids of order one after the other, as a range loop over the map does. */
  function FanOut(order: seq<Id>, s: Subscribers, msg: string): (t: Subscribers)
    ensures t.logs.Keys == s.logs.Keys
    ensures forall id :: id in s.logs ==> s.logs[id] <= t.logs[id]
    ensures Consistent(s) ==> Consistent(t)
    decreases |order|
  {
    if order == [] then s else FanOut(order[1..], TrySend(s, order[0], msg), msg)
  }

  /** Visiting one more id extends what the fan-out has done by that id's send. */
  lemma VisitOne(s: Subscribers, done: set<Id>, id: Id, msg: string)
    requires id in s.logs && id !in done
    ensures TrySend(Visited(s, done, msg), id, msg) == Visited(s, done + {id}, msg)
  {
    var before := Visited(s, done, msg);
    var after := Visited(s, done + {id}, msg);
    var sent := TrySend(before, id, msg);
    assert sent.logs == after.logs;
    assert sent.ready == after.ready;
  }

  lemma {:induction false} FanOutFrom(order: seq<Id>, s: Subscribers, done: set<Id>, msg: string)
    requires forall i, j :: 0 <= i < j < |order| ==> order[i] != order[j]
    requires forall i :: 0 <= i < |order| ==> order[i] in s.logs && order[i] !in done
    ensures FanOut(order, Visited(s, done, msg), msg) == Visited(s, done + Elems(order), msg)
    decreases |order|
  {
    if order == [] {
      assert done + Elems(order) == done;
    } else {
      VisitOne(s, done, order[0], msg);
      FanOutFrom(order[1..], s, done + {order[0]}, msg);
      assert done + {order[0]} + Elems(order[1..]) == done + Elems(order);
    }
  }

  /**
   * Go ranges over a map in an unspecified order; whatever order the ids are
   * visited in, the fan-out ends in the same state, the one Broadcast gives.
   */
  lemma AnyOrderBroadcasts(order: seq<Id>, s: Subscribers, msg: string)
    requires forall i, j :: 0 <= i < j < |order| ==> order[i] != order[j]
    requires Elems(order) == s.logs.Keys
    ensures FanOut(order, s, msg) == Broadcast(s, msg)
  {
    assert Visited(s, {}, msg) == s;
    FanOutFrom(order, s, {}, msg);
    assert {} + Elems(order) == s.logs.Keys;
  }

  /**
   * A subscriber that registered and then disconnected is gone: a later
   * broadcast delivers nothing to it and gives everybody else exactly what it
   * would have given without that subscriber ever connecting.
   */
  lemma RegisterThenDeregister(s: Subscribers, id: Id, msg: string, waited: bool)
    requires Consistent(s) && id !in s.logs
    ensures var r := Registered(s, id);
            var w := if waited then Awaiting(r, id) else r;
            var t := Broadcast(Deregistered(w, id), msg);
            id !in t.logs && t == Broadcast(s, msg)
  {
    var r := Registered(s, id);
    var w := if waited then Awaiting(r, id) else r;
    var d := Deregistered(w, id);
    assert d.logs == s.logs;
    assert d.ready == s.ready;
  }

  class SubscriberRegistry {
    var logs: map<Id, seq<string>>
    var ready: set<Id>

    function State(): Subscribers
      reads this
    {
      Subscribers(logs, ready)
    }

    predicate Valid()
      reads this
    {
      Consistent(State())
    }

    /** The bytes written so far on the connection of a registered subscriber. */
    function Written(id: Id): string
      reads this
      requires id in logs
    {
      Sse.Stream(logs[id])
    }

    constructor ()
      ensures Valid() && State() == Subscribers(map[], {})
    {
      logs := map[];
      ready := {};
    }

    /** The registration step of the stream handler, with the fresh id given. */
    method Register(id: Id)
      requires Valid() && id !in logs
      modifies this
      ensures Valid() && State() == Registered(old(State()), id)
    {
      logs := logs[id := []];
    }

    /** The subscriber's goroutine parks in its select. */
    method Await(id: Id)
      requires Valid() && id in logs
      modifies this
      ensures Valid() && State() == Awaiting(old(State()), id)
    {
      ready := ready + {id};
    }

    /** Removal when the subscriber's request context is done. */
    method Deregister(id: Id)
      requires Valid()
      modifies this
      ensures Valid() && State() == Deregistered(old(State()), id)
    {
      logs := logs - {id};
      ready := ready - {id};
    }

    /**
     * The stream handler up to its wait loop: the handshake, then the
     * registration, which happens only once the handshake succeeded.
     */
    method Connect(id: Id, canFlush: bool) returns (h: Sse.Handshake)
      requires Valid() && id !in logs
      modifies this
      ensures h == Sse.OpenHandshake(canFlush)
      ensures Valid()
      ensures State() == if canFlush then Registered(old(State()), id) else old(State())
      ensures canFlush ==> Written(id) == h.prelude
    {
      h := Sse.OpenHandshake(canFlush);
      if h.Opened? {
        Register(id);
      }
    }

    /** broadcastSSERaw: the range loop with one non-blocking send per entry. */
    method BroadcastRaw(msg: string)
      requires Valid()
      modifies this
      ensures Valid() && State() == Broadcast(old(State()), msg)
    {
      ghost var s0 := State();
      var todo := logs.Keys;
      while todo != {}
        invariant todo <= s0.logs.Keys
        invariant State() == Visited(s0, s0.logs.Keys - todo, msg)
        decreases todo
      {
        var id :| id in todo;
        ghost var done := s0.logs.Keys - todo;
        VisitOne(s0, done, id, msg);
        if id in ready {
          logs := logs[id := logs[id] + [msg]];
          ready := ready - {id};
        }
        assert State() == TrySend(Visited(s0, done, msg), id, msg);
        todo := todo - {id};
        assert s0.logs.Keys - todo == done + {id};
      }
      assert s0.logs.Keys - todo == s0.logs.Keys;
    }

    /**
     * broadcastSSE: wrap the record in an envelope and fan out its encoding;
     * when encoding fails nothing is sent. The envelope's identifier and time
     * and the JSON encoder are given.
     */
    method BroadcastRecord(data: InspectrData, eventId: string, time: string,
                           encode: CloudEvent -> Option<string>)
      requires Valid()
      modifies this
      ensures Valid()
      ensures var encoded := encode(WrapInCloudEvent(data, eventId, time));
              State() == if encoded.Some? then Broadcast(old(State()), encoded.value) else old(State())
    {
      var encoded := encode(WrapInCloudEvent(data, eventId, time));
      if encoded.Some? {
        BroadcastRaw(encoded.value);
      }
    }

    /** ssePostHandler: the reply, and a fan-out of the re-encoded body when it was valid JSON. */
    method HandlePost(body: Sse.Reencoding) returns (reply: Sse.Reply)
      requires Valid()
      modifies this
      ensures Valid()
      ensures reply == Sse.PostReply(body).0
      ensures State() == if body.Reencoded? then Broadcast(old(State()), body.text) else old(State())
    {
      var (r, fanOut) := Sse.PostReply(body);
      if fanOut.Some? {
        BroadcastRaw(fanOut.value);
      }
      reply := r;
    }
  }
}
