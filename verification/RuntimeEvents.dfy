/**
 A run's events: the host numbers them and redelivers under the same id until one delivery is answered;
 the control plane appends exactly the next number and recognizes a repeated event. Other hosts may
 write to the same run in between.
 */
module RuntimeEvents {
  import opened Wrappers

  type Id = nat

  datatype Envelope = Envelope(eventId: Id, sequence: nat, payload: string)

  /** What becomes of one delivery. */
  datatype Fate = Answered | ReplyLost | RequestLost

  /** One delivery, and what other hosts wrote before it arrived. */
  datatype Weather = Weather(others: seq<Envelope>, fate: Fate)

  const LAST_ATTEMPT := 4

  predicate Known(log: seq<Envelope>, id: Id) {
    exists e | e in log :: e.eventId == id
  }

  /** Appends the next event; a repeated one is a duplicate, anything else is refused for good. */
  function Ingest(log: seq<Envelope>, e: Envelope): (seq<Envelope>, bool) {
    if Known(log, e.eventId) then (log, e in log)
    else if e.sequence == |log| + 1 then (log + [e], true)
    else (log, false)
  }

  function IngestAll(log: seq<Envelope>, events: seq<Envelope>): seq<Envelope> {
    if events == [] then log else Ingest(IngestAll(log, events[..|events| - 1]), events[|events| - 1]).0
  }

  /** Numbers are contiguous from one, and no event is there twice. */
  ghost predicate Ordered(log: seq<Envelope>) {
    (forall i | 0 <= i < |log| :: log[i].sequence == i + 1) &&
    (forall i, j | 0 <= i < j < |log| :: log[i].eventId != log[j].eventId)
  }

  lemma IngestOrders(log: seq<Envelope>, e: Envelope)
    requires Ordered(log)
    ensures Ordered(Ingest(log, e).0) && log <= Ingest(log, e).0
    ensures Ingest(log, e).1 ==> e.sequence <= |Ingest(log, e).0| && e.sequence > 0 && Ingest(log, e).0[e.sequence - 1] == e
  {
    if Known(log, e.eventId) && e in log {
      var i :| 0 <= i < |log| && log[i] == e;
    }
  }

  lemma {:induction false} IngestAllOrders(log: seq<Envelope>, events: seq<Envelope>)
    requires Ordered(log)
    ensures Ordered(IngestAll(log, events)) && log <= IngestAll(log, events)
  {
    if events != [] {
      IngestAllOrders(log, events[..|events| - 1]);
      IngestOrders(IngestAll(log, events[..|events| - 1]), events[|events| - 1]);
    }
  }

  /** Nobody else uses the event's id. */
  ghost predicate OwnId(log: seq<Envelope>, id: Id, weather: nat -> Weather) {
    !Known(log, id) && forall n: nat :: forall e | e in weather(n).others :: e.eventId != id
  }

  /** Some delivery arrives when the event's number is the next. */
  ghost predicate Lands(log: seq<Envelope>, e: Envelope, weather: nat -> Weather, attempt: nat)
    decreases LAST_ATTEMPT + 1 - attempt
  {
    var there, fate := IngestAll(log, weather(attempt).others), weather(attempt).fate;
    (fate != RequestLost && e.sequence == |there| + 1) ||
    (fate != Answered && attempt < LAST_ATTEMPT && Lands(there, e, weather, attempt + 1))
  }

  lemma {:induction false} OthersLeaveTheId(log: seq<Envelope>, events: seq<Envelope>, id: Id)
    requires forall e | e in events :: e.eventId != id
    ensures Known(IngestAll(log, events), id) <==> Known(log, id)
  {
    if events != [] { OthersLeaveTheId(log, events[..|events| - 1], id); }
  }

  /** The log after one delivery of the event, and whether it was accepted. */
  function Delivered(log: seq<Envelope>, e: Envelope, x: Weather): (seq<Envelope>, bool) {
    var there := IngestAll(log, x.others);
    if x.fate.RequestLost? then (there, false) else Ingest(there, e)
  }

  /** The host's deliveries from the given one on: what they leave, and whether one was answered with success. */
  function Deliveries(log: seq<Envelope>, e: Envelope, weather: nat -> Weather, attempt: nat): (seq<Envelope>, bool)
    decreases LAST_ATTEMPT + 1 - attempt
  {
    var (next, accepted) := Delivered(log, e, weather(attempt));
    if weather(attempt).fate.Answered? || attempt >= LAST_ATTEMPT then (next, accepted && weather(attempt).fate.Answered?)
    else Deliveries(next, e, weather, attempt + 1)
  }

  /** The event is in the log, in its place. */
  predicate InPlace(log: seq<Envelope>, e: Envelope) {
    0 < e.sequence <= |log| && log[e.sequence - 1] == e
  }

  lemma OneDelivery(log: seq<Envelope>, e: Envelope, x: Weather)
    requires Ordered(log)
    ensures var (next, accepted) := Delivered(log, e, x);
            Ordered(next) && log <= next && (accepted ==> InPlace(next, e))
  {
    IngestAllOrders(log, x.others);
    IngestOrders(IngestAll(log, x.others), e);
  }

  /** However often it is sent, the log stays in order, and an event answered with success is in its place. */
  lemma {:induction false} DeliveriesKeep(log: seq<Envelope>, e: Envelope, weather: nat -> Weather, attempt: nat)
    requires Ordered(log)
    ensures var (after, delivered) := Deliveries(log, e, weather, attempt);
            Ordered(after) && log <= after && (delivered ==> InPlace(after, e))
    decreases LAST_ATTEMPT + 1 - attempt
  {
    OneDelivery(log, e, weather(attempt));
    if !weather(attempt).fate.Answered? && attempt < LAST_ATTEMPT {
      DeliveriesKeep(Delivered(log, e, weather(attempt)).0, e, weather, attempt + 1);
    }
  }

  /** An event of its own id is in the log exactly if a delivery landed, heard of or not, and then in its place. */
  lemma {:induction false} LandedIsThere(log: seq<Envelope>, e: Envelope, weather: nat -> Weather, attempt: nat)
    requires Ordered(log) && OwnId(log, e.eventId, weather)
    ensures var after := Deliveries(log, e, weather, attempt).0;
            (Known(after, e.eventId) <==> Lands(log, e, weather, attempt)) && (Known(after, e.eventId) ==> InPlace(after, e))
    decreases LAST_ATTEMPT + 1 - attempt
  {
    var there, x := IngestAll(log, weather(attempt).others), weather(attempt);
    LandingPlaces(log, e, x);
    var next := Delivered(log, e, x).0;
    if !x.fate.RequestLost? && e.sequence == |there| + 1 {
      assert next[e.sequence - 1] == e && Known(next, e.eventId);
      if !x.fate.Answered? && attempt < LAST_ATTEMPT { PlacedStays(next, e, weather, attempt + 1); }
    } else {
      if !x.fate.Answered? && attempt < LAST_ATTEMPT { LandedIsThere(next, e, weather, attempt + 1); }
    }
  }

  lemma LandingPlaces(log: seq<Envelope>, e: Envelope, x: Weather)
    requires Ordered(log) && !Known(log, e.eventId) && forall other | other in x.others :: other.eventId != e.eventId
    ensures var there, next := IngestAll(log, x.others), Delivered(log, e, x).0;
            Ordered(next) && if !x.fate.RequestLost? && e.sequence == |there| + 1 then InPlace(next, e) else next == there && !Known(there, e.eventId)
  {
    OthersLeaveTheId(log, x.others, e.eventId);
    OneDelivery(log, e, x);
  }

  /** Some delivery from here on is answered. */
  predicate Heard(weather: nat -> Weather, attempt: nat)
    decreases LAST_ATTEMPT + 1 - attempt
  {
    weather(attempt).fate.Answered? || (attempt < LAST_ATTEMPT && Heard(weather, attempt + 1))
  }

  /** An event that is there already is recognized: the first answer says it was delivered. */
  lemma {:induction false} RedeliveryIsRecognized(log: seq<Envelope>, e: Envelope, weather: nat -> Weather, attempt: nat)
    requires Ordered(log) && InPlace(log, e)
    ensures Deliveries(log, e, weather, attempt).1 <==> Heard(weather, attempt)
    decreases LAST_ATTEMPT + 1 - attempt
  {
    var there := IngestAll(log, weather(attempt).others);
    IngestAllOrders(log, weather(attempt).others);
    assert there[e.sequence - 1] == e && Known(there, e.eventId);
    if !weather(attempt).fate.Answered? && attempt < LAST_ATTEMPT {
      RedeliveryIsRecognized(there, e, weather, attempt + 1);
    }
  }

  predicate FifthOnly(weather: nat -> Weather) {
    weather(0) == weather(1) == weather(2) == weather(3) == Weather([], RequestLost) && weather(4) == Weather([], Answered)
  }

  /** There are five deliveries: the fifth answer still counts, and after that nothing is sent. */
  lemma FiveDeliveries(log: seq<Envelope>, e: Envelope, weather: nat -> Weather)
    ensures Deliveries(log, e, weather, 0).1 ==> exists n: nat :: n < 5 && weather(n).fate.Answered?
    ensures FifthOnly(weather) && e.sequence == |log| + 1 && !Known(log, e.eventId) ==>
              Deliveries(log, e, weather, 0) == (log + [e], true)
  {
    if Deliveries(log, e, weather, 0).1 { AnsweredInTime(log, e, weather, 0); }
    if FifthOnly(weather) {
      assert Deliveries(log, e, weather, 4) == Ingest(log, e);
      assert Deliveries(log, e, weather, 3) == Ingest(log, e);
      assert Deliveries(log, e, weather, 2) == Ingest(log, e);
      assert Deliveries(log, e, weather, 1) == Ingest(log, e);
    }
  }

  lemma {:induction false} AnsweredInTime(log: seq<Envelope>, e: Envelope, weather: nat -> Weather, attempt: nat)
    requires attempt < 5 && Deliveries(log, e, weather, attempt).1
    ensures exists n: nat :: n < 5 && weather(n).fate.Answered?
    decreases 5 - attempt
  {
    if !weather(attempt).fate.Answered? {
      AnsweredInTime(Delivered(log, e, weather(attempt)).0, e, weather, attempt + 1);
    }
  }

  /** What an emitted event comes to. */
  lemma EmitEnds(log: seq<Envelope>, e: Envelope, weather: nat -> Weather)
    requires Ordered(log)
    ensures var (after, delivered) := Deliveries(log, e, weather, 0);
            Ordered(after) && log <= after && (delivered ==> InPlace(after, e)) &&
            (OwnId(log, e.eventId, weather) ==>
               (Known(after, e.eventId) <==> Lands(log, e, weather, 0)) && (Known(after, e.eventId) ==> InPlace(after, e)))
  {
    DeliveriesKeep(log, e, weather, 0);
    if OwnId(log, e.eventId, weather) { LandedIsThere(log, e, weather, 0); }
  }

  lemma PlacedStays(log: seq<Envelope>, e: Envelope, weather: nat -> Weather, attempt: nat)
    requires Ordered(log) && InPlace(log, e)
    ensures var after := Deliveries(log, e, weather, attempt).0; InPlace(after, e) && Known(after, e.eventId)
  {
    DeliveriesKeep(log, e, weather, attempt);
    assert Deliveries(log, e, weather, attempt).0[e.sequence - 1] == e;
  }

  class EventLog {
    var log: seq<Envelope>

    constructor ()
      ensures log == []
    {
      log := [];
    }

    method Receive(e: Envelope) returns (accepted: bool)
      modifies this
      ensures (log, accepted) == Ingest(old(log), e)
    {
      if Known(log, e.eventId) { return e in log; }
      if e.sequence != |log| + 1 { return false; }
      log := log + [e];
      return true;
    }

    method ReceiveAll(events: seq<Envelope>)
      modifies this
      ensures log == IngestAll(old(log), events)
    {
      for i := 0 to |events|
        invariant log == IngestAll(old(log), events[..i])
      {
        assert events[..i + 1][..i] == events[..i];
        var _ := Receive(events[i]);
      }
      assert events[..|events|] == events;
    }
  }

  class RunEvents {
    const port: EventLog
    var sequence: nat

    constructor (port: EventLog, sequence: nat)
      ensures this.port == port && this.sequence == sequence
    {
      this.port, this.sequence := port, sequence;
    }

    /**
     Delivered, the event is in the history once, under the next number, however often it was sent; not
     delivered, the host does not count it. It is in the history exactly if some delivery arrived when its
     number was the next, whether the host heard of that or not.
     */
    method Emit(eventId: Id, payload: string, weather: nat -> Weather) returns (delivered: bool)
      requires Ordered(port.log)
      modifies this, port
      ensures (port.log, delivered) == Deliveries(old(port.log), Envelope(eventId, old(sequence) + 1, payload), weather, 0)
      ensures Ordered(port.log) && old(port.log) <= port.log
      ensures sequence == old(sequence) + (if delivered then 1 else 0)
      ensures delivered ==> InPlace(port.log, Envelope(eventId, sequence, payload))
      ensures OwnId(old(port.log), eventId, weather) ==>
                var e := Envelope(eventId, old(sequence) + 1, payload);
                (Known(port.log, eventId) <==> Lands(old(port.log), e, weather, 0)) &&
                (Known(port.log, eventId) ==> InPlace(port.log, e))
    {
      var envelope := Envelope(eventId, sequence + 1, payload);
      EmitEnds(port.log, envelope, weather);
      delivered := Deliver(envelope, weather);
      if delivered { sequence := sequence + 1; }
    }

    /** Sent again under the same id until a delivery is answered, or five have not been. */
    method Deliver(envelope: Envelope, weather: nat -> Weather) returns (delivered: bool)
      modifies port
      ensures (port.log, delivered) == Deliveries(old(port.log), envelope, weather, 0)
    {
      var attempt := 0;
      while true
        invariant 0 <= attempt <= LAST_ATTEMPT
        invariant Deliveries(port.log, envelope, weather, attempt) == Deliveries(old(port.log), envelope, weather, 0)
        decreases LAST_ATTEMPT - attempt
      {
        port.ReceiveAll(weather(attempt).others);
        if weather(attempt).fate != RequestLost {
          var accepted := port.Receive(envelope);
          if weather(attempt).fate == Answered { return accepted; }
        }
        if attempt >= LAST_ATTEMPT { return false; }
        attempt := attempt + 1;
      }
    }
  }
}
