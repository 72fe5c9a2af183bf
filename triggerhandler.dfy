/**
 * The trigger gateway and the event mailbox (internal/ipc/triggerhandler.go).
 *
 * The mutex of the source guards each mailbox update and each swap; here every
 * such section is one method call. The request channel is a `TriggerChannel`
 * object shared with the backend, and a response channel of capacity one is a
 * `Responder` object.
 */
module TriggerHandling {
  import opened Wrappers
  import opened Ipc

  /** Capacity of the request channel made at start-up (cmd/root.go:42). */
  const RequestQueueCapacity: nat := 100

  // ---------------------------------------------------------------------------
  // The mailbox as a value: routing is per-destination overwrite.
  // ---------------------------------------------------------------------------

  /** Every pending event is stored under its own destination. */
  predicate Keyed(m: map<string, Event>) {
    forall c :: c in m ==> m[c].component == c
  }

  /**
   * routeEvent on the map: the event replaces whatever was pending for its
   * destination; every other destination keeps what it had.
   */
  function Route(m: map<string, Event>, e: Event): map<string, Event> {
    m[e.component := e]
  }

  /** Routing a list of events one after another, in list order. */
  function RouteAll(m: map<string, Event>, es: seq<Event>): map<string, Event>
    decreases |es|
  {
    if es == [] then m else Route(RouteAll(m, es[..|es| - 1]), es[|es| - 1])
  }

  /** The destinations named in a list of events. */
  function Destinations(es: seq<Event>): set<string> {
    set i | 0 <= i < |es| :: es[i].component
  }

  /** Index of the last event addressed to `c`, or -1 when there is none. */
  function LastIndexOf(es: seq<Event>, c: string): (i: int)
    ensures -1 <= i < |es|
    ensures i >= 0 ==> es[i].component == c
    ensures forall j :: i < j < |es| ==> es[j].component != c
    decreases |es|
  {
    if es == [] then -1
    else if es[|es| - 1].component == c then |es| - 1
    else LastIndexOf(es[..|es| - 1], c)
  }

  /** For each destination named in `es`, the last event addressed to it. */
  function Latest(es: seq<Event>): (r: map<string, Event>)
    ensures r.Keys == Destinations(es)
    ensures Keyed(r)
  {
    map c | c in Destinations(es) :: es[LastIndexOf(es, c)]
  }

  lemma DestinationsSnoc(init: seq<Event>, e: Event)
    ensures Destinations(init + [e]) == Destinations(init) + {e.component}
  {
    var es := init + [e];
    forall c | c in Destinations(es) ensures c in Destinations(init) + {e.component} {
      var i :| 0 <= i < |es| && es[i].component == c;
      if i < |init| { assert init[i] == es[i]; }
    }
    forall c | c in Destinations(init) ensures c in Destinations(es) {
      var i :| 0 <= i < |init| && init[i].component == c;
      assert es[i] == init[i];
    }
    assert es[|es| - 1] == e;
  }

  lemma {:induction false} LatestSnoc(init: seq<Event>, e: Event)
    ensures Latest(init + [e]) == Latest(init)[e.component := e]
  {
    var es := init + [e];
    DestinationsSnoc(init, e);
    var l, r := Latest(es), Latest(init)[e.component := e];
    forall c | c in l.Keys ensures l[c] == r[c] {
      LastIndexOfSnoc(init, e, c);
      if c != e.component {
        assert es[LastIndexOf(init, c)] == init[LastIndexOf(init, c)];
      }
    }
  }

  /** The last event for `c` after appending `e` is `e` itself when `e` goes to `c`, else as before. */
  lemma LastIndexOfSnoc(init: seq<Event>, e: Event, c: string)
    ensures LastIndexOf(init + [e], c) == if e.component == c then |init| else LastIndexOf(init, c)
  {
    assert (init + [e])[..|init|] == init;
  }

  /** RouteAll over a concatenation routes the first list, then the second. */
  lemma {:induction false} RouteAllAppend(m: map<string, Event>, a: seq<Event>, b: seq<Event>)
    ensures RouteAll(m, a + b) == RouteAll(RouteAll(m, a), b)
    decreases |b|
  {
    if b == [] {
      assert a + b == a;
    } else {
      var ab := a + b;
      assert ab[..|ab| - 1] == a + b[..|b| - 1];
      assert ab[|ab| - 1] == b[|b| - 1];
      RouteAllAppend(m, a, b[..|b| - 1]);
    }
  }

  /**
   * Latest-write-wins: routing a list of events into a mailbox gives the old
   * mailbox overridden, for every destination the list names, by the LAST
   * event of the list addressed there.
   */
  lemma {:induction false} RouteAllIsLatestOverride(m: map<string, Event>, es: seq<Event>)
    ensures RouteAll(m, es) == m + Latest(es)
    decreases |es|
  {
    if es == [] {
      assert Destinations(es) == {};
      assert Latest(es) == map[];
    } else {
      var init, e := es[..|es| - 1], es[|es| - 1];
      assert es == init + [e];
      var before := RouteAll(m, init);
      assert RouteAll(m, es) == before[e.component := e];
      RouteAllIsLatestOverride(m, init);
      LatestSnoc(init, e);
      OverrideThenUpdate(m, Latest(init), e.component, e);
    }
  }

  lemma OverrideThenUpdate(m: map<string, Event>, l: map<string, Event>, c: string, e: Event)
    ensures (m + l)[c := e] == m + l[c := e]
  {
  }

  /**
   * What routing leaves for one destination: the last event of the list
   * addressed there if there is one, otherwise what was pending before.
   */
  lemma RouteAllAt(m: map<string, Event>, es: seq<Event>, c: string)
    ensures c in Destinations(es) ==> c in RouteAll(m, es) && RouteAll(m, es)[c] == es[LastIndexOf(es, c)]
    ensures c !in Destinations(es) ==> (c in RouteAll(m, es) <==> c in m)
    ensures c !in Destinations(es) && c in m ==> RouteAll(m, es)[c] == m[c]
  {
    RouteAllIsLatestOverride(m, es);
  }

  // ---------------------------------------------------------------------------
  // Response slots, triggers and the request channel.
  // ---------------------------------------------------------------------------

  /**
   * A response channel of capacity one (`chan []Event` made with size 1).
   * `slot` is its buffer; `blocked` holds the messages of senders that found
   * the buffer full and wait until a receive frees it, oldest first.
   */
  class Responder {
    var slot: Option<seq<Event>>
    var blocked: seq<seq<Event>>

    /** A sender only waits while the buffer is full. */
    ghost predicate Valid()
      reads this
    {
      slot.None? ==> blocked == []
    }

    /** Every message sent and not yet received, in sending order. */
    ghost function Pending(): seq<seq<Event>>
      reads this
    {
      (if slot.Some? then [slot.value] else []) + blocked
    }

    constructor ()
      ensures Valid() && slot == None && blocked == []
    {
      slot := None;
      blocked := [];
    }

    /** `responder <- msg`: fills the buffer, or waits behind it when it is full. */
    method Send(msg: seq<Event>)
      requires Valid()
      modifies this
      ensures Valid()
      ensures Pending() == old(Pending()) + [msg]
    {
      if slot.None? {
        slot := Some(msg);
      } else {
        blocked := blocked + [msg];
      }
    }

    /**
     * A `select` with a `default` arm: takes the buffered message if there is
     * one, letting the oldest waiting sender refill the buffer; never waits.
     */
    method TryReceive() returns (r: Option<seq<Event>>)
      requires Valid()
      modifies this
      ensures Valid()
      ensures r == old(slot) == Front(old(Pending()))
      ensures Pending() == AfterReceive(old(Pending()))
    {
      r := slot;
      if slot.Some? {
        if blocked == [] {
          slot := None;
        } else {
          slot := Some(blocked[0]);
          blocked := blocked[1..];
        }
      }
    }
  }

  /** The message a non-blocking receive finds: the oldest pending one, if any. */
  function Front(pending: seq<seq<Event>>): (r: Option<seq<Event>>)
    ensures r.None? <==> pending == []
    ensures r.Some? ==> r.value == pending[0]
  {
    if pending == [] then None else Some(pending[0])
  }

  /** What is still pending after a non-blocking receive: all but the oldest. */
  function AfterReceive(pending: seq<seq<Event>>): (r: seq<seq<Event>>)
    ensures pending == [] ==> r == []
    ensures pending != [] ==> [pending[0]] + r == pending
  {
    if pending == [] then [] else pending[1..]
  }

  /** A request to the backend: the originating event and its own response slot. */
  datatype Trigger = Trigger(event: Event, responder: Responder)

  /** The bounded request channel between the UI side and the backend worker. */
  class TriggerChannel {
    var items: seq<Trigger>

    constructor ()
      ensures items == []
    {
      items := [];
    }
  }

  /** NewTrigger: wraps `event` with a fresh, empty response slot. */
  method NewTrigger(event: Event) returns (t: Trigger)
    ensures t.event == event
    ensures fresh(t.responder) && t.responder.Valid() && t.responder.Pending() == []
  {
    var responder := new Responder();
    t := Trigger(event, responder);
  }

  /** No response slot occurs twice in the FIFO. */
  ghost predicate Distinct(rs: seq<Responder>) {
    forall i, j :: 0 <= i < j < |rs| ==> rs[i] != rs[j]
  }

  /** The buffers of the responders, in FIFO order. */
  ghost function Slots(rs: seq<Responder>): (s: seq<Option<seq<Event>>>)
    reads set r | r in rs
    ensures |s| == |rs|
    ensures forall k :: 0 <= k < |rs| ==> s[k] == rs[k].slot
    decreases |rs|
  {
    if rs == [] then [] else Slots(rs[..|rs| - 1]) + [rs[|rs| - 1].slot]
  }

  /** The pending messages of each responder, in FIFO order. */
  ghost function PendingOf(rs: seq<Responder>): (p: seq<seq<seq<Event>>>)
    reads set r | r in rs
    ensures |p| == |rs|
    ensures forall k :: 0 <= k < |rs| ==> p[k] == rs[k].Pending()
    decreases |rs|
  {
    if rs == [] then [] else PendingOf(rs[..|rs| - 1]) + [rs[|rs| - 1].Pending()]
  }

  /** The events of a buffered reply; none when the buffer is empty. */
  function SlotEvents(slot: Option<seq<Event>>): seq<Event> {
    match slot
    case Some(reply) => reply
    case None => []
  }

  /** The events of the first `n` replies found, reply after reply in FIFO order. */
  function Replies(slots: seq<Option<seq<Event>>>, n: nat): seq<Event>
    requires n <= |slots|
  {
    if n == 0 then [] else Replies(slots, n - 1) + SlotEvents(slots[n - 1])
  }

  /**
   * Among the first `n` responders, those whose slot was empty, in their
   * original relative order: every one of them is kept, and (the FIFO holding
   * no responder twice) no responder that replied is.
   */
  function Unanswered(rs: seq<Responder>, slots: seq<Option<seq<Event>>>, n: nat): (r: seq<Responder>)
    requires |rs| == |slots| && n <= |rs|
    ensures forall x :: x in r ==> x in rs[..n]
    ensures forall k :: 0 <= k < n && slots[k].None? ==> rs[k] in r
    ensures Distinct(rs) ==> Distinct(r)
    ensures Distinct(rs) ==> forall k :: 0 <= k < |rs| && slots[k].Some? ==> rs[k] !in r
  {
    if n == 0 then []
    else
      var front := Unanswered(rs, slots, n - 1);
      assert forall x :: x in rs[..n - 1] ==> x in rs[..n];
      if slots[n - 1].None? then
        KeepNext(rs, n - 1, front);
        front + [rs[n - 1]]
      else
        front
  }

  /**
   * Appending the n-th responder to a list drawn from the first n keeps it
   * free of repeats, when the FIFO itself holds no responder twice.
   */
  lemma KeepNext(rs: seq<Responder>, n: nat, front: seq<Responder>)
    requires n < |rs| && forall x :: x in front ==> x in rs[..n]
    ensures Distinct(rs) && Distinct(front) ==> Distinct(front + [rs[n]])
  {
    if Distinct(rs) && Distinct(front) {
      forall x | x in front ensures x != rs[n] {
        var j :| 0 <= j < n && rs[..n][j] == x;
        assert rs[j] == x;
      }
      var s := front + [rs[n]];
      forall i, j | 0 <= i < j < |s| ensures s[i] != s[j] {
        assert s[i] == front[i];
        if j < |front| {
          assert s[j] == front[j];
        } else {
          assert s[j] == rs[n] && front[i] in front;
        }
      }
    }
  }

  /** The client-side gateway: the FIFO of pending responders and the mailbox. */
  class TriggerHandler {
    const tx: TriggerChannel
    var responders: seq<Responder>
    var events: map<string, Event>
    var hasEvents: bool

    /** The flag is set exactly when some event is pending, and each event sits under its destination. */
    ghost predicate MailboxValid()
      reads this
    {
      (hasEvents <==> events != map[]) && Keyed(events)
    }

    ghost predicate RespondersValid()
      reads this, set r | r in responders
    {
      Distinct(responders) && forall i :: 0 <= i < |responders| ==> responders[i].Valid()
    }

    ghost predicate Valid()
      reads this, set r | r in responders
    {
      MailboxValid() && RespondersValid()
    }

    /** NewTriggerHandler: no responder pending and an empty mailbox. */
    constructor (tx: TriggerChannel)
      ensures this.tx == tx && responders == [] && events == map[] && !hasEvents
      ensures Valid()
    {
      this.tx := tx;
      responders := [];
      events := map[];
      hasEvents := false;
    }

    /**
     * Sends one trigger carrying `event` on the request channel and appends its
     * fresh response slot to the end of the FIFO. The mailbox is untouched.
     */
    method MakeTrigger(event: Event)
      requires Valid()
      requires |tx.items| < RequestQueueCapacity
      modifies this`responders, tx
      ensures Valid()
      ensures |responders| == |old(responders)| + 1 && responders[..|old(responders)|] == old(responders)
      ensures fresh(responders[|responders| - 1]) && responders[|responders| - 1].Pending() == []
      ensures tx.items == old(tx.items) + [Trigger(event, responders[|responders| - 1])]
    {
      var trigger := NewTrigger(event);
      var responder := new Responder();
      trigger := trigger.(responder := responder);
      tx.items := tx.items + [trigger];
      responders := responders + [responder];
    }

    /** Delivers `event` to the mailbox directly; nothing reaches the backend. */
    method PassEvent(event: Event)
      requires MailboxValid()
      modifies this`events, this`hasEvents
      ensures MailboxValid()
      ensures events == Route(old(events), event) && hasEvents
    {
      RouteEvent(event);
    }

    /** Overwrites the pending event of the event's destination and raises the flag. */
    method RouteEvent(event: Event)
      requires MailboxValid()
      modifies this`events, this`hasEvents
      ensures MailboxValid()
      ensures events == Route(old(events), event) && hasEvents
      ensures event.component in events && events[event.component] == event
      ensures forall c :: c != event.component ==> (c in events <==> c in old(events))
      ensures forall c :: c != event.component && c in old(events) ==> events[c] == old(events)[c]
    {
      events := events[event.component := event];
      hasEvents := true;
      assert event.component in events;
    }

    /**
     * RecieveEvents in the source: polls every responder once, in FIFO order,
     * without waiting. Each reply found is routed event by event; responders
     * that replied leave the FIFO, the others stay in their relative order.
     */
    method ReceiveEvents()
      requires Valid()
      modifies this`responders, this`events, this`hasEvents, set r | r in responders
      ensures Valid()
      ensures var n := |old(responders)|;
        responders == Unanswered(old(responders), old(Slots(responders)), n) &&
        events == RouteAll(old(events), Replies(old(Slots(responders)), n)) &&
        hasEvents == (old(hasEvents) || Replies(old(Slots(responders)), n) != [])
      ensures forall k :: 0 <= k < |old(responders)| ==>
                old(responders)[k].Pending() == AfterReceive(old(responders[k].Pending()))
    {
      ghost var slots := Slots(responders);
      ghost var pend := PendingOf(responders);
      var remaining := PollAll(slots, pend, events, hasEvents);
      Keep(remaining);
    }

    /** Replaces the FIFO by the responders still waiting for a reply. */
    method Keep(remaining: seq<Responder>)
      requires Distinct(remaining) && forall x :: x in remaining ==> x in responders
      requires forall k :: 0 <= k < |responders| ==> responders[k].Valid()
      modifies this`responders
      ensures responders == remaining && RespondersValid()
    {
      forall x | x in remaining ensures x.Valid() {
        var k :| 0 <= k < |responders| && responders[k] == x;
      }
      responders := remaining;
    }

    /** The poll loop: polls every responder once, in FIFO order. */
    method PollAll(ghost slots: seq<Option<seq<Event>>>, ghost pend: seq<seq<seq<Event>>>,
                   ghost start: map<string, Event>, ghost had: bool)
      returns (remaining: seq<Responder>)
      requires Valid() && events == start && hasEvents == had
      requires slots == Slots(responders) && pend == PendingOf(responders)
      modifies this`events, this`hasEvents, set r | r in responders
      ensures remaining == Unanswered(responders, slots, |responders|)
      ensures MailboxValid() && events == RouteAll(start, Replies(slots, |responders|))
      ensures hasEvents == (had || Replies(slots, |responders|) != [])
      ensures forall k :: 0 <= k < |responders| ==>
                responders[k].Valid() && responders[k].Pending() == AfterReceive(pend[k])
    {
      remaining := [];
      var i := 0;
      while i < |responders|
        invariant responders == old(responders)
        invariant PolledUpTo(i, slots, pend, remaining, start, had)
      {
        remaining := PollNext(i, slots, pend, remaining, start, had);
        i := i + 1;
      }
    }

    /**
     * The state of the poll after the first `i` responders: `slots` and
     * `pend` are the buffers and pending messages found on entry, `start` and
     * `had` the mailbox and flag on entry.
     */
    ghost predicate PolledUpTo(i: nat, slots: seq<Option<seq<Event>>>, pend: seq<seq<seq<Event>>>,
                               remaining: seq<Responder>, start: map<string, Event>, had: bool)
      reads this, set r | r in responders
    {
      i <= |responders| == |slots| == |pend| &&
      (forall k :: 0 <= k < |slots| ==> slots[k] == Front(pend[k])) &&
      remaining == Unanswered(responders, slots, i) &&
      events == RouteAll(start, Replies(slots, i)) &&
      hasEvents == (had || Replies(slots, i) != []) &&
      MailboxValid() && Distinct(responders) &&
      (forall k :: 0 <= k < |responders| ==> responders[k].Valid()) &&
      (forall k :: 0 <= k < i ==> responders[k].Pending() == AfterReceive(pend[k])) &&
      (forall k :: i <= k < |responders| ==> responders[k].Pending() == pend[k])
    }

    /** One turn of the poll loop: polls responder `i` and keeps it when it had no reply. */
    method PollNext(i: nat, ghost slots: seq<Option<seq<Event>>>, ghost pend: seq<seq<seq<Event>>>,
                    remaining: seq<Responder>, ghost start: map<string, Event>, ghost had: bool)
      returns (remaining': seq<Responder>)
      requires i < |responders| && PolledUpTo(i, slots, pend, remaining, start, had)
      modifies responders[i], this`events, this`hasEvents
      ensures PolledUpTo(i + 1, slots, pend, remaining', start, had)
    {
      RouteAllAppend(start, Replies(slots, i), SlotEvents(slots[i]));
      var kept := Poll(i);
      remaining' := remaining;
      if kept {
        remaining' := remaining + [responders[i]];
      }
    }

    /**
     * One arm of the poll: a reply found in `r` is routed and `r` is to be
     * dropped; an empty `r` is to be kept.
     */
    method Poll(i: nat) returns (kept: bool)
      requires MailboxValid() && Distinct(responders)
      requires i < |responders| && forall k :: 0 <= k < |responders| ==> responders[k].Valid()
      modifies responders[i], this`events, this`hasEvents
      ensures MailboxValid() && forall k :: 0 <= k < |responders| ==> responders[k].Valid()
      ensures kept == old(responders[i].slot).None?
      ensures events == RouteAll(old(events), SlotEvents(old(responders[i].slot)))
      ensures hasEvents == (old(hasEvents) || SlotEvents(old(responders[i].slot)) != [])
      ensures responders[i].Pending() == AfterReceive(old(responders[i].Pending()))
      ensures forall k :: 0 <= k < |responders| && k != i ==>
                responders[k].Pending() == old(responders[k].Pending())
    {
      var r := responders[i];
      var reply := r.TryReceive();
      match reply {
        case Some(es) =>
          RouteEach(es);
          kept := false;
        case None =>
          kept := true;
      }
      forall k | 0 <= k < |responders| && k != i
        ensures responders[k].Valid() && responders[k].Pending() == old(responders[k].Pending())
      {
        assert responders[k] != r;
      }
    }

    /** Routes the events of one reply, in list order. */
    method RouteEach(es: seq<Event>)
      requires MailboxValid()
      modifies this`events, this`hasEvents
      ensures MailboxValid()
      ensures events == RouteAll(old(events), es)
      ensures hasEvents == (old(hasEvents) || es != [])
    {
      var j := 0;
      while j < |es|
        invariant 0 <= j <= |es|
        invariant events == RouteAll(old(events), es[..j])
        invariant hasEvents == (old(hasEvents) || j > 0)
        invariant MailboxValid()
      {
        assert es[..j + 1][..j] == es[..j];
        RouteEvent(es[j]);
        j := j + 1;
      }
      assert es[..|es|] == es;
    }

    /**
     * Takes the whole mailbox in one swap: with the flag set it returns true and
     * every pending event, leaving an empty mailbox and a cleared flag; without
     * it, it returns false and an empty (nil) map and changes nothing.
     */
    method GetEvents() returns (has: bool, batch: map<string, Event>)
      requires MailboxValid()
      modifies this`events, this`hasEvents
      ensures MailboxValid() && events == map[] && !hasEvents
      ensures has == old(hasEvents) && batch == old(events)
      ensures has <==> batch != map[]
      ensures Keyed(batch)
    {
      if hasEvents {
        hasEvents := false;
        batch := events;
        events := map[];
        has := true;
        return;
      }
      has, batch := false, map[];
    }
  }
}
