/**
 * The TUI side of the bus (internal/tui/app_handle.go): the AppHandle keeps
 * the table of subscribed renderables and runs the event-handler loop that
 * drains replies into the mailbox, takes the mailbox and either stops (a
 * `Quit` event is in it) or hands each subscribed component its event.
 *
 * Rendering itself happens in the subscriber; here one pass of the loop
 * returns the deliveries it would make, one per subscribed component that
 * has an event.  The page-visibility helpers at the end model the
 * show/hide switches of a tview page stack, shared by every widget.
 */
module AppHandling {
  import opened Wrappers
  import opened Ipc
  import opened TriggerHandling

  /** A renderable component, known by the name it subscribed under. */
  datatype Subscriber = Subscriber(name: string)

  /** One call `sub.Render(event)` made by the event-handler loop. */
  datatype Delivery = Delivery(subscriber: Subscriber, event: Event)

  /**
   * The deliveries of one pass: every subscribed component that has an event
   * in the batch gets exactly that event, and nobody else gets anything.
   */
  function Dispatch(subs: map<string, Subscriber>, batch: map<string, Event>): (r: map<string, Delivery>)
    ensures r.Keys == subs.Keys * batch.Keys
    ensures forall c :: c in r ==> r[c].subscriber == subs[c] && r[c].event == batch[c]
    ensures Keyed(batch) ==> forall c :: c in r ==> r[c].event.component == c
  {
    map c | c in subs.Keys * batch.Keys :: Delivery(subs[c], batch[c])
  }

  /**
   * What a subscribed component renders after the pending replies `es` were
   * drained into a mailbox `m`: the last reply addressed to it when there is
   * one, otherwise whatever the mailbox already held for it, and nothing at
   * all when neither exists.
   */
  lemma DeliveredIsLatest(subs: map<string, Subscriber>, m: map<string, Event>, es: seq<Event>, c: string)
    requires c in subs
    ensures var d := Dispatch(subs, RouteAll(m, es));
      && (c in Destinations(es) ==> c in d && d[c].event == es[LastIndexOf(es, c)])
      && (c !in Destinations(es) && c in m ==> c in d && d[c].event == m[c])
      && (c !in Destinations(es) && c !in m ==> c !in d)
  {
    RouteAllAt(m, es, c);
  }

  class AppHandle {
    const handler: TriggerHandler
    var subscriptions: map<string, Subscriber>

    ghost predicate Valid()
      reads this, handler, set r | r in handler.responders
    {
      handler.Valid()
    }

    constructor (handler: TriggerHandler)
      ensures this.handler == handler && subscriptions == map[]
    {
      this.handler := handler;
      subscriptions := map[];
    }

    /** Registers (or replaces) the renderable of a component. */
    method SetSubscription(component: string, sub: Subscriber)
      modifies this`subscriptions
      ensures subscriptions == old(subscriptions)[component := sub]
    {
      subscriptions := subscriptions[component := sub];
    }

    /** Sends a request to the backend; its reply comes back through the loop. */
    method SendTrigger(component: string, action: string, data: Payload)
      requires Valid() && |handler.tx.items| < RequestQueueCapacity
      modifies handler`responders, handler.tx
      ensures Valid()
      ensures |handler.responders| == |old(handler.responders)| + 1
      ensures handler.responders[..|old(handler.responders)|] == old(handler.responders)
      ensures fresh(handler.responders[|handler.responders| - 1])
      ensures handler.responders[|handler.responders| - 1].Pending() == []
      ensures handler.tx.items == old(handler.tx.items)
        + [Trigger(Event(component, action, data), handler.responders[|handler.responders| - 1])]
    {
      handler.MakeTrigger(Event(component, action, data));
    }

    /** Posts an event straight into the mailbox, without the backend. */
    method PassEvent(response: Event)
      requires handler.MailboxValid()
      modifies handler`events, handler`hasEvents
      ensures handler.MailboxValid()
      ensures handler.events == Route(old(handler.events), response) && handler.hasEvents
    {
      handler.PassEvent(response);
    }

    /**
     * One pass of the event-handler loop.  `quit` reports that the loop
     * returns; otherwise `delivered` holds the Render calls of the pass.
     */
    method RunEventHandlerStep() returns (quit: bool, delivered: map<string, Delivery>)
      requires Valid()
      modifies handler`responders, handler`events, handler`hasEvents, set r | r in handler.responders
      ensures Valid()
      ensures handler.events == map[] && !handler.hasEvents
      ensures var n := |old(handler.responders)|;
        var slots := old(Slots(handler.responders));
        var batch := RouteAll(old(handler.events), Replies(slots, n));
        && handler.responders == Unanswered(old(handler.responders), slots, n)
        && quit == (ComponentQuit in batch)
        && delivered == (if quit then map[] else Dispatch(subscriptions, batch))
      ensures forall k :: 0 <= k < |old(handler.responders)| ==>
                old(handler.responders)[k].Pending() == AfterReceive(old(handler.responders[k].Pending()))
    {
      handler.ReceiveEvents();
      quit, delivered := TakeMailbox();
    }

    /** The second half of a pass: takes the mailbox and stops on Quit or dispatches it. */
    method TakeMailbox() returns (quit: bool, delivered: map<string, Delivery>)
      requires handler.MailboxValid()
      modifies handler`events, handler`hasEvents
      ensures handler.MailboxValid() && handler.events == map[] && !handler.hasEvents
      ensures quit == (ComponentQuit in old(handler.events))
      ensures delivered == (if quit then map[] else Dispatch(subscriptions, old(handler.events)))
      ensures handler.responders == old(handler.responders)
      ensures forall r :: r in handler.responders ==> r.Pending() == old(r.Pending())
    {
      var has, batch := handler.GetEvents();
      quit, delivered := false, map[];
      if has {
        if ComponentQuit in batch {
          quit := true;
          return;
        }
        delivered := DispatchBatch(batch);
      }
    }

    /** The Render calls for one batch, visiting the subscriptions in any order. */
    method DispatchBatch(batch: map<string, Event>) returns (delivered: map<string, Delivery>)
      ensures delivered == Dispatch(subscriptions, batch)
    {
      var todo := subscriptions.Keys;
      delivered := map[];
      while todo != {}
        invariant todo <= subscriptions.Keys
        invariant delivered == Dispatch(subscriptions, batch) - todo
        decreases todo
      {
        var component :| component in todo;
        if component in batch {
          delivered := delivered[component := Delivery(subscriptions[component], batch[component])];
        }
        todo := todo - {component};
      }
    }
  }

  // Visibility within a tview page stack: showing a page that the stack does
  // not hold does nothing, hiding one removes it from the visible set.

  function ShowPage(visible: set<string>, names: set<string>, page: string): (r: set<string>)
    ensures page in names ==> r == visible + {page}
    ensures page !in names ==> r == visible
  {
    if page in names then visible + {page} else visible
  }

  function HidePage(visible: set<string>, page: string): (r: set<string>)
    ensures page !in r && forall p :: p in visible && p != page ==> p in r
    ensures r <= visible
  {
    visible - {page}
  }
}
