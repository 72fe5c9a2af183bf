/**
 * End-to-end properties of a request travelling the whole bus: a trigger
 * sent by a widget, handled by the backend, drained into the mailbox and
 * delivered by the event-handler loop to the subscribed component, which
 * then renders it.
 */
module Scenarios {
  import opened Wrappers
  import opened Ipc
  import opened Auth
  import opened TriggerHandling
  import opened AppHandling
  import Backend
  import App

  /** The request NewHeader sends. */
  const HeaderTrigger: Event := Event(ComponentHeader, ActionGetAuthData, NoData)

  /**
   * Ctrl-C ends both loops: the backend stops after answering the quit
   * request, and its one reply puts a Quit event in the mailbox, on which
   * the event-handler loop returns.
   */
  lemma QuitEndsBothLoops(st: Backend.ServerState, aws: Backend.AwsCalls, m: map<string, Event>)
    ensures Backend.Defined(st, Backend.QuitEvent, aws)
    ensures var h := Backend.Handle(st, Backend.QuitEvent, aws);
      h.stop && h.state == st && |h.replies| == 1 && ComponentQuit in RouteAll(m, h.replies[0])
  {
    Backend.QuitStopsServer(st, Backend.QuitEvent, aws);
    RouteAllAt(m, [Backend.QuitEvent], ComponentQuit);
  }

  /**
   * With a live session the header's request is answered with the config in
   * use, delivered to the subscribed header; the payload is the one its
   * Render accepts, so the header ends up showing that config.
   */
  lemma LiveSessionReachesHeader(st: Backend.ServerState, aws: Backend.AwsCalls, m: map<string, Event>,
                                 subs: map<string, Subscriber>)
    requires !st.ssoExpired && st.config.Some? && ComponentHeader in subs
    ensures Backend.Defined(st, HeaderTrigger, aws)
    ensures var h := Backend.Handle(st, HeaderTrigger, aws);
      var d := Dispatch(subs, RouteAll(m, h.replies[0]));
      |h.replies| == 1 && ComponentHeader in d
      && d[ComponentHeader].event.data == ConfigData(st.config.value)
  {
    Backend.LiveSessionReportsConfig(st, HeaderTrigger, aws);
    var reply := [Backend.AuthDataEvent(st.config.value)];
    DeliveredIsLatest(subs, m, reply, ComponentHeader);
    assert ComponentHeader in Destinations(reply);
  }

  /**
   * With an expired session the header's request makes the Tui, once it
   * renders the delivered event, show the SSO modal as its current page.
   */
  lemma ExpiredSessionOpensSsoModal(st: Backend.ServerState, aws: Backend.AwsCalls, m: map<string, Event>,
                                    v: App.View)
    requires st.ssoExpired && App.WellFormed(v)
    ensures Backend.Defined(st, HeaderTrigger, aws)
    ensures var h := Backend.Handle(st, HeaderTrigger, aws);
      var batch := RouteAll(m, h.replies[0]);
      ComponentTui in batch
      && App.Rendered(v, batch[ComponentTui].action) == App.Shown(v, ComponentRefreshSSO)
      && App.Rendered(v, batch[ComponentTui].action).current == ComponentRefreshSSO
      && ComponentRefreshSSO in App.Rendered(v, batch[ComponentTui].action).visible
  {
    Backend.ExpiredSessionPromptsReauthentication(st, aws, m);
  }

  /**
   * A profile switch whose reload succeeds reaches the header with the new
   * config, which carries the requested profile, and reaches the Change
   * Profile view with the change-profile action.  The view only ever sends
   * a non-empty selection.
   */
  lemma SuccessfulSwitchReachesHeaderAndView(st: Backend.ServerState, profile: string, aws: Backend.AwsCalls,
                                             m: map<string, Event>)
    requires st.config.Some? && profile != ""
    requires GetAwsConfigFromProfileConfig(profile, st.config.value.region, aws.env, aws.sdk).Success?
    ensures var e := Event(ComponentChangeProfile, ActionChangeProfile, ChangeProfile(profile));
      Backend.Defined(st, e, aws)
      && var h := Backend.Handle(st, e, aws);
      var batch := RouteAll(m, h.replies[0]);
      |h.replies| == 1
      && ComponentHeader in batch && batch[ComponentHeader].data.ConfigData?
      && batch[ComponentHeader].data.config.profile == profile
      && batch[ComponentHeader].data.config == h.state.config.value
      && ComponentChangeProfile in batch && batch[ComponentChangeProfile].action == ActionChangeProfile
  {
    var e := Event(ComponentChangeProfile, ActionChangeProfile, ChangeProfile(profile));
    var load := GetAwsConfigFromProfileConfig(profile, st.config.value.region, aws.env, aws.sdk);
    var reply := [Backend.AuthDataEvent(load.value), Event(ComponentChangeProfile, ActionChangeProfile, NoData)];
    assert Backend.Handle(st, e, aws).replies == [reply];
    Backend.DistinctReplyFullyDelivered(m, reply);
    assert reply[0].component == ComponentHeader && reply[1].component == ComponentChangeProfile;
  }

  /**
   * An error pair drained into the mailbox opens the error modal through the
   * Tui, but its message is never rendered: the error modal never
   * subscribes, so the pass delivers nothing to it.
   */
  lemma ErrorTextIsDropped(subs: map<string, Subscriber>, m: map<string, Event>, message: string)
    requires ComponentTui in subs && ComponentErrorModal !in subs
    ensures var d := Dispatch(subs, RouteAll(m, Backend.ErrorPair(message)));
      && ComponentTui in d && d[ComponentTui].event.action == ActionShowErrorModal
      && ComponentErrorModal !in d
  {
    var reply := Backend.ErrorPair(message);
    Backend.DistinctReplyFullyDelivered(m, reply);
    assert reply[0].component == ComponentTui;
  }
}
