/**
 * The backend worker (internal/backend/server.go).
 *
 * The handlers are specified first as functions of the server state, the
 * trigger's event and the outcomes of the AWS calls the handler makes
 * (`AwsCalls`); the `Server` class then performs them on its fields and
 * writes the replies into the trigger's responder, and each of its methods
 * is proved to do exactly what the specification function says.
 */
module Backend {
  import opened Wrappers
  import opened Ipc
  import opened GoStrings
  import opened Auth
  import opened TriggerHandling

  const RefreshFailedPrefix: string := "Failed to refresh AWS configuration: "
  const ReauthFailedPrefix: string := "Failed to reauthenticate SSO session: "

  /** The reply to a Quit trigger. */
  const QuitEvent: Event := Event(ComponentQuit, ActionEnd, NoData)

  /**
   * The outcomes of the outside calls one trigger may cause: the environment
   * and SDK results of a configuration load, and the result of
   * `aws sso login` (the text of its error, or None when it succeeds).
   */
  datatype AwsCalls = AwsCalls(env: Env, sdk: SdkOutcome, ssoLogin: Option<string>)

  /** The fields of Server the handlers read and write; None is a nil config. */
  datatype ServerState = ServerState(config: Option<AWSConfigData>, ssoExpired: bool)

  /** What handling one trigger does: the new state, the replies written in order, and whether Run ends. */
  datatype Handled = Handled(state: ServerState, replies: seq<seq<Event>>, stop: bool)

  /** What refreshAwsConfig does: the config afterwards and the replies it wrote. */
  datatype Refreshed = Refreshed(config: Option<AWSConfigData>, replies: seq<seq<Event>>)

  // ---------------------------------------------------------------------------
  // Specification of the handlers.
  // ---------------------------------------------------------------------------

  /**
   * NewServer: a failed load leaves config nil, and the session counts as
   * expired exactly when the error text carries the SSO expiry message.
   */
  function InitialState(load: Result<AWSConfigData, AuthError>): (st: ServerState)
    ensures st.config.Some? <==> load.Success?
    ensures load.Success? ==> st.config.value == load.value && !st.ssoExpired
    ensures st.ssoExpired <==> load.Failure? && Contains(ErrorText(load.error), SsoExpiredMessage)
  {
    match load
    case Success(cfg) => ServerState(Some(cfg), false)
    case Failure(err) => ServerState(None, Contains(ErrorText(err), SsoExpiredMessage))
  }

  /** triggerErrorMessage: the error modal is opened and given the message. */
  function ErrorPair(message: string): seq<Event> {
    [Event(ComponentTui, ActionShowErrorModal, NoData),
     Event(ComponentErrorModal, ActionShowErrorMessage, ErrorMessage(message))]
  }

  /** The header's reply carrying the configuration in use. */
  function AuthDataEvent(config: AWSConfigData): Event {
    Event(ComponentHeader, ActionGetAuthData, ConfigData(config))
  }

  /**
   * refreshAwsConfig: a successful load replaces the config and writes
   * nothing; a failed one keeps the config and writes the error pair.
   */
  function Refresh(config: Option<AWSConfigData>, profile: string, region: string, aws: AwsCalls): (r: Refreshed)
    ensures var load := GetAwsConfigFromProfileConfig(profile, region, aws.env, aws.sdk);
      (load.Success? ==> r == Refreshed(Some(load.value), []))
      && (load.Failure? ==> r == Refreshed(config, [ErrorPair(RefreshFailedPrefix + ErrorText(load.error))]))
  {
    match GetAwsConfigFromProfileConfig(profile, region, aws.env, aws.sdk)
    case Failure(err) => Refreshed(config, [ErrorPair(RefreshFailedPrefix + ErrorText(err))])
    case Success(cfg) => Refreshed(Some(cfg), [])
  }

  /**
   * When a trigger can be handled without a nil dereference or a failed
   * payload assertion: reading the config needs one, the profile switch needs
   * a ChangeProfile payload and a config, and reauthentication needs a
   * ReauthenticateSSO payload and, once the login succeeds, a config
   * afterwards.
   */
  predicate Defined(st: ServerState, e: Event, aws: AwsCalls) {
    (e.component == ComponentHeader && e.action == ActionGetAuthData && !st.ssoExpired ==> st.config.Some?)
    && (e.component == ComponentChangeProfile && e.action == ActionChangeProfile ==>
          e.data.ChangeProfile? && st.config.Some?)
    && (e.component == ComponentRefreshSSO && e.action == ActionReauthenticateSSO ==>
          e.data.ReauthenticateSSO?
          && (aws.ssoLogin.None? ==> Refresh(st.config, e.data.ssoProfile, ReauthRegion(st), aws).config.Some?))
  }

  /** The region reauthentication reloads with: the current one, or "" without a config. */
  function ReauthRegion(st: ServerState): string {
    if st.config.Some? then st.config.value.region else ""
  }

  /** handleHeaderTrigger */
  function HandleHeader(st: ServerState, e: Event): seq<seq<Event>>
    requires e.action == ActionGetAuthData && !st.ssoExpired ==> st.config.Some?
  {
    if e.action != ActionGetAuthData then []
    else if st.ssoExpired then
      [[Event(ComponentTui, ActionShowReauthenticateSSOModal, NoData),
        Event(ComponentRefreshSSO, ActionMustReauthenticateSSO, NoData)]]
    else
      [[AuthDataEvent(st.config.value)]]
  }

  /**
   * handleSwitchProfileView: reloads with the requested profile and the
   * current region, then reports the config in use whether or not the reload
   * failed.
   */
  function HandleSwitchProfile(st: ServerState, e: Event, aws: AwsCalls): Handled
    requires e.action == ActionChangeProfile ==> e.data.ChangeProfile? && st.config.Some?
  {
    if e.action != ActionChangeProfile then Handled(st, [], false)
    else
      var r := Refresh(st.config, e.data.newProfile, st.config.value.region, aws);
      Handled(st.(config := r.config),
              r.replies + [[AuthDataEvent(r.config.value), Event(ComponentChangeProfile, ActionChangeProfile, NoData)]],
              false)
  }

  /**
   * handleRefreshSSO: a failed login reports the error and changes nothing;
   * otherwise the config is reloaded, the session is no longer expired, and
   * the config in use is reported with the end of reauthentication.
   */
  function HandleRefreshSso(st: ServerState, e: Event, aws: AwsCalls): Handled
    requires e.action == ActionReauthenticateSSO ==>
               e.data.ReauthenticateSSO?
               && (aws.ssoLogin.None? ==> Refresh(st.config, e.data.ssoProfile, ReauthRegion(st), aws).config.Some?)
  {
    if e.action != ActionReauthenticateSSO then Handled(st, [], false)
    else
      match aws.ssoLogin
      case Some(err) => Handled(st, [ErrorPair(ReauthFailedPrefix + err)], false)
      case None =>
        var r := Refresh(st.config, e.data.ssoProfile, ReauthRegion(st), aws);
        Handled(ServerState(r.config, false),
                r.replies + [[AuthDataEvent(r.config.value), Event(ComponentRefreshSSO, ActionFinishReauthenticateSSO, NoData)]],
                false)
  }

  /** handleTrigger: dispatch on the destination; only Quit ends the server. */
  function Handle(st: ServerState, e: Event, aws: AwsCalls): Handled
    requires Defined(st, e, aws)
  {
    if e.component == ComponentHeader then Handled(st, HandleHeader(st, e), false)
    else if e.component == ComponentChangeProfile then HandleSwitchProfile(st, e, aws)
    else if e.component == ComponentRefreshSSO then HandleRefreshSso(st, e, aws)
    else if e.component == ComponentQuit then Handled(st, [[QuitEvent]], true)
    else Handled(st, [], false)
  }

  // ---------------------------------------------------------------------------
  // Properties of the handlers.
  // ---------------------------------------------------------------------------

  /** Only a Quit trigger ends the server, and its only reply is Quit/end. */
  lemma QuitStopsServer(st: ServerState, e: Event, aws: AwsCalls)
    requires Defined(st, e, aws)
    ensures Handle(st, e, aws).stop <==> e.component == ComponentQuit
    ensures e.component == ComponentQuit ==> Handle(st, e, aws) == Handled(st, [[QuitEvent]], true)
  {
  }

  /** The triggers the backend answers; any other gets no reply and changes nothing. */
  predicate Answered(e: Event) {
    (e.component == ComponentHeader && e.action == ActionGetAuthData)
    || (e.component == ComponentChangeProfile && e.action == ActionChangeProfile)
    || (e.component == ComponentRefreshSSO && e.action == ActionReauthenticateSSO)
    || e.component == ComponentQuit
  }

  lemma UnansweredTriggerIsIgnored(st: ServerState, e: Event, aws: AwsCalls)
    requires Defined(st, e, aws)
    ensures Handle(st, e, aws).replies == [] <==> !Answered(e)
    ensures !Answered(e) ==> Handle(st, e, aws) == Handled(st, [], false)
  {
  }

  /** No two events of one reply share a destination. */
  predicate DistinctDestinations(reply: seq<Event>) {
    forall i, j :: 0 <= i < j < |reply| ==> reply[i].component != reply[j].component
  }

  /**
   * Every reply written holds at most one event per destination, so routing
   * it into the mailbox loses none of its events.
   */
  lemma {:induction false} RepliesHaveDistinctDestinations(st: ServerState, e: Event, aws: AwsCalls)
    requires Defined(st, e, aws)
    ensures forall reply :: reply in Handle(st, e, aws).replies ==> DistinctDestinations(reply)
  {
    var replies := Handle(st, e, aws).replies;
    forall reply: seq<Event> | reply in replies ensures DistinctDestinations(reply) {
      var n := |reply|;
      if n == 2 {
        assert reply[0].component != reply[1].component;
      }
    }
  }

  /** Routing a reply with distinct destinations leaves each of its events pending. */
  lemma {:induction false} DistinctReplyFullyDelivered(m: map<string, Event>, reply: seq<Event>)
    requires DistinctDestinations(reply)
    ensures forall i :: 0 <= i < |reply| ==> reply[i].component in RouteAll(m, reply)
    ensures forall i :: 0 <= i < |reply| ==> RouteAll(m, reply)[reply[i].component] == reply[i]
  {
    forall i | 0 <= i < |reply|
      ensures reply[i].component in RouteAll(m, reply) && RouteAll(m, reply)[reply[i].component] == reply[i]
    {
      var c := reply[i].component;
      assert c in Destinations(reply);
      RouteAllAt(m, reply, c);
      assert LastIndexOf(reply, c) == i;
    }
  }

  /**
   * An expired session answers the header's request with the prompt pair,
   * and both of its events end up pending in the mailbox.
   */
  lemma ExpiredSessionPromptsReauthentication(st: ServerState, aws: AwsCalls, m: map<string, Event>)
    requires st.ssoExpired
    ensures var e := Event(ComponentHeader, ActionGetAuthData, NoData);
      var replies := Handle(st, e, aws).replies;
      |replies| == 1
      && ComponentTui in RouteAll(m, replies[0]) && ComponentRefreshSSO in RouteAll(m, replies[0])
      && RouteAll(m, replies[0])[ComponentTui] == Event(ComponentTui, ActionShowReauthenticateSSOModal, NoData)
      && RouteAll(m, replies[0])[ComponentRefreshSSO] == Event(ComponentRefreshSSO, ActionMustReauthenticateSSO, NoData)
  {
    var reply := Handle(st, Event(ComponentHeader, ActionGetAuthData, NoData), aws).replies[0];
    DistinctReplyFullyDelivered(m, reply);
    assert reply[0].component == ComponentTui && reply[1].component == ComponentRefreshSSO;
  }

  /** A live session answers the header's request with one event carrying the config. */
  lemma LiveSessionReportsConfig(st: ServerState, e: Event, aws: AwsCalls)
    requires !st.ssoExpired && st.config.Some?
    requires e.component == ComponentHeader && e.action == ActionGetAuthData
    ensures Handle(st, e, aws) == Handled(st, [[AuthDataEvent(st.config.value)]], false)
  {
  }

  /**
   * The profile switch as written: when the reload fails, the error pair is
   * written and then, as a second message to the same responder, the old
   * config is reported as if the switch had worked.
   */
  lemma FailedSwitchStillReportsSuccess(st: ServerState, e: Event, aws: AwsCalls)
    requires Defined(st, e, aws)
    requires e.component == ComponentChangeProfile && e.action == ActionChangeProfile
    requires GetAwsConfigFromProfileConfig(e.data.newProfile, st.config.value.region, aws.env, aws.sdk).Failure?
    ensures var h := Handle(st, e, aws);
      |h.replies| == 2 && h.state == st
      && h.replies[0][0].action == ActionShowErrorModal
      && h.replies[1] == [AuthDataEvent(st.config.value), Event(ComponentChangeProfile, ActionChangeProfile, NoData)]
  {
  }

  /** A trigger writes two replies only when a reload failed after a login that succeeded. */
  lemma {:induction false} AtMostOneReplyUnlessReloadFailed(st: ServerState, e: Event, aws: AwsCalls)
    requires Defined(st, e, aws)
    ensures |Handle(st, e, aws).replies| <= 2
    ensures |Handle(st, e, aws).replies| == 2 ==>
              Answered(e) && (e.component == ComponentChangeProfile || e.component == ComponentRefreshSSO)
              && Handle(st, e, aws).state.config == st.config
              && (e.component == ComponentChangeProfile ==>
                    GetAwsConfigFromProfileConfig(e.data.newProfile, st.config.value.region, aws.env, aws.sdk).Failure?)
              && (e.component == ComponentRefreshSSO ==>
                    aws.ssoLogin.None?
                    && GetAwsConfigFromProfileConfig(e.data.ssoProfile, ReauthRegion(st), aws.env, aws.sdk).Failure?)
  {
    if e.component == ComponentChangeProfile && e.action == ActionChangeProfile {
      var r := Refresh(st.config, e.data.newProfile, st.config.value.region, aws);
      assert |r.replies| <= 1 && (|r.replies| == 1 ==> r.config == st.config);
    } else if e.component == ComponentRefreshSSO && e.action == ActionReauthenticateSSO && aws.ssoLogin.None? {
      var r := Refresh(st.config, e.data.ssoProfile, ReauthRegion(st), aws);
      assert |r.replies| <= 1 && (|r.replies| == 1 ==> r.config == st.config);
    }
  }

  /**
   * The session stops counting as expired only through a successful login,
   * and nothing else ever sets it.
   */
  lemma SsoExpiryChangesOnlyOnLogin(st: ServerState, e: Event, aws: AwsCalls)
    requires Defined(st, e, aws)
    ensures Handle(st, e, aws).state.ssoExpired ==> st.ssoExpired
    ensures Handle(st, e, aws).state.ssoExpired != st.ssoExpired ==>
              e.component == ComponentRefreshSSO && e.action == ActionReauthenticateSSO && aws.ssoLogin.None?
  {
  }

  /**
   * A successful login clears the expiry whatever the reload does, and the
   * last reply reports the config in use with the end of reauthentication.
   * A failed reload writes its error pair first and keeps the old config.
   */
  lemma SuccessfulLoginClearsExpiry(st: ServerState, e: Event, aws: AwsCalls)
    requires Defined(st, e, aws)
    requires e.component == ComponentRefreshSSO && e.action == ActionReauthenticateSSO && aws.ssoLogin.None?
    ensures var h := Handle(st, e, aws);
      var load := GetAwsConfigFromProfileConfig(e.data.ssoProfile, ReauthRegion(st), aws.env, aws.sdk);
      !h.state.ssoExpired && !h.stop && h.state.config.Some? && |h.replies| >= 1
      && h.replies[|h.replies| - 1]
         == [AuthDataEvent(h.state.config.value), Event(ComponentRefreshSSO, ActionFinishReauthenticateSSO, NoData)]
      && (load.Success? ==> |h.replies| == 1 && h.state.config == Some(load.value))
      && (load.Failure? ==>
            |h.replies| == 2 && h.state.config == st.config
            && h.replies[0] == ErrorPair(RefreshFailedPrefix + ErrorText(load.error)))
  {
  }

  /** A failed login writes only the error pair with its prefix and keeps the state. */
  lemma FailedLoginReportsError(st: ServerState, e: Event, aws: AwsCalls)
    requires Defined(st, e, aws)
    requires e.component == ComponentRefreshSSO && e.action == ActionReauthenticateSSO && aws.ssoLogin.Some?
    ensures Handle(st, e, aws) == Handled(st, [ErrorPair(ReauthFailedPrefix + aws.ssoLogin.value)], false)
  {
  }

  // ---------------------------------------------------------------------------
  // Run: the triggers of the queue, handled one by one until Quit.
  // ---------------------------------------------------------------------------

  /** What Run does with a queue: the final state, the replies of each handled trigger, and how many it took. */
  datatype RunResult = RunResult(state: ServerState, replies: seq<seq<seq<Event>>>, consumed: nat)

  /** Every trigger Run would reach can be handled. */
  predicate RunDefined(st: ServerState, es: seq<Event>, aws: seq<AwsCalls>)
    requires |aws| >= |es|
    decreases |es|
  {
    es == [] ||
    (Defined(st, es[0], aws[0]) &&
     var h := Handle(st, es[0], aws[0]);
     (h.stop || RunDefined(h.state, es[1..], aws[1..])))
  }

  /** Index of the first Quit trigger, or the length when there is none. */
  function FirstQuit(es: seq<Event>): (i: nat)
    ensures i <= |es|
    ensures i < |es| ==> es[i].component == ComponentQuit
    ensures forall j :: 0 <= j < i ==> es[j].component != ComponentQuit
    decreases |es|
  {
    if es == [] then 0
    else if es[0].component == ComponentQuit then 0
    else FirstQuit(es[1..]) + 1
  }

  /**
   * Run on a queue: triggers are handled in queue order, and the loop ends
   * right after the first Quit trigger, which is then the last one taken.
   */
  function RunFrom(st: ServerState, es: seq<Event>, aws: seq<AwsCalls>): (r: RunResult)
    requires |aws| >= |es| && RunDefined(st, es, aws)
    ensures |r.replies| == r.consumed
    ensures r.consumed == if FirstQuit(es) < |es| then FirstQuit(es) + 1 else |es|
    decreases |es|
  {
    if es == [] then RunResult(st, [], 0)
    else
      var h := Handle(st, es[0], aws[0]);
      QuitStopsServer(st, es[0], aws[0]);
      if h.stop then RunResult(h.state, [h.replies], 1)
      else
        var rest := RunFrom(h.state, es[1..], aws[1..]);
        RunResult(rest.state, [h.replies] + rest.replies, rest.consumed + 1)
  }

  /** One turn of RunFrom, on the part of the queue from `c` on. */
  lemma RunFromUnfold(st: ServerState, es: seq<Event>, aws: seq<AwsCalls>, c: nat)
    requires c < |es| <= |aws| && RunDefined(st, es[c..], aws[c..])
    ensures Defined(st, es[c], aws[c])
    ensures var h := Handle(st, es[c], aws[c]);
      var r := RunFrom(st, es[c..], aws[c..]);
      h.stop == (es[c].component == ComponentQuit)
      && (h.stop ==> r == RunResult(h.state, [h.replies], 1))
      && (!h.stop ==>
            RunDefined(h.state, es[c + 1..], aws[c + 1..])
            && var rest := RunFrom(h.state, es[c + 1..], aws[c + 1..]);
            r == RunResult(rest.state, [h.replies] + rest.replies, rest.consumed + 1))
  {
    assert es[c..][0] == es[c] && es[c..][1..] == es[c + 1..];
    assert aws[c..][0] == aws[c] && aws[c..][1..] == aws[c + 1..];
    QuitStopsServer(st, es[c], aws[c]);
  }

  /**
   * What RunFrom says about the rest of the queue after one more trigger:
   * either that trigger ended the run, or the rest of the run starts from
   * the state it left.
   */
  predicate RunAhead(final: RunResult, st: ServerState, es: seq<Event>, aws: seq<AwsCalls>, c: nat)
    requires c <= |es| <= |aws|
  {
    RunDefined(st, es[c..], aws[c..])
    && var r := RunFrom(st, es[c..], aws[c..]);
    final.state == r.state && final.consumed == c + r.consumed
    && c <= |final.replies| && final.replies[c..] == r.replies
  }

  /** Before the first turn, the whole run lies ahead. */
  lemma RunStart(final: RunResult, st: ServerState, es: seq<Event>, aws: seq<AwsCalls>)
    requires |es| <= |aws| && RunDefined(st, es, aws) && final == RunFrom(st, es, aws)
    ensures |final.replies| == final.consumed && RunAhead(final, st, es, aws, 0)
  {
    assert es[0..] == es && aws[0..] == aws && final.replies[0..] == final.replies;
  }

  /** With the queue used up and no Quit met, the run has reached its final state. */
  lemma RunEnd(final: RunResult, st: ServerState, es: seq<Event>, aws: seq<AwsCalls>, c: nat)
    requires c == |es| <= |aws| && RunAhead(final, st, es, aws, c)
    ensures final.state == st && final.consumed == c
  {
    assert es[c..] == [];
  }

  lemma RunAdvance(final: RunResult, st: ServerState, es: seq<Event>, aws: seq<AwsCalls>, c: nat)
    requires c < |es| <= |aws| && |final.replies| == final.consumed && RunAhead(final, st, es, aws, c)
    ensures Defined(st, es[c], aws[c])
    ensures var h := Handle(st, es[c], aws[c]);
      c < final.consumed && final.replies[c] == h.replies
      && (h.stop ==> final.state == h.state && final.consumed == c + 1)
      && (!h.stop ==> RunAhead(final, h.state, es, aws, c + 1))
  {
    RunFromUnfold(st, es, aws, c);
    var h := Handle(st, es[c], aws[c]);
    if !h.stop {
      assert final.replies[c + 1..] == final.replies[c..][1..];
    }
  }

  /** The events of the queued triggers, in queue order. */
  function EventsOf(ts: seq<Trigger>): (es: seq<Event>)
    ensures |es| == |ts| && forall i :: 0 <= i < |ts| ==> es[i] == ts[i].event
  {
    if ts == [] then [] else EventsOf(ts[..|ts| - 1]) + [ts[|ts| - 1].event]
  }

  /** The responders of the queued triggers, in queue order. */
  function RespondersOf(ts: seq<Trigger>): (rs: seq<Responder>)
    ensures |rs| == |ts| && forall i :: 0 <= i < |ts| ==> rs[i] == ts[i].responder
  {
    if ts == [] then [] else RespondersOf(ts[..|ts| - 1]) + [ts[|ts| - 1].responder]
  }

  // ---------------------------------------------------------------------------
  // The server object.
  // ---------------------------------------------------------------------------

  /** writes `events` to the responder: one send on the channel. */
  method TriggerErrorMessage(message: string, responder: Responder)
    requires responder.Valid()
    modifies responder
    ensures responder.Valid()
    ensures responder.Pending() == old(responder.Pending()) + [ErrorPair(message)]
  {
    var events: seq<Event> := [];
    events := events + [Event(ComponentTui, ActionShowErrorModal, NoData)];
    events := events + [Event(ComponentErrorModal, ActionShowErrorMessage, ErrorMessage(message))];
    assert events == ErrorPair(message);
    responder.Send(events);
  }

  class Server {
    const tx: TriggerChannel
    var config: Option<AWSConfigData>
    var ssoExpired: bool

    function State(): ServerState
      reads this
    {
      ServerState(config, ssoExpired)
    }

    /** NewServer: loads the configuration for the given profile and region. */
    constructor (tx: TriggerChannel, profile: string, region: string, env: Env, sdk: SdkOutcome)
      ensures this.tx == tx
      ensures State() == InitialState(GetAwsConfigFromProfileConfig(profile, region, env, sdk))
    {
      this.tx := tx;
      var load := GetAwsConfigFromProfileConfig(profile, region, env, sdk);
      var expired := false;
      var cfg: Option<AWSConfigData> := None;
      if load.Failure? {
        if Contains(ErrorText(load.error), SsoExpiredMessage) {
          expired := true;
        }
      } else {
        cfg := Some(load.value);
      }
      config := cfg;
      ssoExpired := expired;
    }

    method RefreshAwsConfig(profile: string, region: string, responder: Responder, aws: AwsCalls)
      requires responder.Valid()
      modifies this`config, responder
      ensures responder.Valid()
      ensures var r := Refresh(old(config), profile, region, aws);
        config == r.config && responder.Pending() == old(responder.Pending()) + r.replies
    {
      var load := GetAwsConfigFromProfileConfig(profile, region, aws.env, aws.sdk);
      if load.Failure? {
        TriggerErrorMessage(RefreshFailedPrefix + ErrorText(load.error), responder);
        return;
      }
      config := Some(load.value);
    }

    method HandleHeaderTrigger(t: Trigger)
      requires t.responder.Valid()
      requires t.event.action == ActionGetAuthData && !ssoExpired ==> config.Some?
      modifies t.responder
      ensures t.responder.Valid()
      ensures t.responder.Pending() == old(t.responder.Pending()) + HandleHeader(State(), t.event)
    {
      if t.event.action == ActionGetAuthData {
        var events: seq<Event> := [];
        if ssoExpired {
          events := events + [Event(ComponentTui, ActionShowReauthenticateSSOModal, NoData)];
          events := events + [Event(ComponentRefreshSSO, ActionMustReauthenticateSSO, NoData)];
          assert events == [Event(ComponentTui, ActionShowReauthenticateSSOModal, NoData),
                            Event(ComponentRefreshSSO, ActionMustReauthenticateSSO, NoData)];
          t.responder.Send(events);
          return;
        }
        events := events + [AuthDataEvent(config.value)];
        assert events == [AuthDataEvent(config.value)];
        t.responder.Send(events);
      }
    }

    method HandleSwitchProfileView(t: Trigger, aws: AwsCalls)
      requires t.responder.Valid()
      requires t.event.action == ActionChangeProfile ==> t.event.data.ChangeProfile? && config.Some?
      modifies this`config, t.responder
      ensures t.responder.Valid()
      ensures var h := HandleSwitchProfile(old(State()), t.event, aws);
        State() == h.state && t.responder.Pending() == old(t.responder.Pending()) + h.replies
    {
      if t.event.action == ActionChangeProfile {
        RefreshAwsConfig(t.event.data.newProfile, config.value.region, t.responder, aws);
        var events: seq<Event> := [];
        events := events + [AuthDataEvent(config.value)];
        events := events + [Event(ComponentChangeProfile, ActionChangeProfile, NoData)];
        assert events == [AuthDataEvent(config.value), Event(ComponentChangeProfile, ActionChangeProfile, NoData)];
        t.responder.Send(events);
      }
    }

    method HandleRefreshSSO(t: Trigger, aws: AwsCalls)
      requires t.responder.Valid()
      requires t.event.action == ActionReauthenticateSSO ==>
                 t.event.data.ReauthenticateSSO?
                 && (aws.ssoLogin.None? ==> Refresh(config, t.event.data.ssoProfile, ReauthRegion(State()), aws).config.Some?)
      modifies this, t.responder
      ensures t.responder.Valid()
      ensures var h := HandleRefreshSso(old(State()), t.event, aws);
        State() == h.state && t.responder.Pending() == old(t.responder.Pending()) + h.replies
    {
      if t.event.action == ActionReauthenticateSSO {
        if aws.ssoLogin.Some? {
          TriggerErrorMessage(ReauthFailedPrefix + aws.ssoLogin.value, t.responder);
          return;
        }
        var region := "";
        if config.Some? {
          region := config.value.region;
        }
        RefreshAwsConfig(t.event.data.ssoProfile, region, t.responder, aws);
        ssoExpired := false;
        var events: seq<Event> := [];
        events := events + [AuthDataEvent(config.value)];
        events := events + [Event(ComponentRefreshSSO, ActionFinishReauthenticateSSO, NoData)];
        assert events == [AuthDataEvent(config.value), Event(ComponentRefreshSSO, ActionFinishReauthenticateSSO, NoData)];
        t.responder.Send(events);
      }
    }

    method HandleTrigger(t: Trigger, aws: AwsCalls) returns (stop: bool)
      requires t.responder.Valid() && Defined(State(), t.event, aws)
      modifies this, t.responder
      ensures t.responder.Valid()
      ensures var h := Handle(old(State()), t.event, aws);
        State() == h.state && stop == h.stop && t.responder.Pending() == old(t.responder.Pending()) + h.replies
    {
      stop := false;
      if t.event.component == ComponentHeader {
        HandleHeaderTrigger(t);
      } else if t.event.component == ComponentChangeProfile {
        HandleSwitchProfileView(t, aws);
      } else if t.event.component == ComponentRefreshSSO {
        HandleRefreshSSO(t, aws);
      } else if t.event.component == ComponentQuit {
        var events: seq<Event> := [];
        events := events + [QuitEvent];
        assert events == [QuitEvent];
        t.responder.Send(events);
        stop := true;
      }
    }

    /**
     * Run: takes triggers off the request channel in order and handles each,
     * until one of them ends the server or none is left. `aws[k]` holds the
     * outcomes of the outside calls the k-th trigger makes.
     */
    method Run(aws: seq<AwsCalls>) returns (consumed: nat)
      requires Serving(tx.items) && |aws| >= |tx.items|
      requires RunDefined(State(), EventsOf(tx.items), aws)
      modifies this, tx, set t | t in tx.items :: t.responder
      ensures var r := RunFrom(old(State()), EventsOf(old(tx.items)), aws);
        State() == r.state && consumed == r.consumed && tx.items == old(tx.items)[consumed..]
      ensures forall k :: 0 <= k < consumed ==>
                old(tx.items)[k].responder.Pending()
                == old(tx.items[k].responder.Pending()) + RunFrom(old(State()), EventsOf(old(tx.items)), aws).replies[k]
      ensures forall k :: consumed <= k < |old(tx.items)| ==>
                old(tx.items)[k].responder.Pending() == old(tx.items[k].responder.Pending())
    {
      ghost var items := tx.items;
      ghost var final := RunFrom(State(), EventsOf(items), aws);
      ghost var pend := PendingOf(RespondersOf(items));
      RunningAtStart(items, aws, final, pend);
      consumed := RunLoop(items, aws, final, pend);
    }

    /** The turns of Run, from the first trigger until one ends the server or the queue is empty. */
    method RunLoop(ghost items: seq<Trigger>, aws: seq<AwsCalls>, ghost final: RunResult,
                   ghost pend: seq<seq<seq<Event>>>) returns (consumed: nat)
      requires Running(items, aws, final, pend, 0, false)
      modifies this, tx, set t | t in items :: t.responder
      ensures State() == final.state && consumed == final.consumed <= |items|
      ensures tx.items == items[consumed..]
      ensures forall k :: 0 <= k < consumed ==> items[k].responder.Pending() == pend[k] + final.replies[k]
      ensures forall k :: consumed <= k < |items| ==> items[k].responder.Pending() == pend[k]
    {
      consumed := 0;
      var end := false;
      while !end && tx.items != []
        invariant Running(items, aws, final, pend, consumed, end)
        decreases |tx.items|
      {
        end := RunStep(items, aws, final, pend, consumed);
        consumed := consumed + 1;
      }
      RunningDone(items, aws, final, pend, consumed, end);
    }

    /** Before the first turn: nothing is consumed and the whole run lies ahead. */
    lemma RunningAtStart(items: seq<Trigger>, aws: seq<AwsCalls>, final: RunResult, pend: seq<seq<seq<Event>>>)
      requires Serving(items) && |aws| >= |items| && tx.items == items
      requires RunDefined(State(), EventsOf(items), aws) && final == RunFrom(State(), EventsOf(items), aws)
      requires pend == PendingOf(RespondersOf(items))
      ensures Running(items, aws, final, pend, 0, false)
      ensures forall k :: 0 <= k < |items| ==> pend[k] == items[k].responder.Pending()
    {
      RunStart(final, State(), EventsOf(items), aws);
      assert items[0..] == items;
    }

    /** After the last turn: a stopping trigger or the used-up queue leaves the final state. */
    lemma RunningDone(items: seq<Trigger>, aws: seq<AwsCalls>, final: RunResult, pend: seq<seq<seq<Event>>>,
                      consumed: nat, end: bool)
      requires Running(items, aws, final, pend, consumed, end) && (end || tx.items == [])
      ensures State() == final.state && consumed == final.consumed <= |items|
      ensures tx.items == items[consumed..]
      ensures forall k :: 0 <= k < consumed ==> items[k].responder.Pending() == pend[k] + final.replies[k]
      ensures forall k :: consumed <= k < |items| ==> items[k].responder.Pending() == pend[k]
    {
      if !end {
        assert |items[consumed..]| == 0;
        RunEnd(final, State(), EventsOf(items), aws, consumed);
      }
    }

    /**
     * The state of Run after `consumed` triggers of the queue `items`:
     * `final` is what Run does with the whole queue and `pend` what each
     * responder held on entry.
     */
    ghost predicate Running(items: seq<Trigger>, aws: seq<AwsCalls>, final: RunResult,
                            pend: seq<seq<seq<Event>>>, consumed: nat, end: bool)
      reads this, tx, set t | t in items :: t.responder
    {
      |aws| >= |items| == |pend| && consumed <= |items| && tx.items == items[consumed..]
      && Serving(items)
      && |final.replies| == final.consumed && consumed <= final.consumed
      && (end ==> State() == final.state && consumed == final.consumed)
      && (!end ==> RunAhead(final, State(), EventsOf(items), aws, consumed))
      && (forall k :: 0 <= k < consumed ==> items[k].responder.Pending() == pend[k] + final.replies[k])
      && (forall k :: consumed <= k < |items| ==> items[k].responder.Pending() == pend[k])
    }

    /** One turn of Run: receives the next trigger and handles it. */
    method RunStep(ghost items: seq<Trigger>, aws: seq<AwsCalls>, ghost final: RunResult,
                   ghost pend: seq<seq<seq<Event>>>, consumed: nat) returns (end: bool)
      requires Running(items, aws, final, pend, consumed, false) && tx.items != []
      modifies this, tx, items[consumed].responder
      ensures Running(items, aws, final, pend, consumed + 1, end)
    {
      ghost var es := EventsOf(items);
      ghost var st := State();
      RunAdvance(final, st, es, aws, consumed);
      assert items[consumed..][1..] == items[consumed + 1..];
      var trigger := tx.items[0];
      tx.items := tx.items[1..];
      end := HandleTrigger(trigger, aws[consumed]);
      forall k | 0 <= k < |items| && k != consumed
        ensures items[k].responder.Valid() && items[k].responder.Pending() == old(items[k].responder.Pending())
      {
        assert items[k].responder != items[consumed].responder;
      }
    }
  }

  /** The queued triggers own pairwise distinct responders, each in a consistent state. */
  ghost predicate Serving(ts: seq<Trigger>)
    reads set t | t in ts :: t.responder
  {
    (forall i, j :: 0 <= i < j < |ts| ==> ts[i].responder != ts[j].responder)
    && forall i :: 0 <= i < |ts| ==> ts[i].responder.Valid()
  }
}
