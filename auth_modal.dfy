/**
 * The authentication modal of the terminal UI (internal/tui/auth_modal.go):
 * two tabs, Change Profile and Set Access Keys, switched with TAB.  The
 * Change Profile view sends the chosen profile to the backend; the Set
 * Access Keys view sends the typed keys.  Both views close the modal by
 * posting `closeAuthModal` to the Tui through the mailbox.
 *
 * Each widget's tview page stack is a set of visible page names, so that
 * showing or hiding a page name the stack does not hold visibly does
 * nothing.
 */
module AuthModals {
  import opened Wrappers
  import opened Ipc
  import opened TriggerHandling
  import opened AppHandling
  import Backend

  /** The action the Set Access Keys view sends; the backend has no handler for it. */
  const ActionReauthWithNewAccessKeys: string := "reauthWithNewAccessKeys"

  /** The two tabs of the modal. */
  const Tabs: set<string> := {ComponentChangeProfile, ComponentSetAccessKeys}

  /** The current tab and the visible tabs of the modal's page stack. */
  datatype TabView = TabView(current: string, visible: set<string>)

  /** A tab is current and it alone is visible. */
  predicate OneTab(v: TabView) {
    v.current in Tabs && v.visible == {v.current}
  }

  /** setPage: only a known tab can become current. */
  function PageAfterSet(current: string, page: string): (r: string)
    ensures page in Tabs ==> r == page
    ensures page !in Tabs ==> r == current
  {
    if page in Tabs then page else current
  }

  /** The tab cycleTab moves to: the other one, or the empty name from any other page. */
  function NextTab(current: string): (r: string)
    ensures current in Tabs ==> r in Tabs && r != current
    ensures current !in Tabs ==> r == ""
  {
    if current == ComponentChangeProfile then ComponentSetAccessKeys
    else if current == ComponentSetAccessKeys then ComponentChangeProfile
    else ""
  }

  /** The tab cycleTab hides: the current one, or the empty name from any other page. */
  function LeftTab(current: string): string {
    if current in Tabs then current else ""
  }

  /** cycleTab: set the next tab current, show it, hide the one left. */
  function Cycled(v: TabView): (r: TabView)
    ensures OneTab(v) ==> OneTab(r) && r.current != v.current
    ensures v.current !in Tabs ==> r.current == v.current
  {
    TabView(PageAfterSet(v.current, NextTab(v.current)),
            HidePage(ShowPage(v.visible, Tabs, NextTab(v.current)), LeftTab(v.current)))
  }

  /** Pressing TAB twice comes back to the same tab with the same page showing. */
  lemma {:induction false} CycleTwiceRestores(v: TabView)
    requires OneTab(v)
    ensures Cycled(Cycled(v)) == v
  {
    var once := Cycled(v);
    assert once.current == NextTab(v.current);
    assert Cycled(once).current == NextTab(once.current) == v.current;
  }

  /** The modal itself: it tracks which of its two tabs is current. */
  class AuthModal {
    var currentPage: string
    var visible: set<string>

    function Shows(): TabView
      reads this
    {
      TabView(currentPage, visible)
    }

    /** NewAuthModal: the Change Profile tab is current and alone on screen. */
    constructor ()
      ensures Shows() == TabView(ComponentChangeProfile, {ComponentChangeProfile}) && OneTab(Shows())
    {
      currentPage := ComponentChangeProfile;
      visible := {ComponentChangeProfile};
    }

    /** setPage: changes the current tab only to a known one. */
    method SetPage(page: string)
      modifies this`currentPage
      ensures currentPage == PageAfterSet(old(currentPage), page)
    {
      if page in Tabs {
        currentPage := page;
      }
    }

    /** cycleTab, on TAB. */
    method CycleTab()
      modifies this`currentPage, this`visible
      ensures Shows() == Cycled(old(Shows()))
      ensures OneTab(old(Shows())) ==> OneTab(Shows())
    {
      var newPage, oldPage := "", "";
      if currentPage == ComponentChangeProfile {
        oldPage, newPage := ComponentChangeProfile, ComponentSetAccessKeys;
      } else if currentPage == ComponentSetAccessKeys {
        oldPage, newPage := ComponentSetAccessKeys, ComponentChangeProfile;
      }
      SetPage(newPage);
      visible := ShowPage(visible, Tabs, newPage);
      visible := HidePage(visible, oldPage);
    }
  }

  /** The pages of the Change Profile view's own stack. */
  const ChangeProfilePages: set<string> := {"input", "switching", "success"}

  /** The view's Close button hides the success page and posts this to the Tui. */
  const CloseAuthModalEvent: Event := Event(ComponentTui, ActionCloseAuthModal, NoData)

  class ChangeProfileView {
    const handle: AppHandle
    const profiles: seq<string>
    var selectedProfile: string
    var visible: set<string>

    /**
     * The input page is always showing and the "Switching Profile..." page
     * never is: the Switch button asks for a page named "changing", which the
     * stack does not hold.
     */
    ghost predicate Valid()
      reads this
    {
      visible <= ChangeProfilePages && "input" in visible && "switching" !in visible
    }

    /** NewChangeProfileView: lists the available profiles, nothing selected, subscribed as ChangeProfileView. */
    constructor (handle: AppHandle, profiles: seq<string>)
      modifies handle`subscriptions
      ensures this.handle == handle && this.profiles == profiles
      ensures selectedProfile == "" && visible == {"input"} && Valid()
      ensures handle.subscriptions == old(handle.subscriptions)[ComponentChangeProfile := Subscriber(ComponentChangeProfile)]
    {
      this.handle := handle;
      this.profiles := profiles;
      selectedProfile := "";
      visible := {"input"};
      new;
      handle.SetSubscription(ComponentChangeProfile, Subscriber(ComponentChangeProfile));
    }

    /**
     * Choosing an entry of the profile list. Each entry's callback captures
     * the loop variable; this selects the entry's own profile only with the
     * per-iteration loop variables of Go 1.22 and later.
     */
    method SelectProfile(i: nat)
      requires i < |profiles|
      modifies this`selectedProfile
      ensures selectedProfile == profiles[i]
    {
      selectedProfile := profiles[i];
    }

    /**
     * The Switch Profile button: with a profile selected, asks the backend to
     * switch to it and clears the selection; with none, does nothing.
     */
    method SwitchProfile()
      requires Valid() && handle.Valid() && |handle.handler.tx.items| < RequestQueueCapacity
      modifies this`selectedProfile, this`visible, handle.handler`responders, handle.handler.tx
      ensures Valid() && handle.Valid() && selectedProfile == "" && visible == old(visible)
      ensures old(selectedProfile) == "" ==>
        (handle.handler.responders == old(handle.handler.responders)
         && handle.handler.tx.items == old(handle.handler.tx.items))
      ensures old(selectedProfile) != "" ==>
        (|handle.handler.responders| == |old(handle.handler.responders)| + 1
         && fresh(handle.handler.responders[|handle.handler.responders| - 1])
         && handle.handler.tx.items == old(handle.handler.tx.items)
            + [Trigger(Event(ComponentChangeProfile, ActionChangeProfile, ChangeProfile(old(selectedProfile))),
                       handle.handler.responders[|handle.handler.responders| - 1])])
    {
      if selectedProfile != "" {
        visible := ShowPage(visible, ChangeProfilePages, "changing");
        handle.SendTrigger(ComponentChangeProfile, ActionChangeProfile, ChangeProfile(selectedProfile));
        selectedProfile := "";
      }
    }

    /** Render, on the backend's reply: hides the switching page and shows the success page. */
    method Render(event: Event)
      requires Valid()
      modifies this`visible
      ensures Valid() && visible == old(visible) + {"success"}
    {
      visible := HidePage(visible, "switching");
      visible := ShowPage(visible, ChangeProfilePages, "success");
    }

    /** The success page's Close button: hides that page and asks the Tui to close the modal. */
    method Close()
      requires Valid() && handle.handler.MailboxValid()
      modifies this`visible, handle.handler`events, handle.handler`hasEvents
      ensures Valid() && visible == old(visible) - {"success"}
      ensures handle.handler.MailboxValid()
      ensures handle.handler.events == Route(old(handle.handler.events), CloseAuthModalEvent)
    {
      visible := HidePage(visible, "success");
      visible := ShowPage(visible, ChangeProfilePages, "inputs");
      handle.PassEvent(CloseAuthModalEvent);
    }
  }

  /** The pages of the Set Access Keys view's own stack. */
  const AccessKeysPages: set<string> := {"inputs", "setting", "success"}

  class SetAccessKeysView {
    const handle: AppHandle
    var setting: bool
    var visible: set<string>

    ghost predicate Valid()
      reads this
    {
      visible <= AccessKeysPages && "inputs" in visible
    }

    /** NewSetAccessKeysView: not setting, input page showing, subscribed as SetAccessKeysView. */
    constructor (handle: AppHandle)
      modifies handle`subscriptions
      ensures this.handle == handle && !setting && visible == {"inputs"} && Valid()
      ensures handle.subscriptions == old(handle.subscriptions)[ComponentSetAccessKeys := Subscriber(ComponentSetAccessKeys)]
    {
      this.handle := handle;
      setting := false;
      visible := {"inputs"};
      new;
      handle.SetSubscription(ComponentSetAccessKeys, Subscriber(ComponentSetAccessKeys));
    }

    /**
     * The Set Access Keys button: with both fields filled, marks the view as
     * setting, shows the setting page and sends the keys (with no region) to
     * the backend; with either field empty, does nothing.
     */
    method SetAccessKeys(accessKeyID: string, secretAccessKey: string)
      requires Valid() && handle.Valid() && |handle.handler.tx.items| < RequestQueueCapacity
      modifies this`setting, this`visible, handle.handler`responders, handle.handler.tx
      ensures Valid() && handle.Valid()
      ensures accessKeyID == "" || secretAccessKey == "" ==>
        (setting == old(setting) && visible == old(visible)
         && handle.handler.responders == old(handle.handler.responders)
         && handle.handler.tx.items == old(handle.handler.tx.items))
      ensures accessKeyID != "" && secretAccessKey != "" ==>
        (setting && visible == old(visible) + {"setting"}
         && |handle.handler.responders| == |old(handle.handler.responders)| + 1
         && fresh(handle.handler.responders[|handle.handler.responders| - 1])
         && handle.handler.tx.items == old(handle.handler.tx.items)
            + [Trigger(AccessKeysEvent(accessKeyID, secretAccessKey),
                       handle.handler.responders[|handle.handler.responders| - 1])])
    {
      if accessKeyID != "" && secretAccessKey != "" {
        setting := true;
        visible := ShowPage(visible, AccessKeysPages, "setting");
        handle.SendTrigger(ComponentSetAccessKeys, ActionReauthWithNewAccessKeys,
                           AccessKeys(AWSAccessKeysData(accessKeyID, secretAccessKey, "")));
      }
    }

    /** Render: ends a pending setting by swapping the setting page for the success page; otherwise does nothing. */
    method Render(event: Event)
      requires Valid()
      modifies this`setting, this`visible
      ensures Valid() && !setting
      ensures old(setting) ==> visible == old(visible) - {"setting"} + {"success"}
      ensures !old(setting) ==> visible == old(visible)
    {
      if setting {
        setting := false;
        visible := HidePage(visible, "setting");
        visible := ShowPage(visible, AccessKeysPages, "success");
      }
    }

    /** The success page's Close button. */
    method Close()
      requires Valid() && handle.handler.MailboxValid()
      modifies this`visible, handle.handler`events, handle.handler`hasEvents
      ensures Valid() && visible == old(visible) - {"success"} + {"inputs"}
      ensures handle.handler.MailboxValid()
      ensures handle.handler.events == Route(old(handle.handler.events), CloseAuthModalEvent)
    {
      visible := HidePage(visible, "success");
      visible := ShowPage(visible, AccessKeysPages, "inputs");
      handle.PassEvent(CloseAuthModalEvent);
    }
  }

  /** The trigger the Set Access Keys button sends. */
  function AccessKeysEvent(accessKeyID: string, secretAccessKey: string): (e: Event)
    ensures e.component == ComponentSetAccessKeys && e.data.AccessKeys?
    ensures e.data.keys.accessKeyID == accessKeyID && e.data.keys.secretAccessKey == secretAccessKey
    ensures e.data.keys.region == ""
  {
    Event(ComponentSetAccessKeys, ActionReauthWithNewAccessKeys,
          AccessKeys(AWSAccessKeysData(accessKeyID, secretAccessKey, "")))
  }

  /**
   * The backend answers neither this trigger nor any other request of the
   * view, so it keeps waiting: whatever the server state and AWS outcomes,
   * handling it produces no reply and changes nothing.
   */
  lemma AccessKeysAreNeverAnswered(st: Backend.ServerState, accessKeyID: string, secretAccessKey: string,
                                   aws: Backend.AwsCalls)
    ensures Backend.Defined(st, AccessKeysEvent(accessKeyID, secretAccessKey), aws)
    ensures Backend.Handle(st, AccessKeysEvent(accessKeyID, secretAccessKey), aws) == Backend.Handled(st, [], false)
  {
    Backend.UnansweredTriggerIsIgnored(st, AccessKeysEvent(accessKeyID, secretAccessKey), aws);
  }
}
