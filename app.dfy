/**
 * The top level of the terminal UI (internal/tui/app.go): the Tui, which
 * stacks the modal pages over the main page and opens, closes and toggles
 * them, and the Header, which shows the identity in use as seven labelled
 * lines.
 *
 * The state that matters is which page the Tui thinks is current and which
 * pages of its stack are visible; a `View` is that pair, and the Tui's
 * methods are proved against the pure functions on views below.
 */
module App {
  import opened Wrappers
  import opened Ipc
  import opened TriggerHandling
  import opened AppHandling
  import Backend

  /** The page under every modal; it is never hidden. */
  const MainPage: string := "main"

  /** The modal pages of the Tui, keyed by their component names. */
  const Modals: set<string> := {ComponentErrorModal, ComponentAuthModal, ComponentHelpModal, ComponentRefreshSSO}

  /** Every page of the Tui's page stack. */
  const StackPages: set<string> := {MainPage} + Modals

  /** The Tui's notion of the current page, and the visible pages of its stack. */
  datatype View = View(current: string, visible: set<string>)

  /**
   * The main page is showing, only stack pages are visible, and the current
   * page is one the Tui uses; a current modal is on screen.
   */
  predicate WellFormed(v: View) {
    && MainPage in v.visible
    && v.visible <= StackPages
    && (v.current == "" || v.current in StackPages)
    && (v.current in Modals ==> v.current in v.visible)
  }

  /** The view of a new Tui: nothing current and only the main page visible. */
  function InitialView(): (v: View)
    ensures WellFormed(v) && v.visible * Modals == {}
  {
    View("", {MainPage})
  }

  /**
   * Ctrl-A / Ctrl-H / Ctrl-S on a modal: a modal that is not current becomes
   * current and the only visible modal; the current one is closed, leaving
   * nothing current.  The main page is untouched either way.
   */
  function Toggled(v: View, name: string): (r: View)
    requires name in Modals
    ensures name != v.current ==> r.current == name && r.visible * Modals == {name}
    ensures name == v.current ==> r.current == "" && r.visible == v.visible - {name}
    ensures r.visible - Modals == v.visible - Modals
    ensures forall p :: p in r.visible && p != name ==> p in v.visible
  {
    if name != v.current then View(name, (v.visible + {name}) - (Modals - {name}))
    else View("", v.visible - {name})
  }

  /** ShowComponent: the named modal becomes current and visible; others stay as they were. */
  function Shown(v: View, name: string): (r: View)
    requires name in Modals
    ensures r.current == name
    ensures v.current != name ==> r.visible == v.visible + {name}
    ensures v.current == name ==> r == v
  {
    if v.current != name then View(name, v.visible + {name}) else v
  }

  /** HideComponent: only the current modal is hidden, and the main page becomes current. */
  function Hidden(v: View, name: string): (r: View)
    requires name in Modals
    ensures v.current == name ==> r.current == MainPage && r.visible == v.visible - {name}
    ensures v.current != name ==> r == v
  {
    if v.current == name then View(MainPage, v.visible - {name}) else v
  }

  /** The actions the Tui's Render acts on. */
  predicate Handled(action: string) {
    action in {ActionShowErrorModal, ActionCloseErrorModal, ActionShowReauthenticateSSOModal,
               ActionCloseReauthenticateSSOModal, ActionCloseAuthModal}
  }

  /** The Tui's Render: five actions open or close a modal; any other action does nothing. */
  function Rendered(v: View, action: string): (r: View)
    ensures action == ActionShowErrorModal ==> r == Shown(v, ComponentErrorModal)
    ensures action == ActionCloseErrorModal ==> r == Hidden(v, ComponentErrorModal)
    ensures action == ActionShowReauthenticateSSOModal ==> r == Shown(v, ComponentRefreshSSO)
    ensures action == ActionCloseReauthenticateSSOModal ==> r == Hidden(v, ComponentRefreshSSO)
    ensures action == ActionCloseAuthModal ==> r == Hidden(v, ComponentAuthModal)
    ensures !Handled(action) ==> r == v
  {
    if action == ActionShowErrorModal then Shown(v, ComponentErrorModal)
    else if action == ActionCloseErrorModal then Hidden(v, ComponentErrorModal)
    else if action == ActionShowReauthenticateSSOModal then Shown(v, ComponentRefreshSSO)
    else if action == ActionCloseReauthenticateSSOModal then Hidden(v, ComponentRefreshSSO)
    else if action == ActionCloseAuthModal then Hidden(v, ComponentAuthModal)
    else v
  }

  /** Every view operation keeps the main page showing and stays within the stack. */
  lemma ViewOperationsPreserveWellFormed(v: View, name: string, action: string)
    requires WellFormed(v) && name in Modals
    ensures WellFormed(Toggled(v, name)) && WellFormed(Shown(v, name))
    ensures WellFormed(Hidden(v, name)) && WellFormed(Rendered(v, action))
  {
  }

  /** Pressing the same toggle key twice on a closed modal leaves no modal open and nothing current. */
  lemma {:induction false} ToggleTwiceCloses(v: View, name: string)
    requires name in Modals && name != v.current
    ensures Toggled(Toggled(v, name), name).current == ""
    ensures Toggled(Toggled(v, name), name).visible * Modals == {}
    ensures Toggled(Toggled(v, name), name).visible - Modals == v.visible - Modals
  {
    var once := Toggled(v, name);
    assert once.visible * Modals == {name};
    assert Toggled(once, name).visible == once.visible - {name};
  }

  /** Showing a modal and then hiding it always ends on the main page with that modal hidden. */
  lemma ShowThenHide(v: View, name: string)
    requires name in Modals
    ensures Hidden(Shown(v, name), name) == View(MainPage, v.visible - {name})
  {
  }

  /**
   * Hiding a modal that is visible but no longer current leaves it on
   * screen: e.g. the error modal stays up once the SSO modal was shown over it.
   */
  lemma {:induction false} StaleModalStaysVisible(v: View)
    requires WellFormed(v) && v.current == ""
    ensures var r := Rendered(Rendered(Rendered(v, ActionShowErrorModal), ActionShowReauthenticateSSOModal),
                              ActionCloseErrorModal);
      && ComponentErrorModal in r.visible && ComponentRefreshSSO in r.visible && r.current == ComponentRefreshSSO
  {
    var a := Rendered(v, ActionShowErrorModal);
    assert a == View(ComponentErrorModal, v.visible + {ComponentErrorModal});
    var b := Rendered(a, ActionShowReauthenticateSSOModal);
    assert b == View(ComponentRefreshSSO, a.visible + {ComponentRefreshSSO});
    assert Rendered(b, ActionCloseErrorModal) == b;
  }

  /** The keys the Tui binds; every other key passes through. */
  datatype Key = CtrlA | CtrlH | CtrlS | CtrlC | OtherKey

  /** The modal a key toggles, if any. */
  function ToggleTarget(key: Key): (r: Option<string>)
    ensures r.Some? ==> r.value in Modals
    ensures r.None? <==> key.CtrlC? || key.OtherKey?
  {
    match key
    case CtrlA => Some(ComponentAuthModal)
    case CtrlH => Some(ComponentHelpModal)
    case CtrlS => Some(ComponentRefreshSSO)
    case _ => None
  }

  /**
   * The list toggleComponent hides when it opens `name`: as many empty names
   * as there are other modals, then the other modals in any order.
   */
  method OtherModals(name: string) returns (others: seq<string>)
    requires name in Modals
    ensures forall p :: p in others ==> p == "" || (p in Modals && p != name)
    ensures forall p :: p in Modals && p != name ==> p in others
  {
    others := seq(|Modals| - 1, _ => "");
    var todo := Modals;
    while todo != {}
      invariant todo <= Modals
      invariant forall p :: p in others ==> p == "" || (p in Modals - todo && p != name)
      invariant forall p :: p in Modals - todo && p != name ==> p in others
      decreases todo
    {
      var p :| p in todo;
      if p != name {
        others := others + [p];
      }
      todo := todo - {p};
    }
  }

  /** Hiding that list after showing `name` hides exactly the other modals, the empty names hiding nothing. */
  lemma HidingTheOthers(shown: set<string>, others: seq<string>, name: string)
    requires shown <= StackPages && name in Modals
    requires forall p :: p in others ==> p == "" || (p in Modals && p != name)
    requires forall p :: p in Modals && p != name ==> p in others
    ensures shown - (set p | p in others) == shown - (Modals - {name})
  {
    assert "" !in StackPages;
  }

  class Tui {
    const handle: AppHandle
    var currentPage: string
    var visible: set<string>

    function Shows(): View
      reads this
    {
      View(currentPage, visible)
    }

    ghost predicate Valid()
      reads this
    {
      WellFormed(Shows())
    }

    /** NewTui, less the widgets: the stack shows the main page and the Tui subscribes as `Tui`. */
    constructor (handle: AppHandle)
      modifies handle`subscriptions
      ensures this.handle == handle && Shows() == InitialView() && Valid()
      ensures handle.subscriptions == old(handle.subscriptions)[ComponentTui := Subscriber(ComponentTui)]
    {
      this.handle := handle;
      currentPage := "";
      visible := {MainPage};
      new;
      handle.SetSubscription(ComponentTui, Subscriber(ComponentTui));
    }

    /**
     * toggleComponent: collects the names of the other modals (after as many
     * empty names as there are other modals, which hide nothing) and either
     * opens `name` and hides all of them, or closes `name`.
     */
    method ToggleComponent(name: string)
      requires Valid() && name in Modals
      modifies this`currentPage, this`visible
      ensures Valid() && Shows() == Toggled(old(Shows()), name)
    {
      var others := OtherModals(name);
      if name != currentPage {
        currentPage := name;
        visible := ShowPage(visible, StackPages, name);
        ghost var shown := visible;
        HidePages(others);
        HidingTheOthers(shown, others, name);
      } else {
        currentPage := "";
        visible := HidePage(visible, name);
      }
      ViewOperationsPreserveWellFormed(old(Shows()), name, "");
    }

    /** Hides each listed page in turn. */
    method HidePages(pages: seq<string>)
      modifies this`visible
      ensures visible == old(visible) - set p | p in pages
    {
      var i := 0;
      while i < |pages|
        invariant 0 <= i <= |pages|
        invariant visible == old(visible) - set p | p in pages[..i]
      {
        assert pages[..i + 1] == pages[..i] + [pages[i]];
        visible := HidePage(visible, pages[i]);
        i := i + 1;
      }
      assert pages[..i] == pages;
    }

    /** ShowComponent: makes a modal current and visible unless it already is current. */
    method ShowComponent(name: string)
      requires Valid() && name in Modals
      modifies this`currentPage, this`visible
      ensures Valid() && Shows() == Shown(old(Shows()), name)
    {
      if currentPage != name {
        currentPage := name;
        visible := ShowPage(visible, StackPages, name);
      }
    }

    /** HideComponent: hides a modal only if it is the current page, and the main page becomes current. */
    method HideComponent(name: string)
      requires Valid() && name in Modals
      modifies this`currentPage, this`visible
      ensures Valid() && Shows() == Hidden(old(Shows()), name)
    {
      if currentPage == name {
        currentPage := MainPage;
        visible := HidePage(visible, name);
      }
    }

    /** The Tui as a subscriber: routes a delivered event's action to Show/HideComponent. */
    method Render(response: Event)
      requires Valid()
      modifies this`currentPage, this`visible
      ensures Valid() && Shows() == Rendered(old(Shows()), response.action)
    {
      if response.action == ActionShowErrorModal {
        ShowComponent(ComponentErrorModal);
      } else if response.action == ActionCloseErrorModal {
        HideComponent(ComponentErrorModal);
      } else if response.action == ActionShowReauthenticateSSOModal {
        ShowComponent(ComponentRefreshSSO);
      } else if response.action == ActionCloseReauthenticateSSOModal {
        HideComponent(ComponentRefreshSSO);
      } else if response.action == ActionCloseAuthModal {
        HideComponent(ComponentAuthModal);
      }
    }

    /** The input capture: three keys toggle a modal, Ctrl-C asks the backend to quit. */
    method HandleKey(key: Key)
      requires Valid() && handle.Valid()
      requires key.CtrlC? ==> |handle.handler.tx.items| < RequestQueueCapacity
      modifies this`currentPage, this`visible, handle.handler`responders, handle.handler.tx
      ensures Valid() && handle.Valid()
      ensures ToggleTarget(key).Some? ==> Shows() == Toggled(old(Shows()), ToggleTarget(key).value)
      ensures ToggleTarget(key).None? ==> Shows() == old(Shows())
      ensures !key.CtrlC? ==>
        (handle.handler.responders == old(handle.handler.responders)
         && handle.handler.tx.items == old(handle.handler.tx.items))
      ensures key.CtrlC? ==>
        (|handle.handler.responders| == |old(handle.handler.responders)| + 1
         && fresh(handle.handler.responders[|handle.handler.responders| - 1])
         && handle.handler.tx.items == old(handle.handler.tx.items)
            + [Trigger(Backend.QuitEvent, handle.handler.responders[|handle.handler.responders| - 1])])
    {
      match key
      case CtrlA => ToggleComponent(ComponentAuthModal);
      case CtrlH => ToggleComponent(ComponentHelpModal);
      case CtrlS => ToggleComponent(ComponentRefreshSSO);
      case CtrlC => handle.SendTrigger(ComponentQuit, ActionEnd, NoData);
      case OtherKey =>
    }
  }

  // The header text, and reading it back line by line.

  const HeaderLabels: seq<string> := [
    "[yellow]AWS Profile: [white]",
    "[yellow]AWS SSO Role Name: [white]",
    "[yellow]AWS Account Id: [white]",
    "[yellow]AWS Assumed Role: [white]",
    "[yellow]AWS Access Key ID: [white]",
    "[yellow]AWS Credentials Source: [white]",
    "[yellow]AWS Region: [white]"
  ]

  /** The shown fields, in the order of the labels. */
  function HeaderFields(c: AWSConfigData): (r: seq<string>)
    ensures |r| == |HeaderLabels|
  {
    [c.profile, c.ssoRoleName, c.accountId, c.assumeRoleARN, c.accessKeyID, c.credentialsSource, c.region]
  }

  /** Each line is its label followed by its field. */
  function HeaderLines(c: AWSConfigData): (r: seq<string>)
    ensures |r| == 7 && forall i :: 0 <= i < 7 ==> r[i] == HeaderLabels[i] + HeaderFields(c)[i]
  {
    var f := HeaderFields(c);
    [HeaderLabels[0] + f[0], HeaderLabels[1] + f[1], HeaderLabels[2] + f[2], HeaderLabels[3] + f[3],
     HeaderLabels[4] + f[4], HeaderLabels[5] + f[5], HeaderLabels[6] + f[6]]
  }

  /** The lines joined by newlines, with no newline after the last one. */
  function Join(lines: seq<string>): string
    decreases |lines|
  {
    if |lines| == 0 then ""
    else if |lines| == 1 then lines[0]
    else lines[0] + "\n" + Join(lines[1..])
  }

  /** The text of the header. */
  function HeaderText(c: AWSConfigData): string {
    Join(HeaderLines(c))
  }

  /** The position of the first newline in `s`. */
  function FirstNewline(s: string): (i: nat)
    requires '\n' in s
    ensures i < |s| && s[i] == '\n' && '\n' !in s[..i]
  {
    if s[0] == '\n' then 0
    else
      var i := FirstNewline(s[1..]);
      assert s[1..][..i] == s[1..i + 1];
      1 + i
  }

  /** The text cut at every newline. */
  function Lines(s: string): (r: seq<string>)
    ensures |r| >= 1
    decreases |s|
  {
    if '\n' !in s then [s]
    else
      var i := FirstNewline(s);
      [s[..i]] + Lines(s[i + 1..])
  }

  /** Cutting at newlines undoes joining lines that hold none. */
  lemma {:induction false} LinesOfJoin(ls: seq<string>)
    requires |ls| >= 1 && forall k :: 0 <= k < |ls| ==> '\n' !in ls[k]
    ensures Lines(Join(ls)) == ls
    decreases |ls|
  {
    if |ls| > 1 {
      var rest := Join(ls[1..]);
      var s := ls[0] + "\n" + rest;
      assert Join(ls) == s;
      CutAtFirstNewline(ls[0], rest);
      assert Lines(s) == [ls[0]] + Lines(rest);
      LinesOfJoin(ls[1..]);
      assert [ls[0]] + ls[1..] == ls;
    }
  }

  /** In `line + "\n" + rest`, with no newline in `line`, the first newline ends `line`. */
  lemma CutAtFirstNewline(line: string, rest: string)
    requires '\n' !in line
    ensures var s := line + "\n" + rest;
      '\n' in s && FirstNewline(s) == |line| && s[..|line|] == line && s[|line| + 1..] == rest
  {
    var s := line + "\n" + rest;
    assert s[|line|] == '\n' && s[..|line|] == line;
    var i := FirstNewline(s);
    assert i <= |line| by {
      assert '\n' !in s[..i];
    }
    assert '\n' in s[..i + 1];
    assert s[|line| + 1..] == rest;
  }

  predicate NoNewlines(c: AWSConfigData) {
    forall i :: 0 <= i < 7 ==> '\n' !in HeaderFields(c)[i]
  }

  /**
   * The header shows exactly seven lines, line i being the i-th label
   * followed by the i-th field, as long as no field itself holds a newline.
   */
  lemma HeaderShowsSevenLabelledLines(c: AWSConfigData)
    requires NoNewlines(c)
    ensures |Lines(HeaderText(c))| == 7
    ensures forall i :: 0 <= i < 7 ==> Lines(HeaderText(c))[i] == HeaderLabels[i] + HeaderFields(c)[i]
  {
    var ls := HeaderLines(c);
    LabelsHoldNoNewline();
    forall k | 0 <= k < 7 ensures '\n' !in ls[k] {
      assert '\n' !in HeaderLabels[k];
    }
    LinesOfJoin(ls);
  }

  lemma LabelsHoldNoNewline()
    ensures forall k :: 0 <= k < 7 ==> '\n' !in HeaderLabels[k]
  {
  }

  class Header {
    const handle: AppHandle
    var config: AWSConfigData
    var text: string

    /**
     * NewHeader: shows the given identity, subscribes as `Header` and asks the
     * backend for the identity in use.
     */
    constructor (config: AWSConfigData, handle: AppHandle)
      requires handle.Valid() && |handle.handler.tx.items| < RequestQueueCapacity
      modifies handle`subscriptions, handle.handler`responders, handle.handler.tx
      ensures this.handle == handle && this.config == config && text == HeaderText(config)
      ensures handle.Valid()
      ensures handle.subscriptions == old(handle.subscriptions)[ComponentHeader := Subscriber(ComponentHeader)]
      ensures |handle.handler.responders| == |old(handle.handler.responders)| + 1
      ensures handle.handler.tx.items == old(handle.handler.tx.items)
        + [Trigger(Event(ComponentHeader, ActionGetAuthData, NoData),
                   handle.handler.responders[|handle.handler.responders| - 1])]
    {
      this.handle := handle;
      this.config := config;
      text := HeaderText(config);
      new;
      handle.SetSubscription(ComponentHeader, Subscriber(ComponentHeader));
      TriggerAuth();
    }

    /** Asks the backend for the identity in use; the reply is rendered here. */
    method TriggerAuth()
      requires handle.Valid() && |handle.handler.tx.items| < RequestQueueCapacity
      modifies handle.handler`responders, handle.handler.tx
      ensures handle.Valid()
      ensures |handle.handler.responders| == |old(handle.handler.responders)| + 1
      ensures handle.handler.tx.items == old(handle.handler.tx.items)
        + [Trigger(Event(ComponentHeader, ActionGetAuthData, NoData),
                   handle.handler.responders[|handle.handler.responders| - 1])]
    {
      handle.SendTrigger(ComponentHeader, ActionGetAuthData, NoData);
    }

    /** Render: keeps the delivered identity and shows it. */
    method Render(event: Event)
      requires event.data.ConfigData?
      modifies this`config, this`text
      ensures config == event.data.config && text == HeaderText(config)
    {
      config := event.data.config;
      text := HeaderText(config);
    }
  }
}
