# canopy event bus, in Dafny

canopy is a terminal console for inspecting and changing the AWS identity in
use: the profile, the SSO session and static access keys. Its UI must never
block, while the AWS calls do. The two are joined by a small bus:

- A widget raises a **trigger**: an addressed request plus a one-slot
  response channel.
- The trigger goes through a 100-slot queue to the single **backend server**.
  The server handles one trigger at a time and writes lists of **events** into
  the trigger's response channel.
- On the UI side, the **trigger handler** keeps the FIFO of pending response
  channels. It polls them without blocking and merges every event it gets
  into a **mailbox**, one event per destination component, where the latest
  write wins.
- The **event-handler loop** takes the whole mailbox at once. If the mailbox
  holds a `Quit` event, the loop stops. Otherwise it gives every subscribed
  component the event addressed to it.

The model covers these parts:

- **Wire vocabulary.** `Ipc` holds the component and action names, the
  payload records and `Event`.
- **Trigger handler.** `TriggerHandling` has classes for the response
  channel (`Responder`), the request queue (`TriggerChannel`) and the
  `TriggerHandler`. The handler's drain loop is proved against the pure
  mailbox algebra `RouteAll`/`Latest`.
- **Auth helpers.** `Auth` models the helpers the server relies on:
  - profile and region precedence;
  - parsing of profile-file lines;
  - the merge of the two profile files;
  - classification of an expired SSO session;
  - the empty-key guard.
- **Backend server.** In `Backend`, the pure function `Handle` specifies one
  trigger, and `RunFrom` specifies a whole queue. The `Server` class's
  methods are proved to write exactly those replies and to reach exactly
  that state.
- **Event-handler loop.** `AppHandling` has the subscriptions and one pass
  of the loop, plus `Dispatch`, the pure delivery function.
- **Tui and Header.** `App` has the Tui's modal page stack: toggling,
  showing, hiding, the Render action routing and the key bindings. It also
  has the Header and its seven-line text.
- **Auth modal.** `AuthModals` has the modal's two tabs and the buttons of
  the Change Profile and Set Access Keys views.
- **End-to-end lemmas.** `Scenarios` follows a trigger from the widget that
  raises it, through the server and the mailbox, to the component that
  renders the reply.

Outside calls are parameters:
- The environment is a map (`Env`).
- The contents of a profile file are `Option<seq<string>>`, where `None`
  means the file could not be read.
- SDK results are an `SdkOutcome` value.
- The result of `aws sso login` is an `Option<string>` holding the error
  text.

These outcomes are oracles: each trigger the server handles gets its own
`AwsCalls`.

Points of the code worth knowing:

- **Not every trigger gets exactly one reply:**
  - Triggers for unknown components or actions get no reply at all. The Set
    Access Keys view's `reauthWithNewAccessKeys` is one of them, so that
    view waits forever (`AuthModals.AccessKeysAreNeverAnswered`).
  - A profile switch or SSO refresh whose reload fails writes the error
    pair and then the success pair as well
    (`Backend.FailedSwitchStillReportsSuccess`,
    `Backend.SuccessfulLoginClearsExpiry`).
- **The second write of a failed reload blocks.** The channel holds one
  message, and the UI stops polling a channel after its first receive. The
  model keeps the extra write as a blocked send on the `Responder`; it is
  not a second delivered reply. `AppHandling.AppHandle.RunEventHandlerStep`
  states that each polled channel loses only its oldest message and that a
  channel which answered leaves the list, so the success pair then sits in
  that channel and is never read.
- **Payload mismatches are preconditions.** A payload of the wrong variant
  panics in the code. The model turns this into a `requires` (or into the
  `Backend.Defined` predicate) rather than a contained error.

## Model

| member | source | states |
|---|---|---|
| TriggerHandling.RouteAllIsLatestOverride | internal/ipc/triggerhandler.go:57-63 | routing a sequence of events into a mailbox is the same as overriding the mailbox with, per destination, the last event of the sequence addressed to it |
| TriggerHandling.RouteAllAt | internal/ipc/triggerhandler.go:57-63 | per destination: after routing, a component that some event addressed holds exactly the last such event; any other component keeps what it held, or stays absent |
| TriggerHandling.RouteAllAppend | internal/ipc/triggerhandler.go:65-81 | routing two batches one after the other is routing their concatenation |
| TriggerHandling.LatestSnoc | internal/ipc/triggerhandler.go:57-63 | appending one event overrides only its own destination in the latest-per-destination map |
| TriggerHandling.TriggerHandler.RouteEvent | internal/ipc/triggerhandler.go:57-63 | the event replaces whatever its destination held, the flag is set, and every other destination is untouched |
| TriggerHandling.TriggerHandler.PassEvent | internal/ipc/triggerhandler.go:53-55 | relaying an event is routing it into the mailbox |
| TriggerHandling.TriggerHandler.MakeTrigger | internal/ipc/triggerhandler.go:44-50 | with room in the queue, the trigger is appended to the request queue with a fresh, empty response channel, and that channel is appended to the pending FIFO |
| TriggerHandling.NewTrigger | internal/ipc/triggerhandler.go:19-24 | a trigger carries its event and a new, empty response channel |
| TriggerHandling.Responder.Send | internal/backend/server.go:126 | a write to a response channel queues behind what it already holds: it fills the single slot, or blocks behind it |
| TriggerHandling.Responder.TryReceive | internal/ipc/triggerhandler.go:69-78 | a non-blocking receive returns the front message, or nothing when the channel is empty, and removes exactly that message |
| TriggerHandling.Unanswered | internal/ipc/triggerhandler.go:67-80 | the kept responders are exactly the polled ones whose slot was empty, in order and without repeats |
| TriggerHandling.TriggerHandler.ReceiveEvents | internal/ipc/triggerhandler.go:65-81 | one drain pass: every responder that had a reply is dropped and its events are routed in FIFO order; the ones without a reply are kept in order; the flag is raised exactly when some event arrived; each channel lost exactly its front message |
| TriggerHandling.TriggerHandler.PollAll | internal/ipc/triggerhandler.go:68-79 | polls every responder once, in FIFO order: keeps exactly those whose slot was empty, routes the replies in order into the mailbox, and takes the front message of each responder that had one |
| TriggerHandling.TriggerHandler.Poll | internal/ipc/triggerhandler.go:69-78 | polling one responder routes its reply if it had one, keeps it exactly when it had none, and leaves every other responder as it was |
| TriggerHandling.TriggerHandler.RouteEach | internal/ipc/triggerhandler.go:71-74 | routing the events of one reply in order gives the mailbox `RouteAll` of them |
| TriggerHandling.TriggerHandler.GetEvents | internal/ipc/triggerhandler.go:83-93 | take returns the whole mailbox exactly when the flag was set and leaves it empty with the flag down, so a second take returns nothing |
| Auth.GetAWSProfile | internal/aws/auth/auth.go:149-157 | the profile is AWS_PROFILE if set, otherwise AWS_DEFAULT_PROFILE if set, otherwise "default", and never empty |
| Auth.GetAWSRegion | internal/aws/auth/auth.go:168-177 | the region is AWS_REGION if set, otherwise AWS_DEFAULT_REGION, and it is empty only when both are unset |
| Auth.ParseProfileLine | internal/aws/auth/auth.go:223-231 | a line names a profile exactly when its trimmed form is `[profile ` + a non-empty name + `]`, and that name is what it yields |
| Auth.BracketedName | internal/aws/auth/auth.go:226-228 | on a line that starts with `[profile ` and ends with `]`, the two cannot overlap, and trimming both leaves exactly the text between them |
| Auth.ProfilesOfMembership | internal/aws/auth/auth.go:213-239 | a name is among a file's profiles exactly when some line of the file names it |
| Auth.ProfilesOfAppend | internal/aws/auth/auth.go:222-232 | the profiles of a file are the profiles of its parts in order |
| Auth.NamesMembership | internal/aws/auth/auth.go:224-231 | a name is collected exactly when some parsed line yielded it |
| Auth.GetProfilesFromFile | internal/aws/auth/auth.go:213-239 | an unreadable file gives an error; a readable one gives its profile names in line order |
| Auth.AddAll | internal/aws/auth/auth.go:188-204 | adding a file's names to the seen set gives the union |
| Auth.GetAvailableProfiles | internal/aws/auth/auth.go:179-211 | the list holds no duplicates, and holds a name exactly when one of the two readable files names it |
| Auth.ListOf | internal/aws/auth/auth.go:206-209 | the slice built from the profile set holds every member exactly once and nothing else |
| Auth.ClassifyCredentialError | internal/aws/auth/auth.go:60-71 | a credential error mentioning the SDK's expired-session text becomes the SSO login error with the fixed "expired or invalid" message; any other keeps its text |
| Auth.ClassifiedExpiryIsRecognised | internal/backend/server.go:19-27 | the SSO login error the auth layer produces is recognised as an expired session by the server |
| Auth.GetAwsConfigFromProfileConfig | internal/aws/auth/auth.go:31-95 | it succeeds exactly when the load and the credential retrieval succeed; load errors pass through and credential errors are classified; on success the given profile and region are kept, an empty profile becomes GetAWSProfile of the environment, an empty region becomes GetAWSRegion for that profile and, when that is empty too, the loaded region; the profile is never empty, the key id and source come from the credentials, and the SSO role name and account id are empty when their lookups fail |
| Auth.GetAwsFromAccessKeys | internal/aws/auth/auth.go:97-147 | it yields no config, and no error, exactly when a key is empty; failures are SDK errors; on success the profile is empty, the given key id and region are kept, an empty region becomes GetAWSRegion of the environment, there is no role, and the account id is empty when its lookup fails |
| Backend.InitialState | internal/backend/server.go:18-33 | the config is nil exactly when the load failed, and the session counts as expired exactly when the failure's text carries the SSO expiry message |
| Backend.Server.constructor | internal/backend/server.go:18-33 | a new server's state is the initial state of its configuration load |
| Backend.Refresh | internal/backend/server.go:186-194 | a successful reload replaces the config and writes nothing; a failed one keeps it and writes the error pair with the refresh prefix |
| Backend.Server.RefreshAwsConfig | internal/backend/server.go:186-194 | the server's config and the responder's pending writes change exactly as `Refresh` says |
| Backend.TriggerErrorMessage | internal/backend/server.go:168-184 | writes one reply: the Tui's show-error action, then the error message for the error modal |
| Backend.QuitStopsServer | internal/backend/server.go:54-75 | handling a trigger ends the server exactly when it is addressed to Quit, whose one reply is the terminal event |
| Backend.UnansweredTriggerIsIgnored | internal/backend/server.go:54-75 | a trigger gets no reply exactly when no handler case matches its component and action, and then nothing changes |
| Backend.RepliesHaveDistinctDestinations | internal/backend/server.go:77-166 | no reply of any handler addresses the same component twice |
| Backend.DistinctReplyFullyDelivered | internal/ipc/triggerhandler.go:71-74 | every event of such a reply survives the merge into the mailbox |
| Backend.ExpiredSessionPromptsReauthentication | internal/backend/server.go:81-94 | with an expired session, the header's request is answered by one reply whose two events both reach the mailbox: the Tui's show-SSO-modal and the SSO modal's must-reauthenticate |
| Backend.LiveSessionReportsConfig | internal/backend/server.go:96-101 | with a live session, the header's request is answered with the config in use |
| Backend.FailedSwitchStillReportsSuccess | internal/backend/server.go:105-128 | when the reload of a profile switch fails, the error pair is written, then the unchanged config and the success action as well |
| Backend.AtMostOneReplyUnlessReloadFailed | internal/backend/server.go:54-166 | a trigger gets at most two replies, and two only from a switch, or a refresh after a successful login, whose reload failed and left the config unchanged |
| Backend.SsoExpiryChangesOnlyOnLogin | internal/backend/server.go:130-166 | only a successful SSO login changes the expired flag, and only by clearing it |
| Backend.SuccessfulLoginClearsExpiry | internal/backend/server.go:137-164 | after a successful login the session is no longer expired and the last reply is the config in use with finishReauthenticateSSO; a failed reload first writes its error pair and keeps the old config, so there are two replies |
| Backend.FailedLoginReportsError | internal/backend/server.go:137-142 | a failed SSO login writes only the error pair with the reauthentication prefix and keeps the state |
| Backend.Server.HandleHeaderTrigger | internal/backend/server.go:77-103 | writes exactly the header replies `HandleHeader` specifies |
| Backend.Server.HandleSwitchProfileView | internal/backend/server.go:105-128 | reaches the state and writes the replies `HandleSwitchProfile` specifies |
| Backend.Server.HandleRefreshSSO | internal/backend/server.go:130-166 | reaches the state and writes the replies `HandleRefreshSso` specifies |
| Backend.Server.HandleTrigger | internal/backend/server.go:54-75 | reaches the state, writes the replies and reports the stop flag `Handle` specifies |
| Backend.FirstQuit | internal/backend/server.go:39-51 | the position of the first Quit trigger, with none before it |
| Backend.RunFrom | internal/backend/server.go:35-52 | a run handles the queue in order and takes exactly the triggers up to and including the first Quit, or all of them |
| Backend.RunAdvance | internal/backend/server.go:40-50 | one turn of the loop: the next trigger's replies are the run's next replies, and the run ends there exactly when that trigger stops the server |
| Backend.Server.Run | internal/backend/server.go:35-52 | the server ends in `RunFrom`'s state; it takes exactly `RunFrom`'s count of triggers off the queue; each taken trigger's channel receives exactly its replies; untaken triggers' channels are untouched |
| Backend.Server.RunLoop | internal/backend/server.go:40-50 | the loop takes triggers until one ends the server or the queue is empty, reaching the final state and count of `RunFrom` and appending each taken trigger's replies to its channel |
| AppHandling.Dispatch | internal/tui/app_handle.go:53-61 | every subscribed component that has an event in the batch is rendered with exactly that event, addressed to it, and nobody else is rendered |
| AppHandling.DeliveredIsLatest | internal/tui/app_handle.go:44-61 | after a drain, a subscribed component is rendered with the last reply addressed to it, else with what the mailbox already held, else not at all |
| AppHandling.AppHandle.SetSubscription | internal/tui/app_handle.go:24-26 | the component's renderer is registered or replaced |
| AppHandling.AppHandle.SendTrigger | internal/tui/app_handle.go:28-35 | sends the addressed trigger through the handler with a fresh response channel |
| AppHandling.AppHandle.PassEvent | internal/tui/app_handle.go:37-39 | relays an event into the mailbox |
| AppHandling.AppHandle.RunEventHandlerStep | internal/tui/app_handle.go:41-64 | one pass: drains, takes the mailbox and stops exactly when Quit is in the batch, with no delivery; otherwise it delivers `Dispatch` of the batch; the answered responders leave the list, and each polled channel keeps everything but its oldest message |
| AppHandling.AppHandle.TakeMailbox | internal/tui/app_handle.go:45-62 | empties the mailbox; it stops exactly when Quit is in the taken batch, and otherwise delivers to each subscribed component the event the batch holds for it; the responder list and every channel are unchanged |
| AppHandling.AppHandle.DispatchBatch | internal/tui/app_handle.go:53-61 | visiting the subscriptions in any order yields `Dispatch` of the batch |
| App.Toggled | internal/tui/app.go:167-188 | toggling a modal that is not current makes it current and the only visible modal; toggling the current one closes only it, leaving every other visible page visible; the main page is untouched |
| App.Tui.ToggleComponent | internal/tui/app.go:167-188 | the Tui's page state after toggleComponent, including its list padded with empty names, is `Toggled` |
| App.HidingTheOthers | internal/tui/app.go:169-183 | hiding the padded list of other names hides exactly the other modals |
| App.OtherModals | internal/tui/app.go:169-174 | the list holds every other modal, besides empty names |
| App.ToggleTwiceCloses | internal/tui/app.go:167-188 | toggling the same closed modal twice leaves no modal visible, nothing current and the main page as it was |
| App.Shown | internal/tui/app.go:190-200 | showing makes the modal current and visible, and does nothing when it already is current |
| App.Hidden | internal/tui/app.go:202-212 | hiding acts only on the current modal: it is hidden and the main page becomes current |
| App.ShowThenHide | internal/tui/app.go:190-212 | showing then hiding a modal ends on the main page with that modal hidden |
| App.StaleModalStaysVisible | internal/tui/app.go:139-155 | an error modal left open under the SSO modal is not hidden by close-error, because it is no longer current |
| App.Rendered | internal/tui/app.go:139-155 | five actions show or hide their modal, and any other action leaves the Tui as it was |
| App.ViewOperationsPreserveWellFormed | internal/tui/app.go:124-212 | every page operation keeps the main page showing, keeps the visible pages within the stack, and keeps a current modal visible |
| App.Tui.ShowComponent | internal/tui/app.go:190-200 | the page state after ShowComponent is `Shown` |
| App.Tui.HideComponent | internal/tui/app.go:202-212 | the page state after HideComponent is `Hidden` |
| App.Tui.Render | internal/tui/app.go:139-155 | the page state after Render is `Rendered` of the event's action |
| App.Tui.HandleKey | internal/tui/app.go:91-107 | Ctrl-A, Ctrl-H and Ctrl-S toggle the auth, help and SSO modals; Ctrl-C sends the Quit trigger and changes no page; other keys change nothing |
| App.ToggleTarget | internal/tui/app.go:92-105 | exactly the three toggle keys name a modal |
| App.Tui.constructor | internal/tui/app.go:68-137 | a new Tui has nothing current, only the main page visible, and is subscribed as `Tui` |
| App.HeaderShowsSevenLabelledLines | internal/tui/app.go:270-276 | the header text reads back as seven lines, line i being label i followed by field i, when no field holds a newline |
| App.LinesOfJoin | internal/tui/app.go:270-276 | cutting the joined text at newlines gives back the lines |
| App.Header.constructor | internal/tui/app.go:225-253 | the header shows the given config, subscribes as `Header`, and sends the get-auth-data request |
| App.Header.TriggerAuth | internal/tui/app.go:255-257 | sends the header's get-auth-data request |
| App.Header.Render | internal/tui/app.go:259-281 | a config payload becomes the header's config, and the text shows it |
| AuthModals.NextTab | internal/tui/auth_modal.go:65-74 | from a tab, TAB moves to the other tab; from anything else, to the empty name |
| AuthModals.PageAfterSet | internal/tui/auth_modal.go:80-85 | only a known tab can become current |
| AuthModals.Cycled | internal/tui/auth_modal.go:65-78 | from a state with one tab current and alone on screen, TAB reaches another such state with the other tab |
| AuthModals.CycleTwiceRestores | internal/tui/auth_modal.go:65-78 | pressing TAB twice restores the tab and its page |
| AuthModals.AuthModal.constructor | internal/tui/auth_modal.go:18-49 | a new modal shows the Change Profile tab alone |
| AuthModals.AuthModal.SetPage | internal/tui/auth_modal.go:80-85 | the current page changes only to a known tab |
| AuthModals.AuthModal.CycleTab | internal/tui/auth_modal.go:65-78 | the modal's state after cycleTab is `Cycled`, and one tab stays current and alone on screen |
| AuthModals.ChangeProfileView.constructor | internal/tui/auth_modal.go:94-187 | the new view has nothing selected, shows its input page, and is subscribed as `ChangeProfileView` |
| AuthModals.ChangeProfileView.SelectProfile | internal/tui/auth_modal.go:116-119 | choosing a list entry selects that profile |
| AuthModals.ChangeProfileView.SwitchProfile | internal/tui/auth_modal.go:104-112 | with a selection, it sends the change-profile trigger for it and clears the selection; without one, it sends nothing; the switching page never appears |
| AuthModals.ChangeProfileView.Render | internal/tui/auth_modal.go:189-194 | the reply shows the success page |
| AuthModals.ChangeProfileView.Close | internal/tui/auth_modal.go:154-161 | hides the success page and relays close-auth-modal to the Tui |
| AuthModals.SetAccessKeysView.constructor | internal/tui/auth_modal.go:207-325 | the new view is not setting, shows its inputs page, and is subscribed as `SetAccessKeysView` |
| AuthModals.SetAccessKeysView.SetAccessKeys | internal/tui/auth_modal.go:229-241 | with both keys filled, it marks the view as setting, shows the setting page and sends the keys with no region; with either empty, it does nothing |
| AuthModals.SetAccessKeysView.Render | internal/tui/auth_modal.go:327-335 | a pending setting is ended by swapping the setting page for the success page; otherwise nothing changes |
| AuthModals.SetAccessKeysView.Close | internal/tui/auth_modal.go:276-283 | hides the success page, shows the inputs page and relays close-auth-modal to the Tui |
| AuthModals.AccessKeysEvent | internal/tui/auth_modal.go:236-239 | the trigger carries the typed keys and an empty region |
| AuthModals.AccessKeysAreNeverAnswered | internal/backend/server.go:54-75 | the backend writes no reply to the access-keys trigger and changes nothing, so the view stays in its setting state |
| Scenarios.QuitEndsBothLoops | internal/backend/server.go:63-72 | the Quit trigger stops the server, and its one reply puts Quit in the mailbox, on which the event-handler loop returns |
| Scenarios.LiveSessionReachesHeader | internal/tui/app.go:255-281 | with a live session the header's request reaches the subscribed header with the config in use, a payload its Render accepts |
| Scenarios.ExpiredSessionOpensSsoModal | internal/backend/server.go:81-94 | with an expired session the header's request makes the Tui show the SSO modal as its current, visible page |
| Scenarios.SuccessfulSwitchReachesHeaderAndView | internal/backend/server.go:105-128 | a switch whose reload succeeds delivers the new config, carrying the requested profile, to the header, and delivers the change-profile action to the view |
| Scenarios.ErrorTextIsDropped | internal/tui/error_modal.go:17-40 | the error modal never subscribes, so an error pair in the mailbox opens the error modal through the Tui while its message is delivered to nobody |

## Left out

- Goroutines, the mailbox mutex and `QueueUpdateDraw` are left out. Each method runs as one atomic step. Interleavings between the UI thread, the event-handler loop and the server are not modelled.
- `TriggerHandling.TriggerHandler.ReceiveEvents` keeps every unanswered responder only because each method is one atomic step. In the code the responder list is not guarded by `eventLock`. `MakeTrigger` appends to it on the UI goroutine (internal/ipc/triggerhandler.go:49), while `RecieveEvents` reads and replaces it on the event-loop goroutine (internal/ipc/triggerhandler.go:67-80). A responder appended during a drain can be lost, and its reply is then never read.
- `TriggerHandling.TriggerHandler.MakeTrigger` requires room in the 100-slot request queue. The code blocks until the server takes a trigger, and blocking is not modelled.
- `Backend.Server.Run` stops when the queue is empty, where the code waits for the next trigger. Liveness (every trigger is eventually taken) is not stated.
- `AppHandling.AppHandle.RunEventHandlerStep` is one pass of the endless loop. The busy-polling repetition and the loop's return are not modelled as a loop.
- `AppHandling.AppHandle.RunEventHandlerStep` returns the Render calls it would make and does not call the subscribers. `Scenarios` connects the deliveries to `App.Tui.Render` and `App.Header.Render`.
- The AWS SDK, the account-id lookup, `aws sso login` and the environment are oracles. The SDK's own configuration resolution is not modelled.
- `Auth.GetAvailableProfiles` takes the two files' contents. The file paths and their lookup through AWS_SHARED_CREDENTIALS_FILE and AWS_CONFIG_FILE are not modelled.
- Scanner errors on a profile file are treated like a file that cannot be opened.
- `Auth.GetAvailableProfiles` ends with its profiles in some order. The order of Go map iteration is unspecified, so the model only states membership.
- Logging is not modelled.
- `AuthModals.ChangeProfileView.SelectProfile` selects the chosen entry's own profile. This assumes Go 1.22 or later, where each iteration has its own loop variable. With an older Go every entry's callback would select the last profile. The Go version is not part of this model.
- Payload type assertions that panic in the code are preconditions:
  - `App.Header.Render` requires a config payload;
  - `Backend.Defined` requires the change-profile and reauthentication payloads.
- The nil-config dereferences are preconditions through `Backend.Defined`: in the header handler (internal/backend/server.go:99), in the switch handler (internal/backend/server.go:112), and in the refresh-SSO handler after a failed reload with no config (internal/backend/server.go:157).
- The panics on unknown names in toggleComponent, ShowComponent and HideComponent are preconditions: the name must be a modal.
- Widget layout, focus, colours, the ASCII art and the help, error and SSO modals' own widgets are not modelled.
- The sub-pages of the two auth views are modelled only as sets of visible page names.
- `AuthModals.ChangeProfileView.SwitchProfile` shows a page named "changing", but the view's stack holds "switching". In the model, as in tview, showing an unknown page does nothing, so the "Switching Profile..." page never appears.
- The Close buttons likewise show "inputs", a page the Change Profile stack does not hold.
- The Render methods of the auth modal and the help modal only return their widget, so they are not modelled.
- The SSO modal's Render is widget state and is not modelled. It sets the modal's message on mustReauthenticateSSO and on finishReauthenticateSSO. On finishReauthenticateSSO it also hides the "refreshing" page and shows "success".
- The error modal's Render, which sets the error text, is widget state and is not modelled. It is never called: the error modal never subscribes. So the `ErrorModal/showErrorMessage` half of every error pair is taken from the mailbox and dropped by `AppHandling.Dispatch`, and the error modal only ever shows its fixed heading (`Scenarios.ErrorTextIsDropped`).
- cmd/root.go is not modelled beyond the queue capacity of 100 (`TriggerHandling.RequestQueueCapacity`).
- internal/aws/sso/sso.go is not part of this model. Its login result is the `ssoLogin` oracle.
