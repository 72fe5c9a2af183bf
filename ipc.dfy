/**
 * The message vocabulary of the bus: component and action identifiers
 * (internal/ipc/components.go, internal/ipc/actions.go), the payload records
 * (internal/ipc/events.go) and the addressed Event (internal/ipc/triggerhandler.go).
 */
module Ipc {

  // Component identifiers: the destinations of events and triggers.
  const ComponentAuthModal: string := "AuthModal"
  const ComponentChangeProfile: string := "ChangeProfileView"
  const ComponentSetAccessKeys: string := "SetAccessKeysView"
  const ComponentErrorModal: string := "ErrorModal"
  const ComponentTui: string := "Tui"
  const ComponentHeader: string := "Header"
  const ComponentHelpModal: string := "HelpModal"
  const ComponentRefreshSSO: string := "SSOReauthenticationModal"
  const ComponentQuit: string := "Quit"

  // Action identifiers: what the destination is asked to do.
  const ActionGetAuthData: string := "getAuthData"
  const ActionReauthenticateSSO: string := "reauthenticateSSO"
  const ActionMustReauthenticateSSO: string := "mustReauthenticateSSO"
  const ActionFinishReauthenticateSSO: string := "finishReauthenticateSSO"
  const ActionChangeProfile: string := "changeProfile"
  const ActionShowErrorModal: string := "showErrorModal"
  const ActionShowErrorMessage: string := "showErrorMessage"
  const ActionShowReauthenticateSSOModal: string := "showReauthenticateSSOModal"
  const ActionEnd: string := "end"
  const ActionCloseErrorModal: string := "closeErrorModal"
  const ActionCloseReauthenticateSSOModal: string := "closeReauthenticateSSOModal"
  const ActionCloseAuthModal: string := "closeAuthModal"

  /** The identity and credentials currently in use, as the header shows them. */
  datatype AWSConfigData = AWSConfigData(
    profile: string,
    ssoRoleName: string,
    accountId: string,
    assumeRoleARN: string,
    accessKeyID: string,
    credentialsSource: string,
    region: string)

  /** Static keys entered in the Set Access Keys view. */
  datatype AWSAccessKeysData = AWSAccessKeysData(accessKeyID: string, secretAccessKey: string, region: string)

  /**
   * The `Data` of an event. The source carries it as an untyped interface
   * value; here each record of internal/ipc/events.go is one variant and
   * Go's nil is `NoData`.
   */
  datatype Payload =
    | NoData
    | ConfigData(config: AWSConfigData)
    | AccessKeys(keys: AWSAccessKeysData)
    | ChangeProfile(newProfile: string)
    | Authentication(authProfile: string, authRegion: string)
    | ReauthenticateSSO(ssoProfile: string)
    | ErrorMessage(message: string)

  /** An addressed message: `component` is its single destination. */
  datatype Event = Event(component: string, action: string, data: Payload)
}
