/**
 * Profile, region and credential resolution (internal/aws/auth/auth.go).
 *
 * Environment lookups read an `Env` map, a profile file is given as its lines
 * (None when it cannot be opened or scanned), and every AWS SDK call is
 * replaced by its outcome, an `SdkOutcome` value supplied by the caller.
 */
module Auth {
  import opened Wrappers
  import opened Ipc
  import opened GoStrings

  /** The process environment: a variable that is not set reads as "". */
  type Env = map<string, string>

  function Getenv(env: Env, key: string): string {
    if key in env then env[key] else ""
  }

  const DefaultProfile: string := "default"
  const ProfileHeader: string := "[profile "
  const ProfileTrailer: string := "]"

  /** The text of a credential error that signals an expired SSO session. */
  const SsoExpiredCause: string := "the SSO session has expired or is invalid"
  /** The message of the SSOLoginError raised for it. */
  const SsoExpiredMessage: string := "SSO session is expired or invalid"

  // ---------------------------------------------------------------------------
  // Environment precedence.
  // ---------------------------------------------------------------------------

  /** getAWSProfile: AWS_PROFILE, else AWS_DEFAULT_PROFILE, else "default"; never empty. */
  function GetAWSProfile(env: Env): (p: string)
    ensures p != ""
    ensures Getenv(env, "AWS_PROFILE") != "" ==> p == Getenv(env, "AWS_PROFILE")
    ensures Getenv(env, "AWS_PROFILE") == "" && Getenv(env, "AWS_DEFAULT_PROFILE") != "" ==>
              p == Getenv(env, "AWS_DEFAULT_PROFILE")
    ensures Getenv(env, "AWS_PROFILE") == "" && Getenv(env, "AWS_DEFAULT_PROFILE") == "" ==>
              p == DefaultProfile
  {
    if Getenv(env, "AWS_PROFILE") != "" then Getenv(env, "AWS_PROFILE")
    else if Getenv(env, "AWS_DEFAULT_PROFILE") != "" then Getenv(env, "AWS_DEFAULT_PROFILE")
    else DefaultProfile
  }

  /**
   * getAWSRegion: AWS_REGION, else AWS_DEFAULT_REGION, else "". The profile
   * argument plays no part.
   */
  function GetAWSRegion(env: Env, profile: string): (r: string)
    ensures r == "" <==> Getenv(env, "AWS_REGION") == "" && Getenv(env, "AWS_DEFAULT_REGION") == ""
    ensures Getenv(env, "AWS_REGION") != "" ==> r == Getenv(env, "AWS_REGION")
    ensures Getenv(env, "AWS_REGION") == "" ==> r == Getenv(env, "AWS_DEFAULT_REGION")
  {
    if Getenv(env, "AWS_REGION") != "" then Getenv(env, "AWS_REGION")
    else if Getenv(env, "AWS_DEFAULT_REGION") != "" then Getenv(env, "AWS_DEFAULT_REGION")
    else ""
  }

  // ---------------------------------------------------------------------------
  // Profile files.
  // ---------------------------------------------------------------------------

  /**
   * One scanned line of a profile file: after trimming white space it must
   * read "[profile NAME]" with NAME non-empty, and NAME is the profile.
   */
  function ParseProfileLine(line: string): (r: Option<string>)
    ensures var t := TrimSpace(line);
      (r.Some? <==> HasPrefix(t, ProfileHeader) && HasSuffix(t, ProfileTrailer) && |t| > |ProfileHeader| + 1)
      && (r.Some? ==> r.value != "" && t == ProfileHeader + r.value + ProfileTrailer)
  {
    var t := TrimSpace(line);
    if HasPrefix(t, ProfileHeader) && HasSuffix(t, ProfileTrailer) then
      var profile := TrimSuffix(TrimPrefix(t, ProfileHeader), ProfileTrailer);
      BracketedName(t);
      if profile != "" then Some(profile) else None
    else
      None
  }

  /** A header line's name sits between "[profile " and the closing bracket, which cannot overlap. */
  lemma BracketedName(t: string)
    requires HasPrefix(t, ProfileHeader) && HasSuffix(t, ProfileTrailer)
    ensures |t| > |ProfileHeader|
    ensures TrimSuffix(TrimPrefix(t, ProfileHeader), ProfileTrailer) == t[|ProfileHeader|..|t| - 1]
    ensures t == ProfileHeader + t[|ProfileHeader|..|t| - 1] + ProfileTrailer
  {
    assert t[|ProfileHeader| - 1] == ' ' by {
      assert t[..|ProfileHeader|][|ProfileHeader| - 1] == ProfileHeader[|ProfileHeader| - 1];
    }
    assert t[|t| - 1] == ']' by {
      assert t[|t| - 1..][0] == ProfileTrailer[0];
    }
    assert t == t[..|ProfileHeader|] + t[|ProfileHeader|..|t| - 1] + t[|t| - 1..];
  }

  /** The parse of every line, in line order. */
  function Parsed(lines: seq<string>): (r: seq<Option<string>>)
    ensures |r| == |lines| && forall i :: 0 <= i < |lines| ==> r[i] == ParseProfileLine(lines[i])
  {
    seq(|lines|, i requires 0 <= i < |lines| => ParseProfileLine(lines[i]))
  }

  /** The names among parse results, in order, repeats included. */
  function Names(parsed: seq<Option<string>>): seq<string>
    decreases |parsed|
  {
    if parsed == [] then []
    else
      var last := parsed[|parsed| - 1];
      Names(parsed[..|parsed| - 1]) + (if last.Some? then [last.value] else [])
  }

  /** The profiles named in `lines`, in line order, repeats included. */
  function ProfilesOf(lines: seq<string>): seq<string> {
    Names(Parsed(lines))
  }

  lemma {:induction false} NamesAppend(p: seq<Option<string>>, q: seq<Option<string>>)
    ensures Names(p + q) == Names(p) + Names(q)
    decreases |q|
  {
    if q == [] {
      assert p + q == p;
    } else {
      var pq := p + q;
      assert pq[..|pq| - 1] == p + q[..|q| - 1];
      assert pq[|pq| - 1] == q[|q| - 1];
      NamesAppend(p, q[..|q| - 1]);
    }
  }

  lemma {:induction false} NamesMembership(parsed: seq<Option<string>>, x: string)
    ensures x in Names(parsed) <==> Some(x) in parsed
    decreases |parsed|
  {
    if parsed != [] {
      var init := parsed[..|parsed| - 1];
      NamesMembership(init, x);
      assert parsed == init + [parsed[|parsed| - 1]];
    }
  }

  /** Profiles are found in file order: those of a first part of the file come first. */
  lemma ProfilesOfAppend(a: seq<string>, b: seq<string>)
    ensures ProfilesOf(a + b) == ProfilesOf(a) + ProfilesOf(b)
  {
    assert Parsed(a + b) == Parsed(a) + Parsed(b);
    NamesAppend(Parsed(a), Parsed(b));
  }

  /** A name is found exactly when some line parses to it. */
  lemma ProfilesOfMembership(lines: seq<string>, p: string)
    ensures p in ProfilesOf(lines) <==> exists i :: 0 <= i < |lines| && ParseProfileLine(lines[i]) == Some(p)
  {
    var parsed := Parsed(lines);
    NamesMembership(parsed, p);
    if Some(p) in parsed {
      var i :| 0 <= i < |parsed| && parsed[i] == Some(p);
    }
  }

  /**
   * getProfilesFromFile: None when the file cannot be read, otherwise the
   * profiles its lines name, in line order.
   */
  method GetProfilesFromFile(file: Option<seq<string>>) returns (r: Option<seq<string>>)
    ensures file.None? ==> r.None?
    ensures file.Some? ==> r == Some(ProfilesOf(file.value))
  {
    if file.None? {
      return None;
    }
    var lines := file.value;
    ghost var parsed := Parsed(lines);
    var profiles: seq<string> := [];
    var i := 0;
    while i < |lines|
      invariant 0 <= i <= |lines|
      invariant profiles == Names(parsed[..i])
    {
      assert parsed[..i + 1][..i] == parsed[..i];
      var line := ParseProfileLine(lines[i]);
      if line.Some? {
        profiles := profiles + [line.value];
      }
      i := i + 1;
    }
    assert parsed[..i] == parsed;
    return Some(profiles);
  }

  /** The profiles a file contributes: none when it cannot be read. */
  function FileProfiles(file: Option<seq<string>>): set<string> {
    match file
    case Some(lines) => set p | p in ProfilesOf(lines)
    case None => {}
  }

  /** No name occurs twice. */
  predicate NoDuplicates(s: seq<string>) {
    forall i, j :: 0 <= i < j < |s| ==> s[i] != s[j]
  }

  /**
   * GetAvailableProfiles on the contents of the credentials and the config
   * file: every profile of either readable file, each exactly once, in an
   * unspecified order.
   */
  method GetAvailableProfiles(credentialFile: Option<seq<string>>, configFile: Option<seq<string>>)
    returns (profileList: seq<string>)
    ensures NoDuplicates(profileList)
    ensures forall p :: p in profileList <==> p in FileProfiles(credentialFile) + FileProfiles(configFile)
  {
    var profiles: set<string> := {};
    var credProfiles := GetProfilesFromFile(credentialFile);
    if credProfiles.Some? {
      profiles := AddAll(profiles, credProfiles.value);
    }
    var configProfiles := GetProfilesFromFile(configFile);
    if configProfiles.Some? {
      profiles := AddAll(profiles, configProfiles.value);
    }
    profileList := ListOf(profiles);
  }

  /** The members of a set, each once, in the order the set yields them. */
  method ListOf(profiles: set<string>) returns (list: seq<string>)
    ensures NoDuplicates(list)
    ensures forall p :: p in list <==> p in profiles
  {
    list := [];
    var left := profiles;
    while left != {}
      invariant left <= profiles
      invariant NoDuplicates(list)
      invariant forall p :: p in list <==> p in profiles - left
      decreases |left|
    {
      var p :| p in left;
      assert p !in list;
      list := list + [p];
      left := left - {p};
    }
  }

  /** Inserts every name of `names` into the set `profiles`. */
  method AddAll(profiles: set<string>, names: seq<string>) returns (r: set<string>)
    ensures r == profiles + set p | p in names
  {
    r := profiles;
    var i := 0;
    while i < |names|
      invariant 0 <= i <= |names|
      invariant r == profiles + set p | p in names[..i]
    {
      assert names[..i + 1] == names[..i] + [names[i]];
      if names[i] !in r {
        r := r + {names[i]};
      }
      i := i + 1;
    }
    assert names[..i] == names;
  }

  // ---------------------------------------------------------------------------
  // Credential loading against SDK outcomes.
  // ---------------------------------------------------------------------------

  /** An error of this package: the SSO login error, or an SDK error passed through. */
  datatype AuthError = SSOLoginError(message: string) | SdkError(message: string)

  /** error.Error() */
  function ErrorText(e: AuthError): string {
    e.message
  }

  /** The credentials the SDK retrieved. */
  datatype Credentials = Credentials(accessKeyID: string, source: string)

  /**
   * What the SDK calls of one configuration load return: the error of
   * LoadDefaultConfig if any, the region it resolved, the SSO role name of the
   * shared profile (None when LoadSharedConfigProfile fails), the credentials
   * or the text of the retrieval error, and the account id (None when
   * GetCallerIdentity fails).
   */
  datatype SdkOutcome = SdkOutcome(
    loadError: Option<string>,
    configRegion: string,
    ssoRoleName: Option<string>,
    credentials: Result<Credentials, string>,
    accountId: Option<string>)

  /**
   * The SSO classification of a credential-retrieval error: an expired or
   * invalid SSO session becomes SSOLoginError; any other error is passed on.
   */
  function ClassifyCredentialError(text: string): (e: AuthError)
    ensures Contains(text, SsoExpiredCause) ==> e == SSOLoginError(SsoExpiredMessage)
    ensures !Contains(text, SsoExpiredCause) ==> ErrorText(e) == text
  {
    if Contains(text, SsoExpiredCause) then SSOLoginError(SsoExpiredMessage) else SdkError(text)
  }

  lemma {:induction false} ContainsItself(s: string)
    ensures Contains(s, s)
  {
    assert s[..|s|] == s;
  }

  /**
   * The classified error carries exactly the text NewServer looks for, and an
   * error passed on carries it only when its own text does.
   */
  lemma ClassifiedExpiryIsRecognised(text: string)
    ensures Contains(text, SsoExpiredCause) ==> Contains(ErrorText(ClassifyCredentialError(text)), SsoExpiredMessage)
    ensures !Contains(text, SsoExpiredCause) ==>
              (Contains(ErrorText(ClassifyCredentialError(text)), SsoExpiredMessage) <==> Contains(text, SsoExpiredMessage))
  {
    ContainsItself(SsoExpiredMessage);
  }

  /**
   * GetAwsConfigFromProfileConfig: an empty profile or region is resolved from
   * the environment, a region still empty is taken from the loaded
   * configuration, and the load and the credential retrieval are the only
   * failures; a missing shared profile or account id leaves that field empty.
   */
  function GetAwsConfigFromProfileConfig(profile: string, region: string, env: Env, sdk: SdkOutcome)
    : (r: Result<AWSConfigData, AuthError>)
    ensures r.Success? <==> sdk.loadError.None? && sdk.credentials.Success?
    ensures sdk.loadError.Some? ==> r == Failure(SdkError(sdk.loadError.value))
    ensures sdk.loadError.None? && sdk.credentials.Failure? ==>
              r == Failure(ClassifyCredentialError(sdk.credentials.error))
    ensures r.Success? ==>
              r.value.profile != ""
              && (profile != "" ==> r.value.profile == profile)
              && (region != "" ==> r.value.region == region)
              && (profile == "" ==> r.value.profile == GetAWSProfile(env))
              && (region == "" ==>
                    r.value.region == (if GetAWSRegion(env, r.value.profile) != "" then GetAWSRegion(env, r.value.profile)
                                       else sdk.configRegion))
              && r.value.accessKeyID == sdk.credentials.value.accessKeyID
              && r.value.credentialsSource == sdk.credentials.value.source
              && r.value.assumeRoleARN == ""
              && r.value.ssoRoleName == (if sdk.ssoRoleName.Some? then sdk.ssoRoleName.value else "")
              && r.value.accountId == (if sdk.accountId.Some? then sdk.accountId.value else "")
  {
    var profile := if profile == "" then GetAWSProfile(env) else profile;
    var region := if region == "" then GetAWSRegion(env, profile) else region;
    match sdk.loadError
    case Some(err) => Failure(SdkError(err))
    case None =>
      var region := if region == "" then sdk.configRegion else region;
      match sdk.credentials
      case Failure(err) => Failure(ClassifyCredentialError(err))
      case Success(creds) =>
        Success(AWSConfigData(
          profile := profile,
          ssoRoleName := match sdk.ssoRoleName case Some(role) => role case None => "",
          accountId := match sdk.accountId case Some(id) => id case None => "",
          assumeRoleARN := "",
          accessKeyID := creds.accessKeyID,
          credentialsSource := creds.source,
          region := region))
  }

  /**
   * GetAwsFromAccessKeys: with either key empty there is neither a
   * configuration nor an error. Otherwise the load and the retrieval are the
   * only failures, passed on unclassified, and the configuration names the
   * given access key and no profile.
   */
  function GetAwsFromAccessKeys(accessKeyID: string, secretAccessKey: string, region: string, env: Env, sdk: SdkOutcome)
    : (r: Result<Option<AWSConfigData>, AuthError>)
    ensures r == Success(None) <==> accessKeyID == "" || secretAccessKey == ""
    ensures r.Failure? ==> r.error.SdkError?
    ensures r.Success? && r.value.Some? ==>
              r.value.value.profile == "" && r.value.value.accessKeyID == accessKeyID
              && r.value.value.ssoRoleName == "" && r.value.value.assumeRoleARN == ""
              && r.value.value.accountId == (if sdk.accountId.Some? then sdk.accountId.value else "")
              && (region != "" ==> r.value.value.region == region)
              && (region == "" ==> r.value.value.region == GetAWSRegion(env, ""))
  {
    if accessKeyID == "" || secretAccessKey == "" then Success(None)
    else
      var region := if region == "" then GetAWSRegion(env, "") else region;
      match sdk.loadError
      case Some(err) => Failure(SdkError(err))
      case None =>
        match sdk.credentials
        case Failure(err) => Failure(SdkError(err))
        case Success(creds) =>
          Success(Some(AWSConfigData(
            profile := "",
            ssoRoleName := "",
            accountId := match sdk.accountId case Some(id) => id case None => "",
            assumeRoleARN := "",
            accessKeyID := accessKeyID,
            credentialsSource := creds.source,
            region := region)))
  }
}
