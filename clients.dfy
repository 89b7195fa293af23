/**
 * Bootstrap of the V3 Cloud Controller client and the UAA client
 * (command/v6/shared/new_v3_based_clients.go).
 *
 * The authentication wrapper of each client must reference the UAA client,
 * which does not exist yet when the Cloud Controller chain is built. The
 * bootstrap therefore creates the Cloud Controller's wrapper with no client
 * and binds the UAA client into both wrappers as its very last step, and
 * only when every earlier step succeeded.
 */
module Shared {
  import opened Common
  import opened WrapperChain

  /** What `TargetCF` sends to the platform. */
  datatype TargetSettings = TargetSettings(url: string, skipSSLValidation: bool, dialTimeout: int)

  /** The answer the platform gives to `TargetCF`. */
  datatype TargetReply = Targeted(uaa: string) | TargetFailed(error: Error)

  /** `ccv3.Config`: what a Cloud Controller client is constructed from. */
  datatype CCConfig = CCConfig(
    appName: string,
    appVersion: string,
    jobPollingTimeout: int,
    jobPollingInterval: int,
    wrappers: seq<Wrapper<CCAuthentication>>)

  /**
   * The remote side: the Cloud Controller API and the UAA server. Their
   * answers are fixed inputs; the object records every request sent to it,
   * in order, so that a contract can say which calls were made.
   */
  class Platform {
    const targetReply: TargetReply
    const setupReply: Option<Error>
    var targetCalls: seq<TargetSettings>
    var setupCalls: seq<string>

    constructor (targetReply: TargetReply, setupReply: Option<Error>)
      ensures this.targetReply == targetReply && this.setupReply == setupReply
      ensures targetCalls == [] && setupCalls == []
    {
      this.targetReply := targetReply;
      this.setupReply := setupReply;
      targetCalls := [];
      setupCalls := [];
    }
  }

  /** The Cloud Controller's UAA authentication wrapper. */
  class CCAuthentication {
    var client: UAAClient?
    const config: Config

    constructor (client: UAAClient?, config: Config)
      ensures this.client == client && this.config == config
    {
      this.client := client;
      this.config := config;
    }

    method SetClient(client: UAAClient)
      modifies this`client
      ensures this.client == client
    {
      this.client := client;
    }
  }

  /** The UAA client's own authentication wrapper. */
  class UAAAuthentication {
    var client: UAAClient?
    const config: Config

    constructor (client: UAAClient?, config: Config)
      ensures this.client == client && this.config == config
    {
      this.client := client;
      this.config := config;
    }

    method SetClient(client: UAAClient)
      modifies this`client
      ensures this.client == client
    {
      this.client := client;
    }
  }

  /** The V3 Cloud Controller client. */
  class CCClient {
    const settings: CCConfig
    /** What `UAA()` reports: empty until `TargetCF` discovers an endpoint. */
    var uaaEndpoint: string

    constructor (settings: CCConfig)
      ensures this.settings == settings && uaaEndpoint == ""
    {
      this.settings := settings;
      uaaEndpoint := "";
    }

    /** Sends one target request to the platform and records its answer. */
    method TargetCF(request: TargetSettings, platform: Platform) returns (err: Option<Error>)
      modifies this`uaaEndpoint, platform`targetCalls
      ensures platform.targetCalls == old(platform.targetCalls) + [request]
      ensures platform.targetReply.Targeted? ==> err == None && uaaEndpoint == platform.targetReply.uaa
      ensures platform.targetReply.TargetFailed? ==>
                err == Some(platform.targetReply.error) && uaaEndpoint == old(uaaEndpoint)
    {
      platform.targetCalls := platform.targetCalls + [request];
      match platform.targetReply
      case Targeted(uaa) =>
        uaaEndpoint := uaa;
        err := None;
      case TargetFailed(e) =>
        err := Some(e);
    }
  }

  /** The UAA client: its wrapper chain grows by `WrapConnection`. */
  class UAAClient {
    const config: Config
    var wrappers: seq<Wrapper<UAAAuthentication>>
    /** The endpoint resources were set up from, once `SetupResources` succeeded. */
    var authorizationEndpoint: Option<string>

    constructor (config: Config)
      ensures this.config == config && wrappers == [] && authorizationEndpoint == None
    {
      this.config := config;
      wrappers := [];
      authorizationEndpoint := None;
    }

    method WrapConnection(w: Wrapper<UAAAuthentication>)
      modifies this`wrappers
      ensures wrappers == old(wrappers) + [w]
    {
      wrappers := wrappers + [w];
    }

    /** Asks the UAA server for its resources at `endpoint`. */
    method SetupResources(endpoint: string, platform: Platform) returns (err: Option<Error>)
      modifies this`authorizationEndpoint, platform`setupCalls
      ensures platform.setupCalls == old(platform.setupCalls) + [endpoint]
      ensures err == platform.setupReply
      ensures authorizationEndpoint == if err == None then Some(endpoint) else old(authorizationEndpoint)
    {
      platform.setupCalls := platform.setupCalls + [endpoint];
      err := platform.setupReply;
      if err == None {
        authorizationEndpoint := Some(endpoint);
      }
    }
  }

  /**
   * The endpoint handed to `SetupResources`: the caller's override when it
   * is non-empty, otherwise the one the Cloud Controller advertised.
   */
  function ChosenEndpoint(authorizationEndpoint: string, discovered: string): (r: string)
    ensures authorizationEndpoint != "" ==> r == authorizationEndpoint
    ensures authorizationEndpoint == "" ==> r == discovered
    ensures r == "" <==> authorizationEndpoint == "" && discovered == ""
  {
    if authorizationEndpoint == "" then discovered else authorizationEndpoint
  }

  /** The request `TargetCF` is sent for `config`. */
  function TargetRequest(config: Config): TargetSettings
  {
    TargetSettings(config.target, config.skipSSLValidation, config.dialTimeout)
  }

  /** The Cloud Controller client settings for `config` and its chain. */
  function CCSettings(config: Config, ccAuth: CCAuthentication): CCConfig
  {
    CCConfig(config.binaryName, config.binaryVersion, config.overallPollingTimeout,
             config.pollingInterval, ExpectedChain(config, ccAuth))
  }

  /** Both authentication wrappers sit in their chains and reference `uaa`. */
  ghost predicate Wired(cc: CCClient, uaa: UAAClient, ccAuth: CCAuthentication, uaaAuth: UAAAuthentication)
    reads uaa, ccAuth, uaaAuth
  {
    && Auth(ccAuth) in cc.settings.wrappers && ccAuth.client == uaa
    && Auth(uaaAuth) in uaa.wrappers && uaaAuth.client == uaa
  }

  /**
   * Builds the Cloud Controller client and, when `targetCF`, targets the
   * platform and builds and wires the UAA client. `ccAuth` and `uaaAuth`
   * are the two authentication wrappers created on the way (`uaaAuth` is
   * null when the UAA client was never built).
   */
  method NewV3BasedClientsWithAuthorizationEndpoint(
    config: Config, targetCF: bool, authorizationEndpoint: string, platform: Platform)
    returns (ccClient: CCClient?, uaaClient: UAAClient?, err: Option<Error>,
             ghost ccAuth: CCAuthentication, ghost uaaAuth: UAAAuthentication?)
    modifies platform
    ensures fresh(ccAuth) && ccAuth.config == config
    // not targeting: the Cloud Controller client alone, its wrapper unbound
    ensures !targetCF ==>
              && ccClient != null && fresh(ccClient) && ccClient.uaaEndpoint == ""
              && ccClient.settings == CCSettings(config, ccAuth)
              && uaaClient == null && err == None
              && ccAuth.client == null && uaaAuth == null
              && unchanged(platform)
    // no target configured: fail before any request
    ensures targetCF && config.target == "" ==>
              && ccClient == null && uaaClient == null
              && err == Some(NoAPISetError(config.binaryName))
              && ccAuth.client == null && uaaAuth == null
              && unchanged(platform)
    // otherwise exactly one target request is sent
    ensures targetCF && config.target != "" ==>
              platform.targetCalls == old(platform.targetCalls) + [TargetRequest(config)]
    ensures targetCF && config.target != "" && platform.targetReply.TargetFailed? ==>
              && ccClient == null && uaaClient == null
              && err == Some(platform.targetReply.error)
              && ccAuth.client == null && uaaAuth == null
              && platform.setupCalls == old(platform.setupCalls)
    ensures targetCF && config.target != "" && platform.targetReply == Targeted("") ==>
              && ccClient == null && uaaClient == null
              && err == Some(UAAEndpointNotFoundError)
              && ccAuth.client == null && uaaAuth == null
              && platform.setupCalls == old(platform.setupCalls)
    // an advertised UAA endpoint: the UAA client is built and set up
    ensures targetCF && config.target != "" && platform.targetReply.Targeted? && platform.targetReply.uaa != "" ==>
              && uaaAuth != null && fresh(uaaAuth) && uaaAuth.config == config
              && uaaAuth.client != null
              && platform.setupCalls
                 == old(platform.setupCalls) + [ChosenEndpoint(authorizationEndpoint, platform.targetReply.uaa)]
    ensures targetCF && config.target != "" && platform.targetReply.Targeted? && platform.targetReply.uaa != ""
            && platform.setupReply.Some? ==>
              && ccClient == null && uaaClient == null
              && err == platform.setupReply
              && ccAuth.client == null
    ensures targetCF && config.target != "" && platform.targetReply.Targeted? && platform.targetReply.uaa != ""
            && platform.setupReply == None ==>
              && ccClient != null && fresh(ccClient) && uaaClient != null && fresh(uaaClient)
              && err == None
              && ccClient.settings == CCSettings(config, ccAuth)
              && ccClient.uaaEndpoint == platform.targetReply.uaa
              && uaaClient.config == config
              && uaaAuth != null
              && uaaClient.wrappers == ExpectedChain<UAAAuthentication>(config, uaaAuth)
              && uaaClient.authorizationEndpoint
                 == Some(ChosenEndpoint(authorizationEndpoint, platform.targetReply.uaa))
              && Wired(ccClient, uaaClient, ccAuth, uaaAuth)
    // the wrappers are bound only on full success
    ensures ccAuth.client != null <==> err == None && uaaClient != null
    ensures err == None <==> ccClient != null
  {
    var ccWrappers: seq<Wrapper<CCAuthentication>> := [];
    if config.verbose {
      ccWrappers := ccWrappers + [TerminalLogger];
    }
    if config.logLocation.Some? {
      ccWrappers := ccWrappers + [FileLogger(config.logLocation.value)];
    }
    var authWrapper := new CCAuthentication(null, config);
    ccAuth, uaaAuth := authWrapper, null;
    ccWrappers := ccWrappers + [Auth(authWrapper)];
    ccWrappers := ccWrappers + [Retry(config.requestRetryCount)];

    var cc := new CCClient(CCConfig(config.binaryName, config.binaryVersion,
                                    config.overallPollingTimeout, config.pollingInterval, ccWrappers));

    if !targetCF {
      return cc, null, None, ccAuth, uaaAuth;
    }

    if config.target == "" {
      return null, null, Some(NoAPISetError(config.binaryName)), ccAuth, uaaAuth;
    }

    var targetErr := cc.TargetCF(TargetSettings(config.target, config.skipSSLValidation, config.dialTimeout), platform);
    if targetErr.Some? {
      return null, null, targetErr, ccAuth, uaaAuth;
    }

    if cc.uaaEndpoint == "" {
      return null, null, Some(UAAEndpointNotFoundError), ccAuth, uaaAuth;
    }

    var uaa := new UAAClient(config);
    if config.verbose {
      uaa.WrapConnection(TerminalLogger);
    }
    if config.logLocation.Some? {
      uaa.WrapConnection(FileLogger(config.logLocation.value));
    }
    var uaaAuthWrapper := new UAAAuthentication(uaa, config);
    uaaAuth := uaaAuthWrapper;
    uaa.WrapConnection(Auth(uaaAuthWrapper));
    uaa.WrapConnection(Retry(config.requestRetryCount));

    var endpoint := authorizationEndpoint;
    if endpoint == "" {
      endpoint := cc.uaaEndpoint;
    }

    var setupErr := uaa.SetupResources(endpoint, platform);
    if setupErr.Some? {
      return null, null, setupErr, ccAuth, uaaAuth;
    }

    uaaAuthWrapper.SetClient(uaa);
    authWrapper.SetClient(uaa);
    return cc, uaa, None, ccAuth, uaaAuth;
  }

  /**
   * The same bootstrap with no override, so `SetupResources` always gets the
   * UAA endpoint the Cloud Controller advertised.
   */
  method NewV3BasedClients(config: Config, targetCF: bool, platform: Platform)
    returns (ccClient: CCClient?, uaaClient: UAAClient?, err: Option<Error>,
             ghost ccAuth: CCAuthentication, ghost uaaAuth: UAAAuthentication?)
    modifies platform
    ensures fresh(ccAuth) && ccAuth.config == config
    ensures !targetCF ==>
              && ccClient != null && fresh(ccClient) && ccClient.uaaEndpoint == ""
              && ccClient.settings == CCSettings(config, ccAuth)
              && uaaClient == null && err == None
              && ccAuth.client == null && uaaAuth == null
              && unchanged(platform)
    ensures targetCF && config.target == "" ==>
              && ccClient == null && uaaClient == null
              && err == Some(NoAPISetError(config.binaryName))
              && ccAuth.client == null && uaaAuth == null
              && unchanged(platform)
    ensures targetCF && config.target != "" ==>
              platform.targetCalls == old(platform.targetCalls) + [TargetRequest(config)]
    ensures targetCF && config.target != "" && platform.targetReply.TargetFailed? ==>
              && ccClient == null && uaaClient == null
              && err == Some(platform.targetReply.error)
              && ccAuth.client == null && uaaAuth == null
              && platform.setupCalls == old(platform.setupCalls)
    ensures targetCF && config.target != "" && platform.targetReply == Targeted("") ==>
              && ccClient == null && uaaClient == null
              && err == Some(UAAEndpointNotFoundError)
              && ccAuth.client == null && uaaAuth == null
              && platform.setupCalls == old(platform.setupCalls)
    ensures targetCF && config.target != "" && platform.targetReply.Targeted? && platform.targetReply.uaa != "" ==>
              && uaaAuth != null && fresh(uaaAuth) && uaaAuth.config == config
              && uaaAuth.client != null
              && platform.setupCalls == old(platform.setupCalls) + [platform.targetReply.uaa]
    ensures targetCF && config.target != "" && platform.targetReply.Targeted? && platform.targetReply.uaa != ""
            && platform.setupReply.Some? ==>
              && ccClient == null && uaaClient == null
              && err == platform.setupReply
              && ccAuth.client == null
    ensures targetCF && config.target != "" && platform.targetReply.Targeted? && platform.targetReply.uaa != ""
            && platform.setupReply == None ==>
              && ccClient != null && fresh(ccClient) && uaaClient != null && fresh(uaaClient)
              && err == None
              && ccClient.settings == CCSettings(config, ccAuth)
              && ccClient.uaaEndpoint == platform.targetReply.uaa
              && uaaClient.config == config
              && uaaAuth != null
              && uaaClient.wrappers == ExpectedChain<UAAAuthentication>(config, uaaAuth)
              && uaaClient.authorizationEndpoint == Some(platform.targetReply.uaa)
              && Wired(ccClient, uaaClient, ccAuth, uaaAuth)
    ensures ccAuth.client != null <==> err == None && uaaClient != null
    ensures err == None <==> ccClient != null
  {
    ccClient, uaaClient, err, ccAuth, uaaAuth := NewV3BasedClientsWithAuthorizationEndpoint(config, targetCF, "", platform);
  }
}
