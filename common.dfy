/**
 * Values shared by the client bootstrap and the command entry point: an
 * optional value, the read-only configuration the bootstrap consults, and
 * the errors it can surface.
 */
module Common {

  datatype Option<T> = None | Some(value: T)

  /**
   * The part of `command.Config` the bootstrap reads. Every field is an
   * input owned by the surrounding tool; nothing here computes a default.
   * `logLocation` is the second result of `Verbose()`: a list of log file
   * paths, `None` standing for Go's nil slice (the only thing the bootstrap
   * checks).
   */
  datatype Config = Config(
    binaryName: string,
    binaryVersion: string,
    target: string,
    skipSSLValidation: bool,
    dialTimeout: int,
    verbose: bool,
    logLocation: Option<seq<string>>,
    requestRetryCount: int,
    overallPollingTimeout: int,
    pollingInterval: int)

  /**
   * Errors the bootstrap returns. The first two are built by the bootstrap
   * itself; `RemoteError` stands for whatever error value `TargetCF` or
   * `SetupResources` hands back, which the bootstrap passes on unchanged.
   */
  datatype Error =
    | NoAPISetError(binaryName: string)
    | UAAEndpointNotFoundError
    | RemoteError(message: string)
}
