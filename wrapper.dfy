/**
 * The default behaviour of the `ParallelixWrapper` base class, which an
 * adapter inherits for every member it does not override.
 */
module Wrapper {
  import opened Callbacks

  const NotImplementedMessage := "GetLaunchParams is not implemented in the wrapper"

  /** Base `IsCurrentPlatform()`: no environment ever matches. */
  function IsCurrentPlatform(): (r: bool)
    ensures !r
  {
    false
  }

  /** Base `GetLaunchParams(onSuccess, onError)` of the newer revision: always reports an error. */
  function GetLaunchParams(): (r: Reply)
    ensures r.Failure? && r.message == NotImplementedMessage
  {
    Failure(NotImplementedMessage)
  }

  /** Base `Initialize()`: calls `OnInitialized()` with no argument and nothing else. */
  function Initialize(onInitialized: Handler): (c: Call)
    ensures c.handler == onInitialized && c.arg.NoArgument?
  {
    Call(onInitialized, NoArgument)
  }
}
