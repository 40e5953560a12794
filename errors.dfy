/** The tool's error values: an exit code, a message for the user, and the
    underlying error it wraps, if any. */
module Errors {
  import opened Wrappers
  import opened Text

  // Process exit codes.
  const ExitSuccess: int := 0
  const ExitConfigError: int := 1       // missing URL, invalid authentication, bad flags
  const ExitAPIError: int := 2          // server unreachable or unexpected response
  const ExitMarketplaceError: int := 3  // marketplace unreachable (air-gapped installation)
  const ExitOutputError: int := 4       // output cannot be written

  /** An underlying Go `error`, known by the text its `Error()` returns. */
  datatype Cause = Cause(text: string)

  /** `CLIError`: `err` is `None` where the Go field holds nil. */
  datatype CLIError = CLIError(code: int, message: string, err: Option<Cause>) {

    /** The message alone, or the message, a colon and the wrapped error's text. */
    function Error(): (s: string)
      ensures HasPrefix(s, message)
      ensures err.None? <==> s == message
      ensures err.Some? ==> s[|message|..] == ": " + err.value.text
    {
      match err
      case None => message
      case Some(cause) => message + ": " + cause.text
    }

    /** The wrapped error, for `errors.Is` and `errors.As`: present exactly
        when the printed error says more than the message. */
    function Unwrap(): (r: Option<Cause>)
      ensures r.None? <==> Error() == message
      ensures r.Some? ==> Error() == message + ": " + r.value.text
    {
      err
    }
  }

  function ConfigError(msg: string, err: Option<Cause>): (e: CLIError)
    ensures e.code == ExitConfigError && e.message == msg && e.Unwrap() == err
  {
    CLIError(ExitConfigError, msg, err)
  }

  function ApiError(msg: string, err: Option<Cause>): (e: CLIError)
    ensures e.code == ExitAPIError && e.message == msg && e.Unwrap() == err
  {
    CLIError(ExitAPIError, msg, err)
  }

  function MarketplaceError(msg: string, err: Option<Cause>): (e: CLIError)
    ensures e.code == ExitMarketplaceError && e.message == msg && e.Unwrap() == err
  {
    CLIError(ExitMarketplaceError, msg, err)
  }

  function OutputError(msg: string, err: Option<Cause>): (e: CLIError)
    ensures e.code == ExitOutputError && e.message == msg && e.Unwrap() == err
  {
    CLIError(ExitOutputError, msg, err)
  }

  /** The five exit codes are 0 to 4 and pairwise distinct, so the exit code
      alone tells which constructor built an error. */
  lemma ExitCodesDistinct()
    ensures [ExitSuccess, ExitConfigError, ExitAPIError, ExitMarketplaceError, ExitOutputError] == [0, 1, 2, 3, 4]
    ensures forall msg, err, msg', err' ::
      ConfigError(msg, err) != ApiError(msg', err') &&
      ConfigError(msg, err) != MarketplaceError(msg', err') &&
      ConfigError(msg, err) != OutputError(msg', err') &&
      ApiError(msg, err) != MarketplaceError(msg', err') &&
      ApiError(msg, err) != OutputError(msg', err') &&
      MarketplaceError(msg, err) != OutputError(msg', err')
  {
  }
}
