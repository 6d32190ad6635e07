/** The replacement-spawn policy applied when a session terminates
    (index.js:338-363): which termination causes ask for a replacement,
    and after how long. */
module Reconnect {
  import opened Wrappers

  /** How a session ended: an `error` event with its code, `close`, `end`,
      or `kicked`. */
  datatype Termination = Error(code: string) | Close | End | Kicked(reason: string)

  const ShortDelay: nat := 5000
  const KickDelay: nat := 10000

  /** Error codes treated as plain network failures. */
  predicate IsNetworkCode(code: string) {
    code == "ECONNRESET" || code == "ETIMEDOUT"
  }

  /** Causes that never ask for a replacement: a network error, or `close`
      (whose handler only cleans up). */
  predicate IsQuiet(t: Termination) {
    t.Close? || (t.Error? && IsNetworkCode(t.code))
  }

  /** The delay of the replacement spawn a cause asks for, if any. A
      quiet cause asks for none; a kick waits twice as long as any other
      error or an `end`. */
  function ReplacementDelay(t: Termination): (r: Option<nat>)
    ensures r.None? <==> IsQuiet(t)
    ensures r.Some? ==> r.value == (if t.Kicked? then KickDelay else ShortDelay)
  {
    match t
    case Error(code) => if IsNetworkCode(code) then None else Some(ShortDelay)
    case Close => None
    case End => Some(ShortDelay)
    case Kicked(_) => Some(KickDelay)
  }
}
