// The revision keys of a payload: `rev` names the last write, `rev_log` the
// last REV_LOG_LEN of them, oldest first.

module Revision {
  import opened Wrappers

  const REV_LOG_LEN: nat := 8
  const MAX_WRITE_ATTEMPTS: nat := 8

  /** A revision token: the client instance that stamped it and that client's
      write counter. Tokens.Render gives the string stored in the payload. */
  datatype Token = Token(writer: nat, count: nat)

  /** The last `n` elements. */
  function Newest<T>(s: seq<T>, n: nat): seq<T> {
    if |s| <= n then s else s[|s| - n..]
  }

  /** Capping after every append leaves what one cap at the end would. */
  lemma NewestAppend<T>(s: seq<T>, t: T, n: nat)
    requires n > 0
    ensures Newest(Newest(s, n) + [t], n) == Newest(s + [t], n)
  {
    assert Newest(Newest(s, n) + [t], n) == Newest(s + [t], n);
  }

  function Stamped(log: seq<Token>, t: Token): seq<Token> {
    Newest(log + [t], REV_LOG_LEN)
  }

  datatype Landed = Yes | No | Unknown | Gone

  /** Whether the write stamped `mine`, conditional on `readRev`, landed,
      judged from the log read back (`None`: the point is gone). */
  function Judge(readRev: Option<Token>, readBack: Option<seq<Token>>, mine: Token): Landed {
    match readBack
    case None => Gone
    case Some(log) =>
      if mine in log then Yes
      else if (match readRev case Some(r) => r in log case None => |log| < REV_LOG_LEN) then No
      else Unknown
  }
}
