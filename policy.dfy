/**
 * How `flush` judges one exchange: an engine failure and any HTTP status
 * other than 200 both raise a transport exception; only 200 is success.
 */
module FlushPolicy {
  import opened OptionDecoding

  datatype TransportError =
    | EngineFailure(url: string, diagnostic: string)
    | BadStatus(url: string, status: int)
  {
    /**
     * The exception text: the URL framed as "flush to <url> failed: ",
     * followed by the engine's diagnostic or by the printed status.
     */
    function Message(): (m: string)
      ensures |m| >= |FlushPrefix| + |url| + |FailedInfix|
      ensures m[..|FlushPrefix|] == FlushPrefix
      ensures m[|FlushPrefix|..|FlushPrefix| + |url|] == url
      ensures m[|FlushPrefix| + |url|..|FlushPrefix| + |url| + |FailedInfix|] == FailedInfix
      ensures EngineFailure? ==> m[|FlushPrefix| + |url| + |FailedInfix|..] == diagnostic
      ensures BadStatus? ==> m[|FlushPrefix| + |url| + |FailedInfix|..] == StatusText(status)
    {
      match this
      case EngineFailure(u, d) => FailureMessage(u, d)
      case BadStatus(u, s) => FailureMessage(u, StatusText(s))
    }
  }

  datatype FlushResult = Delivered | Raised(error: TransportError)

  const FlushPrefix: string := "flush to "
  const FailedInfix: string := " failed: "

  /** The text of a failed flush: it names the URL and ends with `detail`. */
  function FailureMessage(url: string, detail: string): (m: string)
    ensures |m| == |FlushPrefix| + |url| + |FailedInfix| + |detail|
    ensures m[..|FlushPrefix|] == FlushPrefix
    ensures m[|FlushPrefix|..|FlushPrefix| + |url|] == url
    ensures m[|FlushPrefix| + |url|..|FlushPrefix| + |url| + |FailedInfix|] == FailedInfix
    ensures m[|m| - |detail|..] == detail
  {
    FlushPrefix + url + FailedInfix + detail
  }

  /** The room `snprintf` has in the 4-byte status buffer, after the terminator. */
  const StatusRoom: nat := 3

  /**
   * The status as printed in decimal into that buffer: the printed text cut
   * to its first three characters.
   */
  function StatusText(status: int): (t: string)
    ensures |t| == if |Decimal(status)| < StatusRoom then |Decimal(status)| else StatusRoom
    ensures t == Decimal(status)[..|t|]
  {
    var printed := Decimal(status);
    if |printed| <= StatusRoom then printed else printed[..StatusRoom]
  }

  /**
   * Every three-digit HTTP status is printed whole, so the status can be
   * read back from the tail of its message.
   */
  lemma BadStatusMessageRoundTrip(url: string, status: int)
    requires 100 <= status <= 999
    ensures |StatusText(status)| == 3
    ensures ParseLong(BadStatus(url, status).Message()[|FlushPrefix| + |url| + |FailedInfix|..]) == status
  {
    assert NatDecimal(status) == NatDecimal(status / 10) + [Digit(status % 10)];
    assert NatDecimal(status / 10) == NatDecimal(status / 100) + [Digit(status / 10 % 10)];
    ParseLongOfDecimal(status);
  }

  /** A status of four or more digits loses its tail: 1234 reads back as 123. */
  lemma LongStatusTruncated(url: string)
    ensures ParseLong(BadStatus(url, 1234).Message()[|FlushPrefix| + |url| + |FailedInfix|..]) == 123
  {
    assert NatDecimal(1234) == NatDecimal(123) + [Digit(4)];
    assert NatDecimal(123) == NatDecimal(12) + [Digit(3)];
    assert NatDecimal(12) == NatDecimal(1) + [Digit(2)];
    ParseLongOfDecimal(123);
    assert StatusText(1234) == Decimal(123);
  }

  /**
   * The outcome of a flush whose engine reported `failed` (with `diagnostic`)
   * or else the HTTP `status`.
   */
  function FlushOutcome(url: string, failed: bool, diagnostic: string, status: int): (r: FlushResult)
    ensures r.Delivered? <==> !failed && status == 200
    ensures failed ==> r == Raised(EngineFailure(url, diagnostic))
    ensures !failed && status != 200 ==> r == Raised(BadStatus(url, status))
  {
    if failed then Raised(EngineFailure(url, diagnostic))
    else if status != 200 then Raised(BadStatus(url, status))
    else Delivered
  }

  /**
   * The outcome as the source computes it. Without keep-alive the handle is
   * released before the status is asked for, so the query fails and the
   * status variable keeps whatever it held before (`stale`); with keep-alive
   * the handle is still live and the server's status is read.
   */
  function FlushOutcomeAsWritten(keepAlive: bool, url: string, failed: bool, diagnostic: string,
                                 status: int, stale: int): (r: FlushResult)
    ensures keepAlive ==> r == FlushOutcome(url, failed, diagnostic, status)
    ensures !keepAlive && !failed ==> (r.Delivered? <==> stale == 200)
  {
    var observed := if keepAlive then status else stale;
    FlushOutcome(url, failed, diagnostic, observed)
  }

  /**
   * Without keep-alive, a server that answers 200 is reported as a failure
   * whenever the stale status is anything but 200, and a 404 passes as
   * success when it happens to be 200.
   */
  lemma AsWrittenIgnoresServerStatus(url: string, stale: int)
    ensures stale != 200 ==>
              FlushOutcomeAsWritten(false, url, false, "", 200, stale) == Raised(BadStatus(url, stale))
    ensures stale == 200 ==> FlushOutcomeAsWritten(false, url, false, "", 404, stale) == Delivered
    ensures FlushOutcome(url, false, "", 200) == Delivered
    ensures FlushOutcome(url, false, "", 404) == Raised(BadStatus(url, 404))
  {
  }
}
