/**
 * The HTTP engine as the transport sees it. The handle is modelled by the
 * ordered list of `curl_easy_setopt` calls made on it, the option values it
 * ends up using are the last ones set, and one `curl_easy_perform` is an
 * `Exchange`: the request sizes the engine asks for, the response chunks it
 * delivers, and how the exchange ends.
 */
module Engine {
  import opened Fifo

  datatype Option<T> = None | Some(value: T)

  // Option identifiers are a category base plus a number, as libcurl's curl.h
  // lays them out.
  const CurlOptTypeLong: int := 0
  const CurlOptTypeObjectPoint: int := 10000
  const CurlOptTypeFunctionPoint: int := 20000
  const CurlOptTypeOffT: int := 30000

  const CurlOptPost: int := CurlOptTypeLong + 47
  const CurlOptPostFieldSize: int := CurlOptTypeLong + 60
  const CurlOptWriteData: int := CurlOptTypeObjectPoint + 1
  const CurlOptUrl: int := CurlOptTypeObjectPoint + 2
  const CurlOptUserPwd: int := CurlOptTypeObjectPoint + 5
  const CurlOptReadData: int := CurlOptTypeObjectPoint + 9
  const CurlOptErrorBuffer: int := CurlOptTypeObjectPoint + 10
  const CurlOptUserAgent: int := CurlOptTypeObjectPoint + 18
  const CurlOptHttpHeader: int := CurlOptTypeObjectPoint + 23
  const CurlOptWriteFunction: int := CurlOptTypeFunctionPoint + 11
  const CurlOptReadFunction: int := CurlOptTypeFunctionPoint + 12

  /** The value passed in one `curl_easy_setopt` call. */
  datatype Setting =
    | Long(n: int)                   // a `long`
    | Text(s: string)                // a C string
    | HeaderList(lines: seq<string>) // a `curl_slist` of raw header lines
    | ReadCallback                   // the request-body shim
    | WriteCallback                  // the response-body shim
    | ClientRef                      // the transport itself, as callback user data
    | ErrorBuffer                    // the diagnostic buffer of the current flush

  datatype SetOpt = SetOpt(key: int, value: Setting)

  /** A live engine handle: the setopt calls made on it, oldest first. */
  datatype Handle = Handle(calls: seq<SetOpt>)

  /** The value the engine uses for `key`: the one set last, if any. */
  function Effective(calls: seq<SetOpt>, key: int): (r: Option<Setting>)
    ensures r.Some? ==> SetOpt(key, r.value) in calls
    ensures r.None? <==> forall i :: 0 <= i < |calls| ==> calls[i].key != key
  {
    if calls == [] then None
    else if calls[|calls| - 1].key == key then Some(calls[|calls| - 1].value)
    else Effective(calls[..|calls| - 1], key)
  }

  /** Later calls win: what a suffix sets hides whatever the prefix set. */
  lemma {:induction false} EffectiveConcat(a: seq<SetOpt>, b: seq<SetOpt>, key: int)
    ensures Effective(a + b, key) ==
            if Effective(b, key).Some? then Effective(b, key) else Effective(a, key)
  {
    if b == [] {
      assert a + b == a;
    } else {
      var c := b[..|b| - 1];
      assert (a + b)[..|a + b| - 1] == a + c;
      assert (a + b)[|a + b| - 1] == b[|b| - 1];
      EffectiveConcat(a, c, key);
    }
  }

  /** A call that no later call overrides decides the value of its identifier. */
  lemma {:induction false} EffectiveAt(calls: seq<SetOpt>, i: nat)
    requires i < |calls|
    requires forall j :: i < j < |calls| ==> calls[j].key != calls[i].key
    ensures Effective(calls, calls[i].key) == Some(calls[i].value)
  {
    if i < |calls| - 1 {
      EffectiveAt(calls[..|calls| - 1], i);
    }
  }

  /**
   * One `curl_easy_perform`: the k-th call of the request-body callback asks
   * for ask(k) bytes, the response body arrives as `response` (on a failure,
   * the chunks that arrived before it), and the exchange ends with an error
   * flag and diagnostic text (an engine-level failure) or with the HTTP
   * status of the response. An exchange that does not end in a 200 success
   * calls the request-body callback at most `uploadCalls` times: a refused
   * connection gives 0, and a final status of 300 or more that the server
   * sends before the body is complete (after `Expect: 100-continue`, say)
   * stops the upload there, without an engine error; either way bytes can be
   * left unsent. A 200 success runs the callback until it yields nothing.
   */
  datatype Exchange = Exchange(
    ask: nat -> nat,
    response: seq<seq<Byte>>,
    failed: bool,
    uploadCalls: nat,
    diagnostic: string,
    status: int)
  {
    /**
     * What libcurl guarantees its callbacks: every request for body bytes is
     * for a positive number of bytes that fits its upload buffer, and every
     * response chunk fits its download buffer (both far below 2^32).
     */
    ghost predicate Valid()
    {
      && (forall j: nat :: 0 < ask(j) < TwoPow32)
      && (forall k :: 0 <= k < |response| ==> |response[k]| < TwoPow32)
    }
  }
}
