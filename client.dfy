/**
 * The transport object: configuration state, the two byte buffers, the
 * engine handle, and the operations the RPC layer and the engine call.
 */
module Client {
  import opened Fifo
  import opened Engine
  import opened OptionDecoding
  import opened Headers
  import opened FlushPolicy

  /** The compile-time switches of the source, as values fixed at construction. */
  datatype BuildSwitches = BuildSwitches(keepAlive: bool, chunked: bool, useExpect: bool)

  /** The build the source selects: keep-alive, chunked transfer, Expect handshake kept. */
  const DefaultSwitches: BuildSwitches := BuildSwitches(true, true, true)

  const UserAgent: string := "C++/TCurlClient"

  /** The setopt calls `init` starts with: target, identity, method and the two callbacks. */
  function TargetCalls(url: string): seq<SetOpt>
  {
    [ SetOpt(CurlOptUrl, Text(url)),
      SetOpt(CurlOptUserAgent, Text(UserAgent)),
      SetOpt(CurlOptPost, Long(1)),
      SetOpt(CurlOptWriteFunction, WriteCallback),
      SetOpt(CurlOptWriteData, ClientRef),
      SetOpt(CurlOptReadFunction, ReadCallback),
      SetOpt(CurlOptReadData, ClientRef) ]
  }

  function CredentialCalls(credentials: string): seq<SetOpt>
  {
    if |credentials| > 0 then [SetOpt(CurlOptUserPwd, Text(credentials))] else []
  }

  /** The setopt calls `init` makes before it installs the header list. */
  function PreambleCalls(url: string, credentials: string): seq<SetOpt>
  {
    TargetCalls(url) + CredentialCalls(credentials)
  }

  function HeaderCall(lines: seq<string>): SetOpt
  {
    SetOpt(CurlOptHttpHeader, HeaderList(lines))
  }

  /** Every setopt call `init` makes on a fresh handle, in order. */
  ghost function InitCalls(url: string, credentials: string, lines: seq<string>,
                           options: map<int, string>): seq<SetOpt>
  {
    PreambleCalls(url, credentials) + [HeaderCall(lines)] + UserOptionCalls(options)
  }

  /**
   * How many times the engine may call the request-body callback for `x`
   * with `pending` bytes queued: an exchange that fails or ends in any
   * status other than 200 stops after `uploadCalls` calls, a 200 success
   * calls until the callback yields nothing, which happens by call
   * pending + 1 at the latest.
   */
  function UploadCalls(x: Exchange, pending: nat): nat
  {
    if x.failed || x.status != 200 then x.uploadCalls else pending + 1
  }

  /** The setopt calls `flush` adds before it performs the request. */
  function FlushCalls(chunked: bool, pending: nat): seq<SetOpt>
  {
    (if chunked then [] else [SetOpt(CurlOptPostFieldSize, Long(pending))]) +
    [SetOpt(CurlOptErrorBuffer, ErrorBuffer)]
  }

  /**
   * The handle `init` prepares keeps every call of the target preamble in
   * force (URL, user agent, POST, both callbacks and their user data) and
   * uses the header list it is given.
   */
  lemma PreambleEffective(url: string, credentials: string, lines: seq<string>)
    ensures var calls := PreambleCalls(url, credentials) + [HeaderCall(lines)];
            var target := TargetCalls(url);
            && (forall i :: 0 <= i < |target| ==> Effective(calls, target[i].key) == Some(target[i].value))
            && Effective(calls, CurlOptHttpHeader) == Some(HeaderList(lines))
  {
    var target := TargetCalls(url);
    var tail := CredentialCalls(credentials) + [HeaderCall(lines)];
    var calls := PreambleCalls(url, credentials) + [HeaderCall(lines)];
    assert calls == target + tail;
    forall i | 0 <= i < |target|
      ensures Effective(calls, target[i].key) == Some(target[i].value)
    {
      EffectiveAt(target, i);
      assert forall j :: 0 <= j < |tail| ==> tail[j].key != target[i].key;
      EffectiveConcat(target, tail, target[i].key);
    }
    EffectiveAt(calls, |calls| - 1);
  }

  /** Credentials reach the engine exactly when they are non-empty. */
  lemma CredentialsEffective(url: string, credentials: string, lines: seq<string>)
    ensures Effective(PreambleCalls(url, credentials) + [HeaderCall(lines)], CurlOptUserPwd) ==
            if |credentials| > 0 then Some(Text(credentials)) else None
  {
    var calls := PreambleCalls(url, credentials) + [HeaderCall(lines)];
    var n := |calls|;
    if |credentials| > 0 {
      assert calls[n - 2] == SetOpt(CurlOptUserPwd, Text(credentials));
      EffectiveAt(calls, n - 2);
    } else {
      assert forall i :: 0 <= i < n ==> calls[i].key != CurlOptUserPwd;
    }
  }

  /**
   * A registered option in a known range overrides whatever `init` set for
   * the same identifier before it; every other identifier keeps the value
   * the preamble and the header list gave it.
   */
  lemma InitCallsEffective(url: string, credentials: string, lines: seq<string>,
                           options: map<int, string>, key: int)
    ensures Effective(InitCalls(url, credentials, lines, options), key) ==
            if key in options && key < CurlOptTypeOffT then DecodeOption(key, options[key])
            else Effective(PreambleCalls(url, credentials) + [HeaderCall(lines)], key)
  {
    EffectiveConcat(PreambleCalls(url, credentials) + [HeaderCall(lines)], UserOptionCalls(options), key);
    UserOptionCallsEffective(options, key);
  }

  /** `init`'s header list, built line by line: the fixed lines, then each extra line in turn. */
  method BuildHeaderList(chunked: bool, useExpect: bool, extra: seq<string>) returns (lines: seq<string>)
    ensures lines == HeaderLines(chunked, useExpect, extra)
  {
    lines := [];
    if chunked {
      lines := lines + [ChunkedHeader];
    }
    if !useExpect {
      lines := lines + [ExpectHeader];
    }
    lines := lines + [ContentTypeHeader];
    lines := lines + [AcceptHeader];
    for i := 0 to |extra|
      invariant lines == FixedHeaders(chunked, useExpect) + extra[..i]
    {
      lines := lines + [extra[i]];
    }
    assert extra[..|extra|] == extra;
  }

  /**
   * `init`'s walk over the registered options, smallest identifier first,
   * collecting the setopt call each one decodes to.
   */
  method ApplyOptions(options: map<int, string>) returns (calls: seq<SetOpt>)
    ensures calls == UserOptionCalls(options)
  {
    calls := [];
    var remaining := options.Keys;
    ghost var visited: seq<int> := [];
    while remaining != {}
      invariant remaining <= options.Keys
      invariant visited + OrderedKeys(remaining) == OrderedKeys(options.Keys)
      invariant forall i :: 0 <= i < |visited| ==> visited[i] in options
      invariant calls == CallsFor(visited, options)
      decreases |remaining|
    {
      MinExists(remaining);
      var key :| key in remaining && forall k :: k in remaining ==> key <= k;
      WalkStep(options, remaining, visited, key);
      calls := calls + OptionCall(key, options[key]);
      visited := visited + [key];
      remaining := remaining - {key};
    }
    assert visited == OrderedKeys(options.Keys);
  }

  class CurlClient {
    const url: string
    const switches: BuildSwitches
    var credentials: string
    var xheaders: seq<string>
    var options: map<int, string>
    var writeBuffer: seq<Byte>
    var readBuffer: seq<Byte>
    var isOpen: bool
    var curl: Option<Handle>
    var headers: Option<seq<string>>

    /** The lifecycle flag tracks the handle, and the handle and its header list live together. */
    ghost predicate Valid()
      reads this`isOpen, this`curl, this`headers
    {
      && (isOpen <==> curl.Some?)
      && (curl.Some? <==> headers.Some?)
      && (curl.Some? ==> HeaderCall(headers.value) in curl.value.calls)
    }

    /** The header list `init` builds from the current configuration. */
    function ConfiguredHeaders(): seq<string>
      reads this`xheaders
    {
      HeaderLines(switches.chunked, switches.useExpect, xheaders)
    }

    /** The setopt calls `init` makes on a fresh handle under the current configuration. */
    ghost function ConfiguredCalls(): seq<SetOpt>
      reads this`credentials, this`xheaders, this`options
    {
      InitCalls(url, credentials, ConfiguredHeaders(), options)
    }

    /** A transport for `url`, closed, with nothing configured and both buffers empty. */
    constructor (url: string, switches: BuildSwitches)
      ensures Valid()
      ensures this.url == url && this.switches == switches
      ensures credentials == [] && xheaders == [] && options == map[]
      ensures writeBuffer == [] && readBuffer == []
      ensures !isOpen && curl == None && headers == None
    {
      this.url := url;
      this.switches := switches;
      credentials := [];
      xheaders := [];
      options := map[];
      writeBuffer := [];
      readBuffer := [];
      isOpen := false;
      curl := None;
      headers := None;
    }

    // -------------------------------------------------------------------
    // Configuration

    method SetCredentials(c: string)
      modifies this`credentials
      ensures credentials == c
    {
      credentials := c;
    }

    method SetOption(key: int, value: string)
      modifies this`options
      ensures options == old(options)[key := value]
      ensures key in options && options[key] == value
      ensures forall k :: k != key ==> (k in options <==> k in old(options))
      ensures forall k :: k != key && k in options ==> options[k] == old(options)[k]
    {
      options := options[key := value];
    }

    method AddHeader(h: string)
      modifies this`xheaders
      ensures xheaders == old(xheaders) + [h]
    {
      xheaders := xheaders + [h];
    }

    // -------------------------------------------------------------------
    // The engine's callbacks

    /**
     * The request-body callback: hands the engine at most size*nmemb bytes
     * (kept in 32 bits) from the head of the write buffer, and never more
     * than the buffer holds.
     */
    method CurlRead(size: nat, nmemb: nat) returns (chunk: seq<Byte>)
      modifies this`writeBuffer
      ensures |chunk| == Min(Truncate32(size * nmemb), |old(writeBuffer)|)
      ensures chunk + writeBuffer == old(writeBuffer)
    {
      var len := Truncate32(size * nmemb);
      var avail := |writeBuffer|;
      if len > avail {
        len := avail;
      }
      var (taken, rest) := Take(writeBuffer, len);
      chunk, writeBuffer := taken, rest;
    }

    /**
     * The response-body callback: appends the delivered bytes to the read
     * buffer and reports how many it took; a count that does not fit in 32
     * bits is cut to its low 32 bits, both in what is kept and what is reported.
     */
    method CurlWrite(ptr: seq<Byte>, size: nat, nmemb: nat) returns (n: nat)
      requires |ptr| == size * nmemb
      modifies this`readBuffer
      ensures n == Truncate32(|ptr|)
      ensures readBuffer == old(readBuffer) + ptr[..n]
      ensures |ptr| < TwoPow32 ==> n == |ptr| && readBuffer == old(readBuffer) + ptr
    {
      n := Truncate32(size * nmemb);
      readBuffer := readBuffer + ptr[..n];
    }

    // -------------------------------------------------------------------
    // Lifecycle

    /**
     * Creates and configures a handle from the current configuration: the
     * setopt calls of the preamble, the header list, then every registered
     * option in ascending identifier order.
     */
    method Init()
      modifies this`curl, this`headers, this`isOpen
      ensures headers == Some(ConfiguredHeaders())
      ensures curl == Some(Handle(ConfiguredCalls()))
      ensures isOpen
      ensures Valid()
    {
      var calls := TargetCalls(url);
      if |credentials| > 0 {
        calls := calls + [SetOpt(CurlOptUserPwd, Text(credentials))];
      }
      assert calls == PreambleCalls(url, credentials);

      var lines := BuildHeaderList(switches.chunked, switches.useExpect, xheaders);
      calls := calls + [HeaderCall(lines)];
      var optionCalls := ApplyOptions(options);
      calls := calls + optionCalls;

      headers := Some(lines);
      curl := Some(Handle(calls));
      isOpen := true;
    }

    /** Releases the header list and the handle; harmless when neither is held. */
    method Cleanup()
      modifies this`curl, this`headers, this`isOpen
      ensures curl == None && headers == None && !isOpen
      ensures Valid()
    {
      if headers.Some? {
        headers := None;
      }
      if curl.Some? {
        curl := None;
      }
      isOpen := false;
    }

    /** With keep-alive, configures a handle for every later flush; otherwise does nothing. */
    method Open()
      modifies this`curl, this`headers, this`isOpen
      ensures switches.keepAlive ==>
                && headers == Some(ConfiguredHeaders())
                && curl == Some(Handle(ConfiguredCalls()))
                && isOpen
      ensures !switches.keepAlive ==>
                curl == old(curl) && headers == old(headers) && isOpen == old(isOpen)
      ensures old(Valid()) ==> Valid()
    {
      if switches.keepAlive {
        Init();
      }
    }

    /** With keep-alive, releases the handle; otherwise does nothing. */
    method Close()
      modifies this`curl, this`headers, this`isOpen
      ensures switches.keepAlive ==> curl == None && headers == None && !isOpen
      ensures !switches.keepAlive ==>
                curl == old(curl) && headers == old(headers) && isOpen == old(isOpen)
      ensures old(Valid()) ==> Valid()
    {
      if switches.keepAlive {
        Cleanup();
      }
    }

    /** Whether a handle is held. */
    function IsOpen(): (r: bool)
      reads this
      requires Valid()
      ensures r <==> curl.Some?
    {
      isOpen
    }

    /** Always claims that bytes may be pending, whatever the buffers hold. */
    function Peek(): (r: bool)
      ensures r
    {
      true
    }

    // -------------------------------------------------------------------
    // The byte-stream surface

    /** Takes up to `len` bytes from the head of the read buffer; the count read is |data|. */
    method Read(len: uint32) returns (data: seq<Byte>)
      modifies this`readBuffer
      ensures |data| == Min(len as nat, |old(readBuffer)|)
      ensures data + readBuffer == old(readBuffer)
    {
      var (taken, rest) := Take(readBuffer, len as nat);
      data, readBuffer := taken, rest;
    }

    /** Ends one response cycle: the read buffer is emptied. */
    method ReadEnd()
      modifies this`readBuffer
      ensures readBuffer == []
    {
      readBuffer := [];
    }

    /** Queues bytes for the next request body; no I/O happens. */
    method Write(data: seq<Byte>)
      modifies this`writeBuffer
      ensures writeBuffer == old(writeBuffer) + data
    {
      writeBuffer := writeBuffer + data;
    }

    // -------------------------------------------------------------------
    // One request

    /**
     * The request half of `curl_easy_perform`: the engine calls CurlRead,
     * asking for ask(k) bytes on call k, until a call yields nothing or
     * `limit` calls have been made. The bytes not handed out stay queued; a
     * limit beyond the number of queued bytes drains the whole buffer.
     */
    method SendBody(ask: nat -> nat, limit: nat) returns (body: seq<Byte>)
      requires forall j: nat :: 0 < ask(j) < TwoPow32
      modifies this`writeBuffer
      ensures body == Concat(BodyChunksWithin(old(writeBuffer), ask, 0, limit))
      ensures body + writeBuffer == old(writeBuffer)
      ensures limit >= |old(writeBuffer)| ==> body == old(writeBuffer) && writeBuffer == []
    {
      body := [];
      var i: nat := 0;
      var calls := limit;
      var done := false;
      while !done && calls > 0
        invariant body + writeBuffer == old(writeBuffer)
        invariant body + Concat(BodyChunksWithin(writeBuffer, ask, i, calls)) ==
                  Concat(BodyChunksWithin(old(writeBuffer), ask, 0, limit))
        invariant done ==> BodyChunksWithin(writeBuffer, ask, i, calls) == []
        decreases calls, if done then 0 else 1
      {
        ghost var before := writeBuffer;
        var chunk := CurlRead(1, ask(i));
        assert Truncate32(1 * ask(i)) == ask(i);
        DrainStep(body, before, chunk, writeBuffer, ask, i, calls);
        if chunk == [] {
          done := true;
        } else {
          body := body + chunk;
          i := i + 1;
          calls := calls - 1;
        }
      }
      if limit >= |old(writeBuffer)| {
        DrainWithinAll(old(writeBuffer), ask, limit);
      }
    }

    /** The response half of `curl_easy_perform`: each chunk goes through CurlWrite in turn. */
    method ReceiveBody(response: seq<seq<Byte>>)
      requires forall k :: 0 <= k < |response| ==> |response[k]| < TwoPow32
      modifies this`readBuffer
      ensures readBuffer == old(readBuffer) + Concat(response)
    {
      for k := 0 to |response|
        invariant readBuffer == old(readBuffer) + Concat(response[..k])
      {
        var n := CurlWrite(response[k], 1, |response[k]|);
        assert response[..k + 1] == response[..k] + [response[k]];
        ConcatAppend(response[..k], [response[k]]);
        assert Concat([response[k]]) == response[k];
      }
      assert response[..|response|] == response;
    }

    /**
     * The per-request settings on a live handle: the body size when chunked
     * transfer is built out, then the diagnostic buffer.
     */
    method PrepareRequest()
      requires Valid() && curl.Some?
      modifies this`curl
      ensures curl == Some(Handle(old(curl).value.calls + FlushCalls(switches.chunked, |writeBuffer|)))
      ensures Valid()
    {
      var calls := curl.value.calls;
      if !switches.chunked {
        calls := calls + [SetOpt(CurlOptPostFieldSize, Long(|writeBuffer|))];
      }
      calls := calls + [SetOpt(CurlOptErrorBuffer, ErrorBuffer)];
      assert calls == curl.value.calls + FlushCalls(switches.chunked, |writeBuffer|);
      curl := Some(Handle(calls));
    }

    /**
     * One request on a live handle: the per-request settings, the request
     * body out (all of it when the exchange ends in 200), the response body
     * in, and the verdict on how the exchange ended.
     */
    method Perform(x: Exchange) returns (body: seq<Byte>, r: FlushResult)
      requires Valid() && curl.Some? && x.Valid()
      modifies this`curl, this`writeBuffer, this`readBuffer
      ensures curl == Some(Handle(old(curl).value.calls + FlushCalls(switches.chunked, |old(writeBuffer)|)))
      ensures Valid()
      ensures body == Concat(BodyChunksWithin(old(writeBuffer), x.ask, 0, UploadCalls(x, |old(writeBuffer)|)))
      ensures body + writeBuffer == old(writeBuffer)
      ensures !x.failed && x.status == 200 ==> body == old(writeBuffer) && writeBuffer == []
      ensures readBuffer == old(readBuffer) + Concat(x.response)
      ensures r == FlushOutcome(url, x.failed, x.diagnostic, x.status)
    {
      PrepareRequest();
      body := SendBody(x.ask, UploadCalls(x, |writeBuffer|));
      ReceiveBody(x.response);
      r := FlushOutcome(url, x.failed, x.diagnostic, x.status);
    }

    /**
     * Sends the queued bytes as one POST and judges the answer. `engine` is
     * the handle the request ran on, `body` the bytes the engine received.
     * The status is read from the handle before a per-request handle is
     * released. When the engine fails, or the server gives a final status
     * other than 200, before the upload is complete, the bytes the engine
     * did not take stay queued and go out ahead of whatever is written for
     * the next request.
     */
    method Flush(x: Exchange) returns (engine: Option<Handle>, body: seq<Byte>, r: FlushResult)
      requires Valid() && x.Valid()
      modifies this`curl, this`headers, this`isOpen, this`writeBuffer, this`readBuffer
      ensures Valid()
      ensures switches.keepAlive ==>
                && engine == (if old(curl).Some?
                              then Some(Handle(old(curl).value.calls +
                                               FlushCalls(switches.chunked, |old(writeBuffer)|)))
                              else None)
                && curl == engine && headers == old(headers) && isOpen == old(isOpen)
      ensures !switches.keepAlive ==>
                && engine == Some(Handle(ConfiguredCalls() +
                                         FlushCalls(switches.chunked, |old(writeBuffer)|)))
                && curl == None && headers == None && !isOpen
      ensures engine.Some? ==>
                && body == Concat(BodyChunksWithin(old(writeBuffer), x.ask, 0,
                                                   UploadCalls(x, |old(writeBuffer)|)))
                && body + writeBuffer == old(writeBuffer)
                && (!x.failed && x.status == 200 ==> body == old(writeBuffer) && writeBuffer == [])
                && readBuffer == old(readBuffer) + Concat(x.response)
                && r == FlushOutcome(url, x.failed, x.diagnostic, x.status)
      ensures engine.None? ==>
                && body == [] && writeBuffer == old(writeBuffer) && readBuffer == old(readBuffer)
                && r == Raised(EngineFailure(url, ""))
    {
      if !switches.keepAlive {
        Init();
      }
      if curl.None? {
        // No handle: the engine rejects the request before touching either
        // callback or the diagnostic buffer.
        engine, body, r := None, [], Raised(EngineFailure(url, ""));
        return;
      }
      ghost var live := curl.value.calls;
      assert !switches.keepAlive ==> live == ConfiguredCalls();
      body, r := Perform(x);
      engine := curl;
      if !switches.keepAlive {
        Cleanup();
      }
    }
  }

  /** Queues every part, in order, for the next request body. */
  method WriteAll(client: CurlClient, parts: seq<seq<Byte>>)
    modifies client`writeBuffer
    ensures client.writeBuffer == old(client.writeBuffer) + Concat(parts)
  {
    for i := 0 to |parts|
      invariant client.writeBuffer == old(client.writeBuffer) + Concat(parts[..i])
    {
      client.Write(parts[i]);
      assert parts[..i + 1] == parts[..i] + [parts[i]];
      ConcatAppend(parts[..i], [parts[i]]);
      assert Concat([parts[i]]) == parts[i];
    }
    assert parts[..|parts|] == parts;
  }

  /** Reads `readSize` bytes at a time until a read yields nothing: that is the whole response. */
  method ReadAll(client: CurlClient, readSize: uint32) returns (received: seq<Byte>)
    requires readSize > 0
    modifies client`readBuffer
    ensures received == old(client.readBuffer) && client.readBuffer == []
  {
    received := [];
    var more := true;
    while more
      invariant received + client.readBuffer == old(client.readBuffer)
      invariant !more ==> client.readBuffer == []
      decreases |client.readBuffer| + (if more then 1 else 0)
    {
      var chunk := client.Read(readSize);
      if chunk == [] {
        more := false;
      } else {
        received := received + chunk;
      }
    }
  }

  /** A flush to a server that answers 200 with the request body as the response body. */
  method EchoFlush(client: CurlClient) returns (outcome: FlushResult)
    requires client.Valid() && client.switches.keepAlive && client.curl.Some?
    requires |client.writeBuffer| < TwoPow32
    modifies client`curl, client`headers, client`isOpen, client`writeBuffer, client`readBuffer
    ensures client.Valid() && client.curl.Some?
    ensures outcome == Delivered
    ensures client.writeBuffer == [] && client.readBuffer == old(client.readBuffer) + old(client.writeBuffer)
  {
    var whole := client.writeBuffer;
    var echo := Exchange((_: nat) => 16384, [whole], false, 0, "", 200);
    assert Concat(echo.response) == whole;
    var engine, body;
    engine, body, outcome := client.Flush(echo);
  }

  /**
   * A whole cycle against a server that echoes the request body with status
   * 200: however the bytes were split across writes, reading until a read
   * yields nothing returns exactly those bytes, and after `ReadEnd` a read
   * yields nothing.
   */
  method EchoRoundTrip(url: string, parts: seq<seq<Byte>>, readSize: uint32)
    returns (outcome: FlushResult, received: seq<Byte>, afterEnd: seq<Byte>)
    requires readSize > 0
    requires |Concat(parts)| < TwoPow32
    ensures outcome == Delivered
    ensures received == Concat(parts)
    ensures afterEnd == []
  {
    var client := new CurlClient(url, DefaultSwitches);
    client.Open();
    WriteAll(client, parts);
    outcome := EchoFlush(client);

    received := ReadAll(client, readSize);
    client.ReadEnd();
    afterEnd := client.Read(readSize);
  }

  /** A keep-alive flush whose connection is refused before the engine asks for any body bytes. */
  method RefusedFlush(client: CurlClient, diagnostic: string) returns (failure: FlushResult)
    requires client.Valid() && client.switches.keepAlive && client.curl.Some?
    modifies client`curl, client`headers, client`isOpen, client`writeBuffer, client`readBuffer
    ensures client.Valid() && client.curl.Some?
    ensures failure == Raised(EngineFailure(client.url, diagnostic))
    ensures client.writeBuffer == old(client.writeBuffer)
  {
    var refused := Exchange((_: nat) => 16384, [], true, 0, diagnostic, 0);
    var engine, body;
    engine, body, failure := client.Flush(refused);
    assert BodyChunksWithin(old(client.writeBuffer), refused.ask, 0, 0) == [];
    assert body == [];
  }

  /**
   * A keep-alive flush that the server rejects with `status` before the
   * engine asks for any body bytes (an early final answer to
   * `Expect: 100-continue`): the engine reports no error, the status raises.
   */
  method RejectedFlush(client: CurlClient, status: int) returns (failure: FlushResult)
    requires client.Valid() && client.switches.keepAlive && client.curl.Some?
    requires status != 200
    modifies client`curl, client`headers, client`isOpen, client`writeBuffer, client`readBuffer
    ensures client.Valid() && client.curl.Some?
    ensures failure == Raised(BadStatus(client.url, status))
    ensures client.writeBuffer == old(client.writeBuffer)
  {
    var rejected := Exchange((_: nat) => 16384, [], false, 0, "", status);
    var engine, body;
    engine, body, failure := client.Flush(rejected);
    assert BodyChunksWithin(old(client.writeBuffer), rejected.ask, 0, 0) == [];
    assert body == [];
  }

  /** A keep-alive flush answered with status 200 and an empty body: returns the bytes sent. */
  method AnsweredFlush(client: CurlClient) returns (sent: seq<Byte>)
    requires client.Valid() && client.switches.keepAlive && client.curl.Some?
    modifies client`curl, client`headers, client`isOpen, client`writeBuffer, client`readBuffer
    ensures sent == old(client.writeBuffer)
  {
    var answered := Exchange((_: nat) => 16384, [], false, 0, "", 200);
    var engine, outcome;
    engine, sent, outcome := client.Flush(answered);
  }

  /** A keep-alive transport for `url`, opened, with `first` queued. */
  method OpenedWith(url: string, first: seq<Byte>) returns (client: CurlClient)
    ensures fresh(client)
    ensures client.Valid() && client.switches.keepAlive && client.curl.Some?
    ensures client.url == url && client.writeBuffer == first
  {
    client := new CurlClient(url, DefaultSwitches);
    client.Open();
    client.Write(first);
  }

  /** Queues `second` behind whatever is still queued and flushes to a server answering 200. */
  method ResendAfter(client: CurlClient, second: seq<Byte>) returns (resent: seq<Byte>)
    requires client.Valid() && client.switches.keepAlive && client.curl.Some?
    modifies client`curl, client`headers, client`isOpen, client`writeBuffer, client`readBuffer
    ensures resent == old(client.writeBuffer) + second
  {
    client.Write(second);
    resent := AnsweredFlush(client);
  }

  /**
   * After a refused flush the queued request is still there, so the next
   * flush sends those bytes ahead of the ones written for the new request.
   */
  method FailedFlushResend(url: string, diagnostic: string, first: seq<Byte>, second: seq<Byte>)
    returns (failure: FlushResult, resent: seq<Byte>)
    ensures failure == Raised(EngineFailure(url, diagnostic))
    ensures resent == first + second
  {
    var client := OpenedWith(url, first);
    failure := RefusedFlush(client, diagnostic);
    resent := ResendAfter(client, second);
  }

  /**
   * After a flush the server rejected before taking the body, the queued
   * request is still there: the next flush sends those bytes ahead of the
   * ones written for the new request.
   */
  method RejectedFlushResend(url: string, status: int, first: seq<Byte>, second: seq<Byte>)
    returns (failure: FlushResult, resent: seq<Byte>)
    requires status != 200
    ensures failure == Raised(BadStatus(url, status))
    ensures resent == first + second
  {
    var client := OpenedWith(url, first);
    failure := RejectedFlush(client, status);
    resent := ResendAfter(client, second);
  }
}
