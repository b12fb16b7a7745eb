# TCurlClient, modelled in Dafny

`TCurlClient` is a Thrift transport that carries each RPC message over one
HTTP POST through libcurl. The RPC layer writes the serialized request into an
in-memory write buffer. `flush` hands that buffer to libcurl as the request
body and collects the response body into a read buffer. It then raises a
transport exception unless the exchange succeeded with HTTP status 200. The
RPC layer drains the read buffer with `read` and ends the cycle with `readEnd`.

The model has these modules:

- `Fifo` holds bytes, the 32-bit counts the transport uses, and the FIFO
  discipline of both `TMemoryBuffer`s (append at the tail, read from the head).
  It also holds the schedule by which libcurl's request-body callback drains
  the write buffer.
- `Engine` models the libcurl easy handle as the ordered log of
  `curl_easy_setopt` calls made on it. The value in force for an option is the
  last one set. One `curl_easy_perform` is an `Exchange`: the sizes the engine
  asks the read callback for, the response chunks it hands the write callback,
  and how it ends (an engine error with its diagnostic text, or an HTTP status).
  An exchange that does not end in a 200 success also says how many
  read-callback calls the engine makes before it stops uploading.
- `OptionDecoding` covers how `init` turns the registered `(identifier, string)`
  options into setopt calls. Identifiers below `CURLOPTTYPE_OBJECTPOINT` take a
  `long`: "true" is 1, "false" is 0, and anything else goes through a model of
  `strtol(s, NULL, 10)` on a 64-bit `long`. Identifiers below `CURLOPTTYPE_OFF_T`
  take the string. Anything else is skipped. Options are visited in ascending
  identifier order, which is the iteration order of `std::map`.
- `Headers` builds the request header list from the fixed lines and then the
  caller's extra lines.
- `FlushPolicy` decides the outcome of a flush, both as the code computes it
  and as intended.
- `Client` holds the `CurlClient` class with the transport's fields and
  methods. Both libcurl callbacks are methods on it. A whole write / flush /
  read cycle against an echoing server is a scenario method.

The source's compile-time switches `USE_KEEPALIVE`, `USE_CHUNKED` and
`USE_EXPECT` are a `BuildSwitches` value fixed at construction. The source's
own build turns all three on (`DefaultSwitches`). The other combinations are
modelled too, so both branches of every `#ifdef` are covered.

An option identifier outside every known category is not applied. The code
(`TCurlClient.cpp:141-143`) does nothing with such an option; its `//XXX throw`
comment marks an error that was never raised. The model follows the code:
`DecodeOption` yields `None` and no setopt call is made.

A flush can end before the engine has taken the whole request body. Either
the engine fails (a refused connection, say), or the server sends a final
status other than 200 first. The second case needs no engine error: with
`Expect: 100-continue`, which the default build keeps, libcurl stops the
upload when a status of 300 or more arrives before the body is complete. In
both cases the bytes the engine did not take stay in the write buffer,
because nothing in `flush` (`TCurlClient.cpp:173-207`) clears it. The next
`flush` sends them ahead of the bytes written for the new request. The model
keeps this behaviour. An `Exchange` that does not end in a 200 success says
after how many read-callback calls the engine stops uploading. Only a 200
success is guaranteed to have taken the whole buffer.

## Model

| member | source | states |
|---|---|---|
| Fifo.Truncate32 | TCurlClient.cpp:41 | storing `size*nmemb` in a `uint32_t` keeps a value below 2^32, and one that already fits is kept unchanged |
| Fifo.Take | TCurlClient.cpp:58-61 | a buffer read hands out min(n, available) bytes from the head, and those bytes followed by what stays behind are exactly the old buffer |
| Fifo.BodyChunksWithinEnough | TCurlClient.cpp:49-62 | a budget of as many read-callback calls as there are queued bytes never cuts the drain short |
| Fifo.DrainWithinAll | TCurlClient.cpp:49-62 | with positive request sizes and at least one call per queued byte, the chunks handed out concatenate to the whole write buffer |
| Fifo.BodyChunksDeliverAll | TCurlClient.cpp:49-62 | for any schedule of positive request sizes, the chunks the read callback yields before its first empty answer concatenate to the whole write buffer, and each is non-empty and no longer than its request |
| OptionDecoding.SkipSpace | TCurlClient.cpp:134 | `strtol`'s white-space skip drops only leading white space and stops at the first other character |
| OptionDecoding.DigitRun | TCurlClient.cpp:134 | the digits `strtol` consumes are the longest prefix of decimal digits |
| OptionDecoding.ParseLong | TCurlClient.cpp:134 | `strtol(s, NULL, 10)` always yields a value within the range of a 64-bit `long` |
| OptionDecoding.ParseLongOfDecimal | TCurlClient.cpp:134 | `strtol` reads back every `long` written in decimal, so decimal text and parsing are inverses on the `long` range |
| OptionDecoding.DecodeOption | TCurlClient.cpp:124-143 | an option is applied if and only if its identifier is below `CURLOPTTYPE_OFF_T`; below the object-pointer range it is a `long` within range, otherwise it is the registered string unchanged |
| OptionDecoding.DecodeBooleanWords | TCurlClient.cpp:127-132 | for an integer-valued option, "true" becomes 1 and "false" becomes 0 |
| OptionDecoding.DecodeDecimalRoundTrip | TCurlClient.cpp:125-136 | an integer-valued option registered as the decimal text of a `long` reaches the engine as that number |
| OptionDecoding.MinKey | TCurlClient.cpp:121-122 | the first identifier an ordered map yields is in the set and no larger than any other |
| OptionDecoding.OrderedKeysSorted | TCurlClient.cpp:121-122 | the ordered-map iteration lists every registered identifier exactly once, in strictly ascending order |
| OptionDecoding.WalkStep | TCurlClient.cpp:121-144 | visiting the smallest remaining identifier extends the visited prefix of the ascending walk by one and adds exactly that option's setopt call |
| OptionDecoding.CallsFor | TCurlClient.cpp:121-144 | every option setopt call names a visited identifier below `CURLOPTTYPE_OFF_T` and carries that option's decoded value |
| OptionDecoding.UserOptionCallsAscending | TCurlClient.cpp:121-144 | the option setopt calls reach the engine in strictly ascending identifier order, at most one per identifier |
| OptionDecoding.UserOptionCallsEffective | TCurlClient.cpp:121-144 | after the option loop, identifier `key` holds its decoded value if it is registered in a known range, and the loop sets it not at all otherwise |
| Headers.HeaderLinesOrder | TCurlClient.cpp:103-117 | the header list is the chunked marker (when built in), the empty `Expect:` (when the handshake is built out), Content-Type, Accept, and then every extra line in registration order, duplicates included |
| Headers.DefaultHeaderLines | TCurlClient.cpp:33-36 | with the source's own build the list is exactly the chunked marker, Content-Type and Accept for `application/x-thrift`, followed by the extra lines |
| Headers.HeaderLinesAppend | TCurlClient.h:43-45 | registering one more header appends it to the list `init` builds and leaves every earlier line in place |
| FlushPolicy.FailureMessage | TCurlClient.cpp:193-194 | a failure message starts with "flush to ", shows the URL next, then " failed: ", and ends with the detail text |
| FlushPolicy.TransportError.Message | TCurlClient.cpp:192-205 | the exception text is "flush to ", the URL and " failed: ", followed by the engine's diagnostic for an engine failure or by the printed status for a bad status |
| FlushPolicy.StatusText | TCurlClient.cpp:200-203 | the printed status is the decimal text of the status cut to the three characters the 4-byte buffer holds |
| FlushPolicy.BadStatusMessageRoundTrip | TCurlClient.cpp:200-204 | a three-digit status is printed whole, and parsing the tail of its message gives the status back |
| FlushPolicy.LongStatusTruncated | TCurlClient.cpp:200-204 | a four-digit status such as 1234 loses its last digit in the message and reads back as 123 |
| FlushPolicy.FlushOutcome | TCurlClient.cpp:192-206 | a flush succeeds if and only if the engine reported no error and the status is 200; an engine error wins over the status, and any other status is reported with its value |
| FlushPolicy.FlushOutcomeAsWritten | TCurlClient.cpp:188-199 | as written, keep-alive judges the server's status, but without keep-alive success depends only on the stale status variable |
| FlushPolicy.AsWrittenIgnoresServerStatus | TCurlClient.cpp:188-199 | without keep-alive, a server answering 200 is reported as failed whenever the stale status is not 200, and a 404 passes whenever the stale status is 200; the intended outcome judges both correctly |
| Client.PreambleEffective | TCurlClient.cpp:86-97 | after `init`'s preamble and header list, URL, user agent, POST, both callbacks and both user-data pointers are in force with the values set, and the header option holds the list built |
| Client.CredentialsEffective | TCurlClient.cpp:99-101 | basic-auth credentials are in force exactly when they are non-empty |
| Client.InitCallsEffective | TCurlClient.cpp:85-144 | on the handle `init` prepares, a registered option in a known range overrides what the preamble set for its identifier, and every other identifier keeps the preamble's value |
| Client.BuildHeaderList | TCurlClient.cpp:103-117 | the list built line by line is the header list `Headers.HeaderLines` describes |
| Client.ApplyOptions | TCurlClient.cpp:121-144 | the option loop makes exactly the setopt calls of the ascending walk over the registered options |
| Client.CurlClient.constructor | TCurlClient.cpp:64-67 | a new transport is closed, holds no handle and no header list, has empty buffers and no configuration |
| Client.CurlClient.SetCredentials | TCurlClient.h:35-37 | the credentials are replaced |
| Client.CurlClient.SetOption | TCurlClient.h:39-41 | the option map gains or overwrites exactly one entry |
| Client.CurlClient.AddHeader | TCurlClient.h:43-45 | the extra header is appended after those already registered |
| Client.CurlClient.CurlRead | TCurlClient.cpp:49-62 | the read callback hands out min(32-bit size*nmemb, available) bytes from the head of the write buffer and removes exactly those |
| Client.CurlClient.CurlWrite | TCurlClient.cpp:39-46 | the write callback appends the first 32-bit-truncated size*nmemb bytes to the read buffer and reports that count, which is the whole chunk when it fits in 32 bits |
| Client.CurlClient.Init | TCurlClient.cpp:85-146 | `init` leaves the transport open with a handle carrying the calls `InitCalls` lists for the current configuration and the header list built from it |
| Client.CurlClient.Cleanup | TCurlClient.cpp:148-158 | `cleanup` releases the header list and the handle and marks the transport closed, from any state |
| Client.CurlClient.Open | TCurlClient.cpp:73-77 | with keep-alive, `open` performs `init`; without it nothing changes; the class invariant is kept |
| Client.CurlClient.Close | TCurlClient.cpp:79-83 | with keep-alive, `close` performs `cleanup`; without it nothing changes; the class invariant is kept |
| Client.CurlClient.IsOpen | TCurlClient.h:49-51 | the transport reports open exactly when it holds a handle |
| Client.CurlClient.Peek | TCurlClient.h:53-55 | `peek` always answers true |
| Client.CurlClient.Read | TCurlClient.cpp:160-163 | a read returns min(len, available) bytes from the head of the read buffer and removes exactly those |
| Client.CurlClient.ReadEnd | TCurlClient.cpp:165-167 | after `readEnd` the read buffer is empty |
| Client.CurlClient.Write | TCurlClient.cpp:169-171 | a write appends its bytes to the write buffer and nothing else changes |
| Client.CurlClient.SendBody | TCurlClient.cpp:49-62 | calling the read callback until it yields nothing or the call budget is used up sends a prefix of the write buffer, in order, and leaves exactly the rest queued; a budget of at least one call per byte sends the whole buffer and leaves it empty |
| Client.CurlClient.ReceiveBody | TCurlClient.cpp:39-46 | delivering the response chunks through the write callback appends their concatenation to the read buffer |
| Client.CurlClient.PrepareRequest | TCurlClient.cpp:181-186 | flush adds the body size (only when chunked transfer is built out) and then the error buffer to the live handle |
| Client.CurlClient.Perform | TCurlClient.cpp:181-187 | one request on a live handle sends the write buffer up to the point where the engine stops uploading (after an engine error or an early status other than 200; all of it on a 200 success), keeps the unsent rest queued, appends the response chunks delivered to the read buffer and yields the intended outcome |
| Client.CurlClient.Flush | TCurlClient.cpp:173-207 | with keep-alive the request runs on the held handle, or fails with an empty diagnostic when none is held; without it a fresh handle for the current configuration is used and released; the body sent is the part of the write buffer the engine took before it finished, failed or received an early status other than 200, the rest stays queued (nothing is left after a 200 success), the read buffer gains the response chunks delivered, and the outcome is `FlushOutcome` |
| Client.WriteAll | TCurlClient.cpp:169-171 | successive writes queue the concatenation of their parts, in order |
| Client.ReadAll | TCurlClient.cpp:160-163 | reading until a read yields nothing returns the whole read buffer and empties it |
| Client.EchoFlush | TCurlClient.cpp:173-207 | a keep-alive flush to a server that echoes the body with status 200 succeeds and moves the write buffer into the read buffer |
| Client.RefusedFlush | TCurlClient.cpp:173-196 | a keep-alive flush refused before any body byte is taken raises with the engine's diagnostic and leaves the queued request untouched |
| Client.RejectedFlush | TCurlClient.cpp:173-206 | a keep-alive flush the server rejects with a status other than 200 before any body byte is taken raises that status and leaves the queued request untouched |
| Client.AnsweredFlush | TCurlClient.cpp:173-207 | a keep-alive flush that succeeds sends the whole queued request |
| Client.FailedFlushResend | TCurlClient.cpp:169-207 | after a refused flush, the next flush sends the bytes of the failed request followed by the bytes written since |
| Client.RejectedFlushResend | TCurlClient.cpp:169-207 | after a flush rejected by an early status other than 200, the next flush sends the bytes of the rejected request followed by the bytes written since |
| Client.EchoRoundTrip | TCurlClient.cpp:160-207 | for an opened keep-alive transport, however the request is split across writes and whatever the read size, a flush to an echoing server succeeds, reading to exhaustion returns exactly the bytes written, and after `readEnd` a read yields nothing |

## Left out

- libcurl itself (connections, TLS, redirects, timeouts, retries, the HTTP wire format) is not modelled: one `curl_easy_perform` is the given `Exchange`, and its validity states only libcurl's documented callback limits (positive request sizes and chunks below 2^32).
- `curl_easy_init` failing (returning NULL) is not modelled; `init` always yields a handle.
- The `USE_DEBUG` verbose setopt (TCurlClient.cpp:90-92) is left out because it only turns on diagnostic logging.
- The bad-status text passes a `long` to `snprintf` with `%d`. The model prints the status's full value in decimal before cutting it to three characters, so it does not model what a mismatched `%d` does with a value outside the `int` range.
- Client.CurlClient.constructor: the C++ constructor leaves `curl_` and `headers_` uninitialised, so flushing or destroying a keep-alive transport that was never opened is undefined behaviour; the model starts both as absent.
- Client.CurlClient.Init: a second `open` without `close` leaks the previous handle and header list; the model just replaces them and does not track leaked resources.
- Client.CurlClient.CurlRead: the `avail < 0` branch (TCurlClient.cpp:55-57) is dead code because `avail` is unsigned, so the model has no such branch.
- Client.CurlClient.constructor: the URL parameter's default value `""` (TCurlClient.h:31) is not a separate constructor; a caller passes `""` explicitly.
- The per-flush error buffer is a local array whose address stays registered on a keep-alive handle after `flush` returns; the model does not track that dangling pointer.
- `TMemoryBuffer`'s own 32-bit size limits and its growth policy are left out; both buffers are unbounded byte sequences.
- The destructor (TCurlClient.cpp:69-71) only calls `cleanup`, which is modelled. Freeing memory is left out.
- Thread safety is not modelled: the transport is single-threaded, as in the source.

## Findings

| source | as written | input that shows it | evidently intended | confidence | as-written member | corrected member |
|---|---|---|---|---|---|---|
| TCurlClient.cpp:188-199 | without keep-alive, `cleanup()` sets `curl_` to NULL before `curl_easy_getinfo(curl_, CURLINFO_RESPONSE_CODE, &rc)`, so the query fails and `rc` keeps its uninitialised value | `USE_KEEPALIVE` undefined, a server answering 200 with `rc` holding anything but 200 (reported as failure), or a server answering 404 with `rc` holding 200 (reported as success) | read the response code from the handle before releasing it, and judge the server's status in both modes | high; not executed | FlushPolicy.FlushOutcomeAsWritten, FlushPolicy.AsWrittenIgnoresServerStatus | Client.CurlClient.Flush, FlushPolicy.FlushOutcome |
