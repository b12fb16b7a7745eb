/**
 * The request header list `init` hands to the engine: the transport's own
 * fixed declarations first, then the caller's extra lines in the order they
 * were registered.
 */
module Headers {

  const ContentType: string := "application/x-thrift"
  const ChunkedHeader: string := "Transfer-Encoding: chunked"
  const ExpectHeader: string := "Expect:"
  const ContentTypeHeader: string := "Content-Type: " + ContentType
  const AcceptHeader: string := "Accept: " + ContentType

  /**
   * The fixed lines: the chunked marker when chunked transfer is built in,
   * an empty `Expect:` when the 100-continue handshake is built out, then
   * the content type and the accepted type.
   */
  function FixedHeaders(chunked: bool, useExpect: bool): seq<string>
  {
    (if chunked then [ChunkedHeader] else []) +
    (if useExpect then [] else [ExpectHeader]) +
    [ContentTypeHeader, AcceptHeader]
  }

  function HeaderLines(chunked: bool, useExpect: bool, extra: seq<string>): seq<string>
  {
    FixedHeaders(chunked, useExpect) + extra
  }

  /**
   * The list holds the fixed lines in their order, then every extra line,
   * duplicates included, at its registration position.
   */
  lemma HeaderLinesOrder(chunked: bool, useExpect: bool, extra: seq<string>)
    ensures var lines := HeaderLines(chunked, useExpect, extra);
            var f := (if chunked then 1 else 0) + (if useExpect then 0 else 1) + 2;
            && |lines| == f + |extra|
            && (chunked ==> lines[0] == ChunkedHeader)
            && (!useExpect ==> lines[f - 3] == ExpectHeader)
            && lines[f - 2] == ContentTypeHeader
            && lines[f - 1] == AcceptHeader
            && lines[f..] == extra
  {
  }

  /** With the default build (chunked transfer on, Expect handshake kept): exactly three fixed lines. */
  lemma DefaultHeaderLines(extra: seq<string>)
    ensures HeaderLines(true, true, extra) ==
            [ChunkedHeader, ContentTypeHeader, AcceptHeader] + extra
  {
  }

  /** Registering one more line appends it and leaves every earlier line in place. */
  lemma HeaderLinesAppend(chunked: bool, useExpect: bool, extra: seq<string>, h: string)
    ensures HeaderLines(chunked, useExpect, extra + [h]) == HeaderLines(chunked, useExpect, extra) + [h]
  {
  }
}
