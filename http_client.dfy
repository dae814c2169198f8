/** The HTTP GET helper: the growable response buffer `curlStr_t` with
    `initString` and the libcurl write callback `writeFunction`, and `getUrl`,
    which drives one transfer and copies the body out on success. libcurl
    itself is not modelled: a transfer is given by what it delivers. */
module HttpClient {
  import opened CTypes

  /** Size of the caller's `dataout` array. */
  const MAX_RECEIVE_LEN: nat := 1024

  /** The chunks of a response, joined in the order they arrived. */
  function Concat(chunks: seq<seq<byte>>): seq<byte>
  {
    if chunks == [] then [] else Concat(chunks[..|chunks| - 1]) + chunks[|chunks| - 1]
  }

  /** The sum of the chunk sizes. */
  function TotalSize(chunks: seq<seq<byte>>): nat
  {
    if chunks == [] then 0 else TotalSize(chunks[..|chunks| - 1]) + |chunks[|chunks| - 1]|
  }

  /** The concatenation is exactly as long as the sum of the chunk sizes. */
  lemma {:induction false} ConcatLength(chunks: seq<seq<byte>>)
    ensures |Concat(chunks)| == TotalSize(chunks)
  {
    if chunks != [] {
      ConcatLength(chunks[..|chunks| - 1]);
    }
  }

  /** `curlStr_t`: `ptr` is a heap block of `len + 1` bytes whose last byte is
      the terminator. */
  class CurlStr {
    var ptr: array<byte>
    var len: nat

    ghost predicate Valid()
      reads this, ptr
    {
      ptr.Length == len + 1 && ptr[len] == 0
    }

    /** The bytes received so far. */
    function Contents(): seq<byte>
      reads this, ptr
      requires Valid()
    {
      ptr[..len]
    }

    /** `initString`: an empty buffer holding only its terminator. */
    constructor InitString()
      ensures Valid() && fresh(ptr)
      ensures len == 0 && ptr[0] == 0 && Contents() == []
    {
      len := 0;
      ptr := new byte[1];
      new;
      ptr[0] := 0;
    }

    /** `writeFunction`: grows the block to `len + size * nmemb + 1` bytes,
        copies the incoming chunk behind the old contents, terminates it, and
        reports the whole chunk as consumed. */
    method WriteFunction(data: seq<byte>, size: nat, nmemb: nat) returns (consumed: nat)
      requires Valid()
      requires size * nmemb <= |data|
      modifies this
      ensures Valid() && fresh(ptr)
      ensures consumed == size * nmemb
      ensures len == old(len) + size * nmemb
      ensures ptr[..old(len)] == old(Contents())
      ensures ptr[old(len)..len] == data[..size * nmemb]
      ensures Contents() == old(Contents()) + data[..size * nmemb]
    {
      var n := size * nmemb;
      var newLen := len + n;
      ghost var before := Contents();
      var grown := Realloc(ptr, newLen + 1);
      assert grown[..len] == before;
      var i := 0;
      while i < n
        invariant 0 <= i <= n
        invariant grown[..len] == before
        invariant grown[len..len + i] == data[..i]
        modifies grown
      {
        grown[len + i] := data[i];
        i := i + 1;
        assert grown[len..len + i] == grown[len..len + i - 1] + [data[i - 1]];
      }
      grown[newLen] := 0;
      assert grown[..newLen] == grown[..len] + grown[len..newLen];
      ptr := grown;
      len := newLen;
      consumed := n;
    }
  }

  /** `realloc`: a new block of `size` bytes that starts with the old block's
      bytes, as many of them as fit. */
  method Realloc(block: array<byte>, size: nat) returns (grown: array<byte>)
    ensures fresh(grown) && grown.Length == size
    ensures size <= block.Length ==> grown[..] == block[..size]
    ensures block.Length <= size ==> grown[..block.Length] == block[..]
  {
    grown := new byte[size];
    var keep := if size <= block.Length then size else block.Length;
    var i := 0;
    while i < keep
      invariant 0 <= i <= keep
      invariant grown[..i] == block[..i]
    {
      grown[i] := block[i];
      i := i + 1;
      assert grown[..i] == grown[..i - 1] + [block[i - 1]];
    }
    assert grown[..keep] == block[..keep];
  }

  /** What `initString` followed by one `writeFunction` call per delivered
      chunk leaves in `str.ptr` (libcurl calls the write callback with
      `size == 1`): the concatenation of the chunks, then the terminator,
      with `len` the sum of the chunk sizes. */
  method ReceiveBody(chunks: seq<seq<byte>>) returns (block: seq<byte>, len: nat)
    ensures len == TotalSize(chunks) && |block| == len + 1
    ensures block == Concat(chunks) + [0]
  {
    var str := new CurlStr.InitString();
    var k := 0;
    while k < |chunks|
      invariant 0 <= k <= |chunks|
      invariant str.Valid()
      invariant str.Contents() == Concat(chunks[..k])
      invariant str.len == TotalSize(chunks[..k])
    {
      var consumed := str.WriteFunction(chunks[k], 1, |chunks[k]|);
      assert chunks[..k + 1][..k] == chunks[..k];
      k := k + 1;
    }
    assert chunks[..k] == chunks;
    ConcatLength(chunks);
    block := str.ptr[..];
    assert block == str.Contents() + [0];
    len := str.len;
  }

  /** Result of `curl_easy_perform`. */
  datatype CurlCode = CurleOk | CurleSslCacert | CurleError(code: nat)

  /** Everything libcurl does for one `getUrl` call: whether
      `curl_easy_init` gave a handle, the chunks it passed to the write
      callback, and the code `curl_easy_perform` returned. */
  datatype Transfer = Transfer(curlInit: bool, chunks: seq<seq<byte>>, code: CurlCode)
  {
    predicate Succeeds()
    {
      curlInit && code == CurleOk
    }

    /** The text `strcpy` copies out of the response buffer. */
    function Body(): seq<byte>
    {
      CString(Concat(chunks), 0)
    }

    /** `strcpy` into an array of `MAX_RECEIVE_LEN` bytes stays inside it. */
    predicate FitsReceiveBuffer()
    {
      Succeeds() ==> |Body()| < MAX_RECEIVE_LEN
    }
  }

  /** `getUrl`: true exactly when curl initialised and the transfer returned
      `CURLE_OK`; only then is `dataout` written, with the received text as a
      C string. */
  method GetUrl(t: Transfer, dataout: array<byte>) returns (result: bool)
    requires t.Succeeds() ==> |t.Body()| < dataout.Length
    modifies dataout
    ensures result <==> t.Succeeds()
    ensures result ==> dataout[..] == StoreCString(old(dataout[..]), t.Body(), 0)
    ensures !result ==> dataout[..] == old(dataout[..])
  {
    result := false;
    if t.curlInit {
      var block, len := ReceiveBody(t.chunks);
      if t.code == CurleOk {
        assert CString(block, 0) == t.Body() by {
          CStringOfAppendedNul(Concat(t.chunks), 0);
        }
        CopyCString(dataout, CString(block, 0), 0);
        result := true;
      }
    }
  }
}
