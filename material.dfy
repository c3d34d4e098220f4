/** The credential material builder: TLS bytes from a file path or inline base64 data. */
module Material {
  import opened Wrappers
  import opened Records

  /** The CA, client certificate and client key handed to the TLS stack; None is `null`. */
  datatype Credentials = Credentials(ca: Option<Bytes>, cert: Option<Bytes>, key: Option<Bytes>)

  /**
   * The UTF-8 encoding of one character of a binary string (code 0-255):
   * one byte below 0x80, two bytes from 0x80 on.
   */
  function EncodeChar(c: bv8): (r: Bytes)
    ensures |r| == if c < 0x80 then 1 else 2
    ensures c < 0x80 ==> r == [c]
    ensures c >= 0x80 ==> r[0] & 0xE0 == 0xC0 && r[1] & 0xC0 == 0x80
  {
    if c < 0x80 then [c] else [0xC0 | (c >> 6), 0x80 | (c & 0x3F)]
  }

  /** Number of characters of a binary string that UTF-8 writes as two bytes. */
  function HighCount(b: Bytes): nat {
    if |b| == 0 then 0 else (if b[0] >= 0x80 then 1 else 0) + HighCount(b[1..])
  }

  /**
   * `new Buffer(str, 'utf-8')` of a binary string: each character UTF-8
   * encoded in turn, so every character from 0x80 on grows by one byte.
   */
  function Utf8OfBinary(b: Bytes): (r: Bytes)
    ensures |r| == |b| + HighCount(b)
  {
    if |b| == 0 then [] else EncodeChar(b[0]) + Utf8OfBinary(b[1..])
  }

  /** Reads back a binary string from its UTF-8 bytes (two-byte sequences only). */
  function BinaryOfUtf8(u: Bytes): Bytes {
    if |u| == 0 then []
    else if u[0] < 0x80 || |u| == 1 then [u[0]] + BinaryOfUtf8(u[1..])
    else [((u[0] & 0x03) << 6) | (u[1] & 0x3F)] + BinaryOfUtf8(u[2..])
  }

  /** The encoding loses nothing: the binary string is recovered from its bytes. */
  lemma {:induction false} Utf8OfBinaryRoundTrip(b: Bytes)
    ensures BinaryOfUtf8(Utf8OfBinary(b)) == b
  {
    if |b| > 0 {
      Utf8OfBinaryRoundTrip(b[1..]);
      var rest := Utf8OfBinary(b[1..]);
      var u := EncodeChar(b[0]) + rest;
      if b[0] < 0x80 {
        assert u[1..] == rest;
      } else {
        assert u[2..] == rest;
        assert ((u[0] & 0x03) << 6) | (u[1] & 0x3F) == b[0];
      }
    }
  }

  /** A payload of ASCII characters (a PEM text, say) passes through unchanged. */
  lemma {:induction false} AsciiPassesThrough(b: Bytes)
    requires forall i :: 0 <= i < |b| ==> b[i] < 0x80
    ensures Utf8OfBinary(b) == b
  {
    if |b| > 0 {
      AsciiPassesThrough(b[1..]);
    }
  }

  /**
   * A non-empty file path wins and yields the file's bytes (a failed read is
   * an error); otherwise non-empty inline data is base64-decoded into a binary
   * string, which is then UTF-8 encoded (a decoder rejection is an error);
   * otherwise the result is null.
   */
  function BufferFromFileOrString(file: string, data: string, host: Host): (r: Result<Option<Bytes>, Error>)
    ensures file != "" ==> (r.Success? <==> host.readFile(file).Some?)
    ensures file != "" && r.Success? ==> r.value == host.readFile(file)
    ensures file != "" && r.Failure? ==> r.error == ReadFailed(file)
    ensures file == "" && data != "" && host.decodeBase64(data).Some?
            ==> r == Success(Some(Utf8OfBinary(host.decodeBase64(data).value)))
    ensures file == "" && data != "" && host.decodeBase64(data).None? ==> r == Failure(MalformedBase64(data))
    ensures r == Success(None) <==> file == "" && data == ""
  {
    if file != "" then
      match host.readFile(file)
      case None => Failure(ReadFailed(file))
      case Some(bytes) => Success(Some(bytes))
    else if data != "" then
      match host.decodeBase64(data)
      case None => Failure(MalformedBase64(data))
      case Some(binary) => Success(Some(Utf8OfBinary(binary)))
    else
      Success(None)
  }

  /** Inline data is never consulted when a file path is given. */
  lemma FileShadowsData(file: string, data1: string, data2: string, host: Host)
    requires file != ""
    ensures BufferFromFileOrString(file, data1, host) == BufferFromFileOrString(file, data2, host)
  {
  }
}
