/**
 * The charset handling of HttpClientExtensions.GetJsonAsync: the charset of
 * the Content-Type header names an encoding, and the body is transcoded to
 * UTF-8 unless it already is UTF-8.
 */
module Charset {
  import opened Wrappers
  import opened ApiErrors

  /** What Encoding.GetEncoding returns: the UTF-8 singleton or some other encoding. */
  datatype Encoding = Utf8 | OtherEncoding(codePage: int)

  /** Encoding.GetEncoding as an abstract partial function: a name it does not know is absent. */
  type EncodingRegistry = map<string, Encoding>

  const InvalidCharsetMessage: string := "The character set provided in ContentType is invalid."

  predicate Quoted(charset: string)
  {
    |charset| > 2 && charset[0] == '"' && charset[|charset| - 1] == '"'
  }

  /** The name GetEncoding looks up: at most one pair of surrounding quotes is removed. */
  function LookupName(charset: string): (name: string)
    ensures Quoted(charset) ==> name == charset[1..|charset| - 1]
    ensures !Quoted(charset) ==> name == charset
  {
    if Quoted(charset) then charset[1..|charset| - 1] else charset
  }

  /** Either the name is the charset itself, or the charset is the name wrapped in one pair of quotes. */
  lemma LookupNameRemovesOnePair(charset: string)
    ensures LookupName(charset) == charset || charset == "\"" + LookupName(charset) + "\""
    ensures |LookupName(charset)| == |charset| || |LookupName(charset)| == |charset| - 2
  {
    if Quoted(charset) {
      var n := LookupName(charset);
      assert charset == [charset[0]] + charset[1..|charset| - 1] + [charset[|charset| - 1]];
    }
  }

  /** A charset that is twice quoted keeps its inner quotes. */
  lemma LookupNameKeepsInnerQuotes(inner: string)
    requires |inner| > 0
    ensures LookupName("\"\"" + inner + "\"\"") == "\"" + inner + "\""
  {
    var s := "\"\"" + inner + "\"\"";
    assert Quoted(s);
    assert s[1..|s| - 1] == "\"" + inner + "\"";
  }

  /** "" and one-sided quotes are looked up unchanged. */
  lemma LookupNameShortOrOneSided(charset: string)
    requires |charset| <= 2 || charset[0] != '"' || charset[|charset| - 1] != '"'
    ensures LookupName(charset) == charset
  {
  }

  /**
   * GetEncoding(charset): no charset gives no encoding; otherwise the looked-up
   * name must be known, or the call raises InvalidOperationException.
   */
  function GetEncoding(charset: Option<string>, registry: EncodingRegistry): (r: Result<Option<Encoding>, Error>)
    ensures charset.None? ==> r == Success(None)
    ensures charset.Some? && LookupName(charset.value) in registry ==>
      r == Success(Some(registry[LookupName(charset.value)]))
    ensures charset.Some? && LookupName(charset.value) !in registry ==>
      r == Failure(InvalidOperation(InvalidCharsetMessage))
  {
    match charset
    case None => Success(None)
    case Some(c) =>
      var name := LookupName(c);
      if name in registry then Success(Some(registry[name])) else Failure(InvalidOperation(InvalidCharsetMessage))
  }

  /** With no charset the registry is never consulted: any two registries give the same answer. */
  lemma NoCharsetNoLookup(r1: EncodingRegistry, r2: EncodingRegistry)
    ensures GetEncoding(None, r1) == GetEncoding(None, r2) == Success(None)
  {
  }

  /** With a charset, the answer depends on the registry only at the looked-up name. */
  lemma LookupOnlyAtName(charset: string, r1: EncodingRegistry, r2: EncodingRegistry)
    requires LookupName(charset) in r1 <==> LookupName(charset) in r2
    requires LookupName(charset) in r1 ==> r1[LookupName(charset)] == r2[LookupName(charset)]
    ensures GetEncoding(Some(charset), r1) == GetEncoding(Some(charset), r2)
  {
  }

  /** The transcode condition: an encoding was found and it is not UTF-8. */
  predicate ShouldTranscode(encoding: Option<Encoding>)
  {
    encoding.Some? && encoding.value != Utf8
  }

  /** How GetJsonAsync reads a body: raw, or transcoded from the named encoding to UTF-8. */
  datatype BodyDecoding = AsUtf8 | TranscodeFrom(source: Encoding)

  function BodyDecodingFor(charset: Option<string>, registry: EncodingRegistry): (r: Result<BodyDecoding, Error>)
  {
    match GetEncoding(charset, registry)
    case Failure(e) => Failure(e)
    case Success(enc) => Success(if ShouldTranscode(enc) then TranscodeFrom(enc.value) else AsUtf8)
  }

  /** The body is transcoded exactly when the charset names a known encoding other than UTF-8. */
  lemma TranscodeIffKnownNonUtf8(charset: Option<string>, registry: EncodingRegistry)
    ensures BodyDecodingFor(charset, registry).Success? && BodyDecodingFor(charset, registry).value.TranscodeFrom?
      <==> charset.Some? && LookupName(charset.value) in registry && registry[LookupName(charset.value)] != Utf8
    ensures BodyDecodingFor(charset, registry).Failure? <==> charset.Some? && LookupName(charset.value) !in registry
  {
  }
}
