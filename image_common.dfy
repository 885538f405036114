/** What the two image demo routes share: byte buffers and `data:` URLs
    (section 3 of RFC 2397), with base64 (section 4 of RFC 4648) kept
    symbolic, and the sanitising of the text placed in a placeholder SVG. */
module ImageCommon {
  import opened JsString

  /** A Node.js `Buffer`, by where its bytes came from. */
  datatype Buffer =
    | Utf8(text: string)          // `Buffer.from(text)`
    | FromBase64(encoded: string) // `Buffer.from(encoded, 'base64')`
    | Bytes(data: seq<bv8>)       // bytes from the network or an image service

  /** `data:<mediaType>;base64,<base64 of payload>` */
  datatype DataUrl = DataUrl(mediaType: string, payload: Buffer)

  /** A call into code outside the model: it returns a value or throws. */
  datatype Attempt<T> = Returned(value: T) | Threw

  /** `text.slice(0, limit).replace(/[<>]/g, '')`: at most `limit`
      characters, none of them an angle bracket, and every other character
      of the kept prefix still there. */
  function SafeText(text: string, limit: nat): (safe: string)
    ensures |safe| <= limit
    ensures '<' !in safe && '>' !in safe
    ensures forall c :: c != '<' && c != '>' ==> multiset(safe)[c] == multiset(Take(text, limit))[c]
  {
    var kept := Take(text, limit);
    var safe := RemoveAll(kept, {'<', '>'});
    safe
  }

  /** Text that is short enough and has no angle brackets is kept as it is. */
  lemma SafeTextKeepsPlainText(text: string, limit: nat)
    requires |text| <= limit && '<' !in text && '>' !in text
    ensures SafeText(text, limit) == text
  {
    RemoveAllNothingToRemove(text, {'<', '>'});
  }

  /** The number of opening and closing angle brackets in a string. */
  function Brackets(s: string): nat
  {
    multiset(s)['<'] + multiset(s)['>']
  }

  /** Text placed between two parts of a template adds no angle bracket
      once it has been through SafeText. */
  lemma SafeTextAddsNoBrackets(before: string, text: string, limit: nat, after: string)
    ensures Brackets(before + SafeText(text, limit) + after) == Brackets(before + after)
  {
    var safe := SafeText(text, limit);
    assert multiset(safe)['<'] == 0 && multiset(safe)['>'] == 0;
    assert multiset(before + safe + after) == multiset(before) + multiset(safe) + multiset(after);
    assert multiset(before + after) == multiset(before) + multiset(after);
  }
}
