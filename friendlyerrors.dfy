/**
 * What the two user-facing error translators have in common: the
 * categories their rule chains sort a raw message into, and the first 50
 * characters a technical message is cut to.
 */
module FriendlyErrors {
  /** The rules of a translator, plus `Verbatim` for a message no rule matches. */
  datatype Category = Quota | Auth | ModelMissing | Overloaded | Network | Safety | Technical | Verbatim

  const ExcerptLength := 50

  /** `raw.substring(0, 50)`. */
  function Excerpt(raw: string): (r: string)
    ensures |r| == if |raw| < ExcerptLength then |raw| else ExcerptLength
    ensures r == raw[..|r|]
  {
    if |raw| < ExcerptLength then raw else raw[..ExcerptLength]
  }
}
