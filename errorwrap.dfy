/**
 * The two shapes of an adapter's outer `catch`: one tests the error message
 * for markers (the fetch adapters and gemini), the other tests the SDK
 * error's HTTP status (openai, anthropic, groq). Either maps an invalid key
 * to a fixed message that discards the original text, and prefixes every
 * other message with the adapter's failure label.
 */
module ErrorWrap {
  import opened Wrappers
  import opened JsString

  /** Some marker occurs in the message. */
  predicate MentionsAny(message: string, markers: seq<string>) {
    exists k | 0 <= k < |markers| :: Contains(message, markers[k])
  }

  /** `if (markers.some(m => message.includes(m))) throw invalidKey; throw failurePrefix + message`. */
  function CatchByMessage(markers: seq<string>, invalidKey: string, failurePrefix: string, message: string): (r: string)
    ensures MentionsAny(message, markers) ==> r == invalidKey
    ensures !MentionsAny(message, markers) ==> StartsWith(r, failurePrefix) && r[|failurePrefix|..] == message
  {
    if MentionsAny(message, markers) then invalidKey else failurePrefix + message
  }

  /** `if (error.status === 401) throw invalidKey; throw failurePrefix + error.message`. */
  function CatchByStatus(status: Option<int>, invalidKey: string, failurePrefix: string, message: string): (r: string)
    ensures status == Some(401) ==> r == invalidKey
    ensures status != Some(401) ==> StartsWith(r, failurePrefix) && r[|failurePrefix|..] == message
  {
    if status == Some(401) then invalidKey else failurePrefix + message
  }

  /** Two texts that differ in their first character: neither starts with the other. */
  predicate DistinctOpenings(a: string, b: string) {
    a != [] && b != [] && a[0] != b[0]
  }

  /**
   * When the invalid-key message does not open like the failure prefix, the
   * caller can tell the two outcomes apart: the result is the invalid-key
   * message exactly when a marker occurs.
   */
  lemma {:induction false} CatchByMessageDistinguishes(markers: seq<string>, invalidKey: string, failurePrefix: string, message: string)
    requires DistinctOpenings(invalidKey, failurePrefix)
    ensures CatchByMessage(markers, invalidKey, failurePrefix, message) == invalidKey <==> MentionsAny(message, markers)
  {
    var r := CatchByMessage(markers, invalidKey, failurePrefix, message);
    if !MentionsAny(message, markers) {
      assert r[0] == failurePrefix[0];
    }
  }

  /** The same for the status test: the result is the invalid-key message exactly for status 401. */
  lemma {:induction false} CatchByStatusDistinguishes(status: Option<int>, invalidKey: string, failurePrefix: string, message: string)
    requires DistinctOpenings(invalidKey, failurePrefix)
    ensures CatchByStatus(status, invalidKey, failurePrefix, message) == invalidKey <==> status == Some(401)
  {
    var r := CatchByStatus(status, invalidKey, failurePrefix, message);
    if status != Some(401) {
      assert r[0] == failurePrefix[0];
    }
  }
}
