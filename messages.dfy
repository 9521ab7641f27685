/**
  The texts of the two exceptions the validate-input handler raises, and readers that
  recover the key or value from a text, proving that each text carries its key or
  value verbatim and that the two kinds of text never coincide.
 */
module Messages {

  import opened Wrappers

  const MISSING_INPUT_PREFIX: string := "Missing required input key: "
  const MISSING_INPUT_SUFFIX: string := " from the event payload."
  const NOT_SUPPORTED_SUFFIX: string := " is not a supported operation."

  /** The `MissingRequiredInput` text for a missing key: fixed wording around the key. */
  function MissingInputMessage(key: string): (m: string)
    ensures |m| == |MISSING_INPUT_PREFIX| + |key| + |MISSING_INPUT_SUFFIX|
    ensures m[..|MISSING_INPUT_PREFIX|] == MISSING_INPUT_PREFIX
    ensures m[|MISSING_INPUT_PREFIX|..|MISSING_INPUT_PREFIX| + |key|] == key
    ensures m[|m| - |MISSING_INPUT_SUFFIX|..] == MISSING_INPUT_SUFFIX
  {
    MISSING_INPUT_PREFIX + key + MISSING_INPUT_SUFFIX
  }

  /** The `WorkloadOperationNotSupported` text for a rendered operation value: the value, then fixed wording. */
  function NotSupportedMessage(value: string): (m: string)
    ensures |m| == |value| + |NOT_SUPPORTED_SUFFIX|
    ensures m[..|value|] == value
    ensures m[|value|..] == NOT_SUPPORTED_SUFFIX
  {
    value + NOT_SUPPORTED_SUFFIX
  }

  /** The key a `MissingRequiredInput` text names, or None for any other text. */
  function MissingKeyOf(message: string): (r: Option<string>)
    ensures r.Some? ==> MissingInputMessage(r.value) == message
  {
    var p, s := |MISSING_INPUT_PREFIX|, |MISSING_INPUT_SUFFIX|;
    if |message| >= p + s && message[..p] == MISSING_INPUT_PREFIX && message[|message| - s..] == MISSING_INPUT_SUFFIX
    then Some(message[p..|message| - s])
    else None
  }

  /** The value a `WorkloadOperationNotSupported` text names, or None for any other text. */
  function UnsupportedValueOf(message: string): (r: Option<string>)
    ensures r.Some? ==> NotSupportedMessage(r.value) == message
  {
    var s := |NOT_SUPPORTED_SUFFIX|;
    if |message| >= s && message[|message| - s..] == NOT_SUPPORTED_SUFFIX
    then Some(message[..|message| - s])
    else None
  }

  /** A `MissingRequiredInput` text names exactly its key. */
  lemma MissingKeyOfInverts(key: string)
    ensures MissingKeyOf(MissingInputMessage(key)) == Some(key)
  {
  }

  /** A `WorkloadOperationNotSupported` text carries its value verbatim. */
  lemma UnsupportedValueOfInverts(value: string)
    ensures UnsupportedValueOf(NotSupportedMessage(value)) == Some(value)
  {
  }

  /** No `MissingRequiredInput` text is a `WorkloadOperationNotSupported` text: they end differently. */
  lemma MessagesDistinct(key: string, value: string)
    ensures MissingInputMessage(key) != NotSupportedMessage(value)
  {
    var m, n := MissingInputMessage(key), NotSupportedMessage(value);
    assert m[|m| - 2] == 'd';
    assert n[|n| - 2] == 'n';
  }

  /** An unsupported-operation text is never read as naming a missing key. */
  lemma UnsupportedNeverReadsAsMissing(value: string)
    ensures MissingKeyOf(NotSupportedMessage(value)) == None
  {
    var r := MissingKeyOf(NotSupportedMessage(value));
    if r.Some? {
      MessagesDistinct(r.value, value);
    }
  }
}
