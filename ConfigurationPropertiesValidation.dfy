/**
 * `ConfigurationPropertiesValidationResult`: the result of validating one line
 * of a configuration properties file. It records where the line came from and
 * prints the same two-column summary as an endpoint result, except that the
 * option keys are shortened to their last dotted segment while the key column
 * keeps the width of the full keys.
 */
module ConfigurationPropertiesValidation {
  import opened JavaLang
  import opened JavaStrings
  import opened ValidationSummary

  /** The title of the summary's header block. */
  const Title: string := "Configuration properties error"

  /**
   * `shortKey(key)`: when the first dot is past the start, the text after the
   * last dot; otherwise (no dot, or a leading dot) the key itself.
   */
  function ShortKey(key: string): string {
    if IndexOf(key, '.') > 0 then key[LastIndexOf(key, '.') + 1..] else key
  }

  /**
   * The short key is always a suffix of the key, and it is the whole key when
   * the key has no dot or starts with one.
   */
  lemma ShortKeyIsSuffix(key: string)
    ensures |ShortKey(key)| <= |key| && key[|key| - |ShortKey(key)|..] == ShortKey(key)
    ensures IndexOf(key, '.') <= 0 ==> ShortKey(key) == key
  {
    if IndexOf(key, '.') > 0 {
      var last := LastIndexOf(key, '.');
      assert 0 <= last < |key|;
    }
  }

  /**
   * When the key has a dot past its start, the short key is what follows the
   * last dot: it holds no dot, and a dot sits right before it.
   */
  lemma ShortKeyAfterLastDot(key: string)
    requires IndexOf(key, '.') > 0
    ensures var r := ShortKey(key); '.' !in r && |r| < |key| && key[|key| - |r| - 1] == '.'
  {
    var last := LastIndexOf(key, '.');
    assert ShortKey(key) == key[last + 1..];
  }

  /** A key with a dot past its start that ends with a dot has an empty short key. */
  lemma ShortKeyOfTrailingDot(key: string)
    requires IndexOf(key, '.') > 0 && key[|key| - 1] == '.'
    ensures ShortKey(key) == ""
  {
    var last := LastIndexOf(key, '.');
    assert key[last + 1..] == [] by {
      assert key[|key| - 1] in key[last..];
    }
  }

  /** Shortening twice is shortening once: a short key has no dot left to cut at. */
  lemma ShortKeyIdempotent(key: string)
    ensures ShortKey(ShortKey(key)) == ShortKey(key)
  {
    ShortKeyIsSuffix(key);
    if IndexOf(key, '.') > 0 {
      ShortKeyAfterLastDot(key);
      assert IndexOf(ShortKey(key), '.') == -1;
    }
  }

  /** A dotted key keeps its last segment; a key with no dot or a leading dot is kept whole. */
  lemma ShortKeyExamples()
    ensures ShortKey("a.b.c") == "c"
    ensures ShortKey(".a.b") == ".a.b"
    ensures ShortKey("name") == "name"
  {
    assert IndexOf("a.b.c", '.') == 1 && LastIndexOf("a.b.c", '.') == 3;
  }

  /** The options with every key shortened, in the same order, values unchanged. */
  function ShortenKeys(options: seq<(string, string)>): (r: seq<(string, string)>)
    ensures |r| == |options|
    ensures forall k :: 0 <= k < |options| ==> r[k] == (ShortKey(options[k].0), options[k].1)
  {
    if |options| == 0 then []
    else
      var last := options[|options| - 1];
      ShortenKeys(options[..|options| - 1]) + [(ShortKey(last.0), last.1)]
  }

  /**
   * Line `i` of the summary prints the short key and the value of option `i`
   * in a column as wide as the full keys, and the short key fits that column,
   * so `RowColumns` applies: every short key ends at the column's edge and
   * every value starts at the same place.
   */
  lemma {:induction false} ShortKeysAligned(options: seq<(string, string)>, i: nat)
    requires i < |options|
    ensures var width := Width(Keys(options));
            && |ShortKey(options[i].0)| <= width
            && Lines(ShortenKeys(options), width)[i] == Row(ShortKey(options[i].0), options[i].1, width)
  {
    assert Keys(options)[i] == options[i].0;
    assert ShortenKeys(options)[i] == (ShortKey(options[i].0), options[i].1);
    ShortKeyIsSuffix(options[i].0);
  }

  class ConfigurationPropertiesValidationResult {
    var fileName: Option<string>
    var text: Option<string>
    var lineNumber: Int32
    var accepted: bool
    /** The error counter inherited from the properties validation result. */
    var errors: int
    /** What the inherited `isSuccess()` reports. */
    var baseSuccess: bool
    /** The inherited option table, full key and value, in insertion order. */
    var options: seq<(string, string)>

    /**
     * `new ConfigurationPropertiesValidationResult()`: no file, no text, line
     * 0, not accepted; `errors`, `baseSuccess` and `options` stand for the
     * inherited state.
     */
    constructor(errors: int, baseSuccess: bool, options: seq<(string, string)>)
      ensures fileName.None? && text.None? && lineNumber == 0 && !accepted
      ensures this.errors == errors && this.baseSuccess == baseSuccess && this.options == options
    {
      fileName, text, lineNumber, accepted := None, None, 0, false;
      this.errors, this.baseSuccess, this.options := errors, baseSuccess, options;
    }

    method SetFileName(fileName: Option<string>)
      modifies this`fileName
      ensures this.fileName == fileName
    {
      this.fileName := fileName;
    }

    method SetText(text: Option<string>)
      modifies this`text
      ensures this.text == text
    {
      this.text := text;
    }

    method SetLineNumber(lineNumber: Int32)
      modifies this`lineNumber
      ensures this.lineNumber == lineNumber
    {
      this.lineNumber := lineNumber;
    }

    method SetAccepted(accepted: bool)
      modifies this`accepted
      ensures this.accepted == accepted
    {
      this.accepted := accepted;
    }

    /**
     * `summaryErrorMessage(includeHeader, ignoreDeprecated, includeWarnings)`:
     * the header block when asked for, the text line, then one line per option
     * with its short key, in a key column as wide as the longest full key and
     * at least 24. The two flags do not change the text, and the text is never null.
     */
    method SummaryErrorMessage(includeHeader: bool, ignoreDeprecated: bool, includeWarnings: bool)
      returns (r: string)
      ensures r == Summary(includeHeader, Title, text, ShortenKeys(options), Width(Keys(options)))
    {
      var maxLen := ColumnWidth(Keys(options));
      var sb := if includeHeader then Header(Title) else "";
      sb := sb + SubjectLine(text);
      r := AppendRows(sb, ShortenKeys(options), maxLen);
    }

    /** `summaryErrorMessage(includeHeader)`: the same as with `ignoreDeprecated` set and `includeWarnings` clear. */
    method SummaryErrorMessageWithDefaults(includeHeader: bool) returns (r: string)
      ensures r == Summary(includeHeader, Title, text, ShortenKeys(options), Width(Keys(options)))
    {
      r := SummaryErrorMessage(includeHeader, true, false);
    }
  }
}
