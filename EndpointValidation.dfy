/**
 * `EndpointValidationResult`: the result of validating an endpoint uri. On top
 * of what every properties validation result holds (an error counter, the
 * success of the inherited checks and the option table), it keeps three
 * lazily created, insertion-ordered name sets: lenient options, options that
 * are not consumer-only and options that are not producer-only.
 */
module EndpointValidation {
  import opened JavaLang
  import opened ValidationSummary

  /** The title of the summary's header block. */
  const Title: string := "Endpoint validator error"

  /** No name occurs twice: what makes a sequence a `LinkedHashSet`. */
  predicate Distinct(names: seq<string>) {
    forall i, j :: 0 <= i < j < |names| ==> names[i] != names[j]
  }

  /**
   * The set after `add*(name)`: created on the first add, the name appended
   * at the end when it is new, and nothing changed when it is already there.
   */
  function AddOnce(names: Option<seq<string>>, name: string): (r: seq<string>)
    ensures forall n :: n in r <==> n == name || (names.Some? && n in names.value)
    ensures |r| == (if names.Some? then |names.value| else 0) + (if Fresh(names, name) then 1 else 0)
    ensures names.Some? ==> r[..|names.value|] == names.value
  {
    var current := if names.Some? then names.value else [];
    if name in current then current else current + [name]
  }

  /** Whether `name` is new to the set: the set is absent or lacks it. */
  predicate Fresh(names: Option<seq<string>>, name: string) {
    names.None? || name !in names.value
  }

  /** Adding keeps the set free of repeats. */
  lemma AddOnceDistinct(names: Option<seq<string>>, name: string)
    requires names.Some? ==> Distinct(names.value)
    ensures Distinct(AddOnce(names, name))
  {
  }

  /** Adding the same name again changes nothing and is not fresh. */
  lemma {:induction false} AddOnceIdempotent(names: Option<seq<string>>, name: string)
    ensures !Fresh(Some(AddOnce(names, name)), name)
    ensures AddOnce(Some(AddOnce(names, name)), name) == AddOnce(names, name)
  {
    assert name in AddOnce(names, name);
  }

  /** Names stay in the order they were first added. */
  lemma {:induction false} AddOnceKeepsOrder(names: Option<seq<string>>, name: string, i: nat, j: nat)
    requires names.Some? && i < j < |names.value|
    ensures var r := AddOnce(names, name); j < |r| && r[i] == names.value[i] && r[j] == names.value[j]
  {
    var r := AddOnce(names, name);
    assert r[..|names.value|] == names.value;
    assert r[..|names.value|][i] == r[i] && r[..|names.value|][j] == r[j];
  }

  class EndpointValidationResult {
    const uri: Option<string>
    /** The error counter inherited from the properties validation result. */
    var errors: int
    /** What the inherited `isSuccess()` reports. */
    var baseSuccess: bool
    /** The inherited option table, key and value, in insertion order. */
    var options: seq<(string, string)>
    var lenient: Option<seq<string>>
    var notConsumerOnly: Option<seq<string>>
    var notProducerOnly: Option<seq<string>>

    ghost predicate Valid()
      reads this
    {
      && (lenient.Some? ==> Distinct(lenient.value))
      && (notConsumerOnly.Some? ==> Distinct(notConsumerOnly.value))
      && (notProducerOnly.Some? ==> Distinct(notProducerOnly.value))
    }

    /**
     * `new EndpointValidationResult(uri)` (the no-argument constructor passes
     * null); `errors`, `baseSuccess` and `options` stand for the inherited state.
     */
    constructor(uri: Option<string>, errors: int, baseSuccess: bool, options: seq<(string, string)>)
      ensures Valid()
      ensures this.uri == uri && this.errors == errors && this.baseSuccess == baseSuccess && this.options == options
      ensures lenient.None? && notConsumerOnly.None? && notProducerOnly.None?
    {
      this.uri := uri;
      this.errors := errors;
      this.baseSuccess := baseSuccess;
      this.options := options;
      lenient, notConsumerOnly, notProducerOnly := None, None, None;
    }

    /** `isSuccess()`: the inherited verdict, and neither set was ever created. */
    predicate IsSuccess()
      reads this
    {
      baseSuccess && notConsumerOnly.None? && notProducerOnly.None?
    }

    /** `addLenient(name)`: records the name once; errors and success are untouched. */
    method AddLenient(name: string)
      requires Valid()
      modifies this`lenient
      ensures Valid()
      ensures lenient == Some(AddOnce(old(lenient), name))
      ensures IsSuccess() == old(IsSuccess())
    {
      if lenient.None? {
        lenient := Some([]);
      }
      if name !in lenient.value {
        lenient := Some(lenient.value + [name]);
      }
      AddOnceDistinct(old(lenient), name);
    }

    /** `addNotConsumerOnly(name)`: records the name once and counts one error when it is new. */
    method AddNotConsumerOnly(name: string)
      requires Valid()
      modifies this`notConsumerOnly, this`errors
      ensures Valid()
      ensures notConsumerOnly == Some(AddOnce(old(notConsumerOnly), name))
      ensures errors == old(errors) + if Fresh(old(notConsumerOnly), name) then 1 else 0
      ensures !IsSuccess()
    {
      if notConsumerOnly.None? {
        notConsumerOnly := Some([]);
      }
      if name !in notConsumerOnly.value {
        notConsumerOnly := Some(notConsumerOnly.value + [name]);
        errors := errors + 1;
      }
      AddOnceDistinct(old(notConsumerOnly), name);
    }

    /** `addNotProducerOnly(name)`: records the name once and counts one error when it is new. */
    method AddNotProducerOnly(name: string)
      requires Valid()
      modifies this`notProducerOnly, this`errors
      ensures Valid()
      ensures notProducerOnly == Some(AddOnce(old(notProducerOnly), name))
      ensures errors == old(errors) + if Fresh(old(notProducerOnly), name) then 1 else 0
      ensures !IsSuccess()
    {
      if notProducerOnly.None? {
        notProducerOnly := Some([]);
      }
      if name !in notProducerOnly.value {
        notProducerOnly := Some(notProducerOnly.value + [name]);
        errors := errors + 1;
      }
      AddOnceDistinct(old(notProducerOnly), name);
    }

    /**
     * `summaryErrorMessage(includeHeader, ignoreDeprecated, includeWarnings)`:
     * the header block when asked for, the uri line, then one line per option
     * in a key column as wide as the longest key and at least 24. The two
     * flags do not change the text, and the text is never null.
     */
    method SummaryErrorMessage(includeHeader: bool, ignoreDeprecated: bool, includeWarnings: bool)
      returns (r: string)
      ensures r == Summary(includeHeader, Title, uri, options, Width(Keys(options)))
    {
      var maxLen := ColumnWidth(Keys(options));
      var sb := if includeHeader then Header(Title) else "";
      sb := sb + SubjectLine(uri);
      r := AppendRows(sb, options, maxLen);
    }

    /** `summaryErrorMessage(includeHeader)`: the same as with `ignoreDeprecated` set and `includeWarnings` clear. */
    method SummaryErrorMessageWithDefaults(includeHeader: bool) returns (r: string)
      ensures r == Summary(includeHeader, Title, uri, options, Width(Keys(options)))
    {
      r := SummaryErrorMessage(includeHeader, true, false);
    }
  }
}
