/**
 * `ComponentVerifierExtension`: the enums of a verification result, the
 * `Scope.fromString` parser, and the detail lookup of a verification error
 * with its codes and attributes.
 */
module ComponentVerifierExtension {
  import opened JavaLang
  import opened JavaStrings

  /** `Result.Status`. */
  datatype Status = Ok | Error | Unsupported

  /** The statuses in declaration order, as `Status.values()` lists them. */
  const Statuses: seq<Status> := [Ok, Error, Unsupported]

  /** `Status.name()`. */
  function StatusName(st: Status): string {
    match st
    case Ok => "OK"
    case Error => "ERROR"
    case Unsupported => "UNSUPPORTED"
  }

  /** Every status is listed once, and the names tell the statuses apart. */
  lemma StatusesListed()
    ensures forall st :: st in Statuses
    ensures forall i, j :: 0 <= i < j < |Statuses| ==> Statuses[i] != Statuses[j]
    ensures forall st, st' :: StatusName(st) == StatusName(st') ==> st == st'
  {
    assert Statuses[0] == Ok && Statuses[1] == Error && Statuses[2] == Unsupported;
    forall st ensures st in Statuses {
      match st
      case Ok => assert Statuses[0] == st;
      case Error => assert Statuses[1] == st;
      case Unsupported => assert Statuses[2] == st;
    }
  }

  /** `Scope`. */
  datatype Scope = Parameters | Connectivity

  /** The scopes in declaration order. */
  const Scopes: seq<Scope> := [Parameters, Connectivity]

  /** `Scope.name()`. */
  function ScopeName(sc: Scope): string {
    match sc
    case Parameters => "PARAMETERS"
    case Connectivity => "CONNECTIVITY"
  }

  /**
   * `Scope.valueOf(name)`: the scope whose constant is spelled exactly
   * `name`; a null name is a NullPointerException and any other name an
   * IllegalArgumentException.
   */
  function ScopeValueOf(name: Option<string>): (r: Completion<Scope>)
    ensures forall sc :: r == Value(sc) <==> name == Some(ScopeName(sc))
    ensures name.None? ==> r == Throws(NullPointer)
    ensures name.Some? && !r.Value? ==> r == Throws(IllegalArgument)
  {
    match name
    case None => Throws(NullPointer)
    case Some(n) =>
      if n == "PARAMETERS" then Value(Parameters)
      else if n == "CONNECTIVITY" then Value(Connectivity)
      else Throws(IllegalArgument)
  }

  /** `Scope.fromString(scope)`: `valueOf` of the upper-cased text, or of null. */
  function FromString(scope: Option<string>): Completion<Scope> {
    ScopeValueOf(if scope.Some? then Some(ToUpper(scope.value)) else None)
  }

  /** Every scope is listed once, and the constant names are upper case. */
  lemma ScopesListed()
    ensures forall sc :: sc in Scopes
    ensures Scopes[0] != Scopes[1]
    ensures forall sc :: ToUpper(ScopeName(sc)) == ScopeName(sc)
  {
    assert Scopes[0] == Parameters && Scopes[1] == Connectivity;
    forall sc ensures sc in Scopes {
      if sc == Parameters { assert Scopes[0] == sc; } else { assert Scopes[1] == sc; }
    }
    assert ToUpper("PARAMETERS") == "PARAMETERS";
    assert ToUpper("CONNECTIVITY") == "CONNECTIVITY";
  }

  /** `fromString` accepts exactly the spellings of a scope's name in any letter case. */
  lemma {:induction false} FromStringIgnoresCase(s: string, sc: Scope)
    ensures FromString(Some(s)) == Value(sc) <==> EqualsIgnoreCase(s, ScopeName(sc))
  {
    ScopesListed();
    CaseFoldingIsEqualsIgnoreCase(s, ScopeName(sc));
  }

  /** Any other text is an IllegalArgumentException, and null a NullPointerException. */
  lemma {:induction false} FromStringRejects(s: string)
    ensures FromString(None) == Throws(NullPointer)
    ensures (forall sc :: !EqualsIgnoreCase(s, ScopeName(sc))) ==> FromString(Some(s)) == Throws(IllegalArgument)
  {
    FromStringIgnoresCase(s, Parameters);
    FromStringIgnoresCase(s, Connectivity);
  }

  /** A scope's name, and its lower-case spelling, parse back to the scope. */
  lemma {:induction false} FromStringRoundTrip(sc: Scope)
    ensures FromString(Some(ScopeName(sc))) == Value(sc)
    ensures FromString(Some(ToLower(ScopeName(sc)))) == Value(sc)
  {
    FromStringIgnoresCase(ScopeName(sc), sc);
    FromStringIgnoresCase(ToLower(ScopeName(sc)), sc);
    CaseFoldingIsEqualsIgnoreCase(ToLower(ScopeName(sc)), ScopeName(sc));
    ToLowerIdempotent(ScopeName(sc));
  }

  /** A verification error code: one made by `asCode` or a standard one. */
  datatype Code = ErrorCode(name: string) | StandardErrorCode(name: string)

  /** `Code.getName()`: the code's `name()`. */
  function CodeGetName(c: Code): string {
    c.name
  }

  /** `VerificationError.asCode(code)`. */
  function AsCode(code: string): (r: Code)
    ensures r.ErrorCode? && CodeGetName(r) == code
  {
    ErrorCode(code)
  }

  /** The `StandardCode` constants, each named after itself. */
  const StandardCodes: seq<Code> := [
    StandardErrorCode("AUTHENTICATION"),
    StandardErrorCode("EXCEPTION"),
    StandardErrorCode("INTERNAL"),
    StandardErrorCode("MISSING_PARAMETER"),
    StandardErrorCode("UNKNOWN_PARAMETER"),
    StandardErrorCode("ILLEGAL_PARAMETER"),
    StandardErrorCode("ILLEGAL_PARAMETER_GROUP_COMBINATION"),
    StandardErrorCode("ILLEGAL_PARAMETER_VALUE"),
    StandardErrorCode("INCOMPLETE_PARAMETER_GROUP"),
    StandardErrorCode("UNSUPPORTED"),
    StandardErrorCode("UNSUPPORTED_SCOPE"),
    StandardErrorCode("UNSUPPORTED_COMPONENT"),
    StandardErrorCode("GENERIC")
  ]

  /** The thirteen standard codes have thirteen different names. */
  lemma StandardCodeNamesDistinct()
    ensures |StandardCodes| == 13
    ensures forall i, j :: 0 <= i < j < |StandardCodes| ==> CodeGetName(StandardCodes[i]) != CodeGetName(StandardCodes[j])
  {
  }

  /** Which interface an attribute constant belongs to; `asAttribute` makes plain ones. */
  datatype AttributeFamily = Plain | ExceptionFamily | HttpFamily | GroupFamily

  /** A detail attribute. */
  datatype Attribute = Attribute(family: AttributeFamily, name: string)

  /** `Attribute.getName()`: the attribute's `name()`. */
  function AttributeGetName(a: Attribute): string {
    a.name
  }

  /** `VerificationError.asAttribute(attribute)`. */
  function AsAttribute(attribute: string): Attribute {
    Attribute(Plain, attribute)
  }

  /** `asAttribute` keeps the name, and is undone by `getName`; it rebuilds exactly the plain attributes. */
  lemma AsAttributeRoundTrip(s: string, a: Attribute)
    ensures AttributeGetName(AsAttribute(s)) == s
    ensures AsAttribute(AttributeGetName(a)) == a <==> a.family == Plain
  {
  }

  /** The attribute constants of `ExceptionAttribute`, `HttpAttribute` and `GroupAttribute`. */
  const StandardAttributes: seq<Attribute> := [
    Attribute(ExceptionFamily, "EXCEPTION_INSTANCE"),
    Attribute(ExceptionFamily, "EXCEPTION_CLASS"),
    Attribute(HttpFamily, "HTTP_CODE"),
    Attribute(HttpFamily, "HTTP_TEXT"),
    Attribute(HttpFamily, "HTTP_REDIRECT"),
    Attribute(GroupFamily, "GROUP_NAME"),
    Attribute(GroupFamily, "GROUP_OPTIONS")
  ]

  /** The seven attribute constants have seven different names. */
  lemma StandardAttributeNamesDistinct()
    ensures |StandardAttributes| == 7
    ensures forall i, j :: 0 <= i < j < |StandardAttributes| ==>
              AttributeGetName(StandardAttributes[i]) != AttributeGetName(StandardAttributes[j])
  {
  }

  /**
   * `getDetail(attribute)`: null when the error has no details map, else the
   * map's entry for the attribute, null when there is none. Attributes are
   * compared by name, so the map is keyed by attribute name.
   */
  function GetDetail<V>(details: Option<map<string, V>>, attribute: Attribute): (r: Option<V>)
    ensures details.None? ==> r.None?
    ensures details.Some? ==> (r.Some? <==> attribute.name in details.value)
    ensures r.Some? ==> details.Some? && attribute.name in details.value && r.value == details.value[attribute.name]
  {
    match details
    case None => None
    case Some(m) => if attribute.name in m then Some(m[attribute.name]) else None
  }

  /** `getDetail(String attribute)`: `getDetail(asAttribute(attribute))`. */
  function GetDetailByName<V>(details: Option<map<string, V>>, attribute: string): Option<V> {
    GetDetail(details, AsAttribute(attribute))
  }

  /** Looking a detail up by name finds what looking it up by any attribute of that name finds. */
  lemma {:induction false} GetDetailByNameAgrees<V>(details: Option<map<string, V>>, a: Attribute)
    ensures GetDetailByName(details, AttributeGetName(a)) == GetDetail(details, a)
    ensures GetDetailByName(details, AttributeGetName(a)).Some? <==> details.Some? && a.name in details.value
  {
    assert AsAttribute(a.name).name == a.name;
  }
}
