/**
 * `DataSetEndpointConfigurer.configure`: sets one option of a dataset
 * endpoint by name. The name is matched, lower-cased first when case is to be
 * ignored, against the camelCase and the all-lowercase spelling of every
 * option; a match converts the value to the option's type and calls the
 * option's setter, and the call reports whether the name was recognised.
 */
module DataSetEndpointConfigurer {
  import opened JavaLang
  import opened JavaStrings

  /** The options of a dataset endpoint, in the order the configurer lists them. */
  datatype Property =
    | DataSetIndex | BridgeErrorHandler | InitialDelay | MinRate | PreloadSize | ProduceDelay
    | ExceptionHandler | ExchangePattern | AssertPeriod | ConsumeDelay | ExpectedCount | FailFast
    | LazyStartProducer | ReportGroup | ResultMinimumWaitTime | ResultWaitTime | RetainFirst
    | RetainLast | SleepForEmptyTest | CopyOnExchange | BasicPropertyBinding | Synchronous

  const AllProperties: seq<Property> := [
    DataSetIndex, BridgeErrorHandler, InitialDelay, MinRate, PreloadSize, ProduceDelay,
    ExceptionHandler, ExchangePattern, AssertPeriod, ConsumeDelay, ExpectedCount, FailFast,
    LazyStartProducer, ReportGroup, ResultMinimumWaitTime, ResultWaitTime, RetainFirst,
    RetainLast, SleepForEmptyTest, CopyOnExchange, BasicPropertyBinding, Synchronous]

  /** The configurer knows 22 options, each listed once. */
  lemma AllPropertiesListed(p: Property)
    ensures p in AllProperties
    ensures |AllProperties| == 22
    ensures forall i, j :: 0 <= i < j < |AllProperties| ==> AllProperties[i] != AllProperties[j]
  {
  }

  /** The camelCase spelling of an option. */
  function CamelName(p: Property): string {
    match p
    case DataSetIndex => "dataSetIndex"
    case BridgeErrorHandler => "bridgeErrorHandler"
    case InitialDelay => "initialDelay"
    case MinRate => "minRate"
    case PreloadSize => "preloadSize"
    case ProduceDelay => "produceDelay"
    case ExceptionHandler => "exceptionHandler"
    case ExchangePattern => "exchangePattern"
    case AssertPeriod => "assertPeriod"
    case ConsumeDelay => "consumeDelay"
    case ExpectedCount => "expectedCount"
    case FailFast => "failFast"
    case LazyStartProducer => "lazyStartProducer"
    case ReportGroup => "reportGroup"
    case ResultMinimumWaitTime => "resultMinimumWaitTime"
    case ResultWaitTime => "resultWaitTime"
    case RetainFirst => "retainFirst"
    case RetainLast => "retainLast"
    case SleepForEmptyTest => "sleepForEmptyTest"
    case CopyOnExchange => "copyOnExchange"
    case BasicPropertyBinding => "basicPropertyBinding"
    case Synchronous => "synchronous"
  }

  /** The all-lowercase spelling of an option (the same text for `synchronous`). */
  function LowerName(p: Property): string {
    match p
    case DataSetIndex => "datasetindex"
    case BridgeErrorHandler => "bridgeerrorhandler"
    case InitialDelay => "initialdelay"
    case MinRate => "minrate"
    case PreloadSize => "preloadsize"
    case ProduceDelay => "producedelay"
    case ExceptionHandler => "exceptionhandler"
    case ExchangePattern => "exchangepattern"
    case AssertPeriod => "assertperiod"
    case ConsumeDelay => "consumedelay"
    case ExpectedCount => "expectedcount"
    case FailFast => "failfast"
    case LazyStartProducer => "lazystartproducer"
    case ReportGroup => "reportgroup"
    case ResultMinimumWaitTime => "resultminimumwaittime"
    case ResultWaitTime => "resultwaittime"
    case RetainFirst => "retainfirst"
    case RetainLast => "retainlast"
    case SleepForEmptyTest => "sleepforemptytest"
    case CopyOnExchange => "copyonexchange"
    case BasicPropertyBinding => "basicpropertybinding"
    case Synchronous => "synchronous"
  }

  /** The `switch` of `configure`: the option a (possibly lower-cased) name selects. */
  function PropertyFor(key: string): Option<Property> {
    match key
    case "datasetindex" => Some(DataSetIndex)
    case "dataSetIndex" => Some(DataSetIndex)
    case "bridgeerrorhandler" => Some(BridgeErrorHandler)
    case "bridgeErrorHandler" => Some(BridgeErrorHandler)
    case "initialdelay" => Some(InitialDelay)
    case "initialDelay" => Some(InitialDelay)
    case "minrate" => Some(MinRate)
    case "minRate" => Some(MinRate)
    case "preloadsize" => Some(PreloadSize)
    case "preloadSize" => Some(PreloadSize)
    case "producedelay" => Some(ProduceDelay)
    case "produceDelay" => Some(ProduceDelay)
    case "exceptionhandler" => Some(ExceptionHandler)
    case "exceptionHandler" => Some(ExceptionHandler)
    case "exchangepattern" => Some(ExchangePattern)
    case "exchangePattern" => Some(ExchangePattern)
    case "assertperiod" => Some(AssertPeriod)
    case "assertPeriod" => Some(AssertPeriod)
    case "consumedelay" => Some(ConsumeDelay)
    case "consumeDelay" => Some(ConsumeDelay)
    case "expectedcount" => Some(ExpectedCount)
    case "expectedCount" => Some(ExpectedCount)
    case "failfast" => Some(FailFast)
    case "failFast" => Some(FailFast)
    case "lazystartproducer" => Some(LazyStartProducer)
    case "lazyStartProducer" => Some(LazyStartProducer)
    case "reportgroup" => Some(ReportGroup)
    case "reportGroup" => Some(ReportGroup)
    case "resultminimumwaittime" => Some(ResultMinimumWaitTime)
    case "resultMinimumWaitTime" => Some(ResultMinimumWaitTime)
    case "resultwaittime" => Some(ResultWaitTime)
    case "resultWaitTime" => Some(ResultWaitTime)
    case "retainfirst" => Some(RetainFirst)
    case "retainFirst" => Some(RetainFirst)
    case "retainlast" => Some(RetainLast)
    case "retainLast" => Some(RetainLast)
    case "sleepforemptytest" => Some(SleepForEmptyTest)
    case "sleepForEmptyTest" => Some(SleepForEmptyTest)
    case "copyonexchange" => Some(CopyOnExchange)
    case "copyOnExchange" => Some(CopyOnExchange)
    case "basicpropertybinding" => Some(BasicPropertyBinding)
    case "basicPropertyBinding" => Some(BasicPropertyBinding)
    case "synchronous" => Some(Synchronous)
    case _ => None
  }

  /** Both spellings of each of DataSetIndex … ExchangePattern select it. */
  lemma SpellingsSelectDataSetIndexThroughExchangePattern()
    ensures PropertyFor(CamelName(DataSetIndex)) == Some(DataSetIndex) && PropertyFor(LowerName(DataSetIndex)) == Some(DataSetIndex)
    ensures PropertyFor(CamelName(BridgeErrorHandler)) == Some(BridgeErrorHandler) && PropertyFor(LowerName(BridgeErrorHandler)) == Some(BridgeErrorHandler)
    ensures PropertyFor(CamelName(InitialDelay)) == Some(InitialDelay) && PropertyFor(LowerName(InitialDelay)) == Some(InitialDelay)
    ensures PropertyFor(CamelName(MinRate)) == Some(MinRate) && PropertyFor(LowerName(MinRate)) == Some(MinRate)
    ensures PropertyFor(CamelName(PreloadSize)) == Some(PreloadSize) && PropertyFor(LowerName(PreloadSize)) == Some(PreloadSize)
    ensures PropertyFor(CamelName(ProduceDelay)) == Some(ProduceDelay) && PropertyFor(LowerName(ProduceDelay)) == Some(ProduceDelay)
    ensures PropertyFor(CamelName(ExceptionHandler)) == Some(ExceptionHandler) && PropertyFor(LowerName(ExceptionHandler)) == Some(ExceptionHandler)
    ensures PropertyFor(CamelName(ExchangePattern)) == Some(ExchangePattern) && PropertyFor(LowerName(ExchangePattern)) == Some(ExchangePattern)
  {
  }

  /** Both spellings of each of AssertPeriod … ResultMinimumWaitTime select it. */
  lemma SpellingsSelectAssertPeriodThroughResultMinimumWaitTime()
    ensures PropertyFor(CamelName(AssertPeriod)) == Some(AssertPeriod) && PropertyFor(LowerName(AssertPeriod)) == Some(AssertPeriod)
    ensures PropertyFor(CamelName(ConsumeDelay)) == Some(ConsumeDelay) && PropertyFor(LowerName(ConsumeDelay)) == Some(ConsumeDelay)
    ensures PropertyFor(CamelName(ExpectedCount)) == Some(ExpectedCount) && PropertyFor(LowerName(ExpectedCount)) == Some(ExpectedCount)
    ensures PropertyFor(CamelName(FailFast)) == Some(FailFast) && PropertyFor(LowerName(FailFast)) == Some(FailFast)
    ensures PropertyFor(CamelName(LazyStartProducer)) == Some(LazyStartProducer) && PropertyFor(LowerName(LazyStartProducer)) == Some(LazyStartProducer)
    ensures PropertyFor(CamelName(ReportGroup)) == Some(ReportGroup) && PropertyFor(LowerName(ReportGroup)) == Some(ReportGroup)
    ensures PropertyFor(CamelName(ResultMinimumWaitTime)) == Some(ResultMinimumWaitTime) && PropertyFor(LowerName(ResultMinimumWaitTime)) == Some(ResultMinimumWaitTime)
  {
  }

  /** Both spellings of each of ResultWaitTime … Synchronous select it. */
  lemma SpellingsSelectResultWaitTimeThroughSynchronous()
    ensures PropertyFor(CamelName(ResultWaitTime)) == Some(ResultWaitTime) && PropertyFor(LowerName(ResultWaitTime)) == Some(ResultWaitTime)
    ensures PropertyFor(CamelName(RetainFirst)) == Some(RetainFirst) && PropertyFor(LowerName(RetainFirst)) == Some(RetainFirst)
    ensures PropertyFor(CamelName(RetainLast)) == Some(RetainLast) && PropertyFor(LowerName(RetainLast)) == Some(RetainLast)
    ensures PropertyFor(CamelName(SleepForEmptyTest)) == Some(SleepForEmptyTest) && PropertyFor(LowerName(SleepForEmptyTest)) == Some(SleepForEmptyTest)
    ensures PropertyFor(CamelName(CopyOnExchange)) == Some(CopyOnExchange) && PropertyFor(LowerName(CopyOnExchange)) == Some(CopyOnExchange)
    ensures PropertyFor(CamelName(BasicPropertyBinding)) == Some(BasicPropertyBinding) && PropertyFor(LowerName(BasicPropertyBinding)) == Some(BasicPropertyBinding)
    ensures PropertyFor(CamelName(Synchronous)) == Some(Synchronous) && PropertyFor(LowerName(Synchronous)) == Some(Synchronous)
  {
  }

  /** Both spellings of an option select it. */
  lemma NamesSelectTheirProperty(p: Property)
    ensures PropertyFor(CamelName(p)) == Some(p)
    ensures PropertyFor(LowerName(p)) == Some(p)
  {
    SpellingsSelectDataSetIndexThroughExchangePattern();
    SpellingsSelectAssertPeriodThroughResultMinimumWaitTime();
    SpellingsSelectResultWaitTimeThroughSynchronous();
  }

  /** A name selects an option only if it is one of that option's two spellings. */
  lemma OnlyListedNamesSelect(key: string)
    ensures PropertyFor(key).Some? ==> key == CamelName(PropertyFor(key).value) || key == LowerName(PropertyFor(key).value)
  {
    match key
    case "datasetindex" =>
    case "dataSetIndex" =>
    case "bridgeerrorhandler" =>
    case "bridgeErrorHandler" =>
    case "initialdelay" =>
    case "initialDelay" =>
    case "minrate" =>
    case "minRate" =>
    case "preloadsize" =>
    case "preloadSize" =>
    case "producedelay" =>
    case "produceDelay" =>
    case "exceptionhandler" =>
    case "exceptionHandler" =>
    case "exchangepattern" =>
    case "exchangePattern" =>
    case "assertperiod" =>
    case "assertPeriod" =>
    case "consumedelay" =>
    case "consumeDelay" =>
    case "expectedcount" =>
    case "expectedCount" =>
    case "failfast" =>
    case "failFast" =>
    case "lazystartproducer" =>
    case "lazyStartProducer" =>
    case "reportgroup" =>
    case "reportGroup" =>
    case "resultminimumwaittime" =>
    case "resultMinimumWaitTime" =>
    case "resultwaittime" =>
    case "resultWaitTime" =>
    case "retainfirst" =>
    case "retainFirst" =>
    case "retainlast" =>
    case "retainLast" =>
    case "sleepforemptytest" =>
    case "sleepForEmptyTest" =>
    case "copyonexchange" =>
    case "copyOnExchange" =>
    case "basicpropertybinding" =>
    case "basicPropertyBinding" =>
    case "synchronous" =>
    case _ =>
  }

  /** The lower-case spelling of each of DataSetIndex, BridgeErrorHandler, InitialDelay is its camelCase spelling lower-cased. */
  lemma LowerSpellingsDataSetIndexThroughInitialDelay()
    ensures LowerName(DataSetIndex) == ToLower(CamelName(DataSetIndex))
    ensures LowerName(BridgeErrorHandler) == ToLower(CamelName(BridgeErrorHandler))
    ensures LowerName(InitialDelay) == ToLower(CamelName(InitialDelay))
  {
  }

  /** The lower-case spelling of each of MinRate, PreloadSize, ProduceDelay is its camelCase spelling lower-cased. */
  lemma LowerSpellingsMinRateThroughProduceDelay()
    ensures LowerName(MinRate) == ToLower(CamelName(MinRate))
    ensures LowerName(PreloadSize) == ToLower(CamelName(PreloadSize))
    ensures LowerName(ProduceDelay) == ToLower(CamelName(ProduceDelay))
  {
  }

  /** The lower-case spelling of each of ExceptionHandler, ExchangePattern, AssertPeriod is its camelCase spelling lower-cased. */
  lemma LowerSpellingsExceptionHandlerThroughAssertPeriod()
    ensures LowerName(ExceptionHandler) == ToLower(CamelName(ExceptionHandler))
    ensures LowerName(ExchangePattern) == ToLower(CamelName(ExchangePattern))
    ensures LowerName(AssertPeriod) == ToLower(CamelName(AssertPeriod))
  {
  }

  /** The lower-case spelling of each of ConsumeDelay, ExpectedCount, FailFast is its camelCase spelling lower-cased. */
  lemma LowerSpellingsConsumeDelayThroughFailFast()
    ensures LowerName(ConsumeDelay) == ToLower(CamelName(ConsumeDelay))
    ensures LowerName(ExpectedCount) == ToLower(CamelName(ExpectedCount))
    ensures LowerName(FailFast) == ToLower(CamelName(FailFast))
  {
  }

  /** The lower-case spelling of each of LazyStartProducer, ReportGroup, ResultMinimumWaitTime is its camelCase spelling lower-cased. */
  lemma LowerSpellingsLazyStartProducerThroughResultMinimumWaitTime()
    ensures LowerName(LazyStartProducer) == ToLower(CamelName(LazyStartProducer))
    ensures LowerName(ReportGroup) == ToLower(CamelName(ReportGroup))
    ensures LowerName(ResultMinimumWaitTime) == ToLower(CamelName(ResultMinimumWaitTime))
  {
  }

  /** The lower-case spelling of each of ResultWaitTime, RetainFirst, RetainLast is its camelCase spelling lower-cased. */
  lemma LowerSpellingsResultWaitTimeThroughRetainLast()
    ensures LowerName(ResultWaitTime) == ToLower(CamelName(ResultWaitTime))
    ensures LowerName(RetainFirst) == ToLower(CamelName(RetainFirst))
    ensures LowerName(RetainLast) == ToLower(CamelName(RetainLast))
  {
  }

  /** The lower-case spelling of each of SleepForEmptyTest, CopyOnExchange, BasicPropertyBinding is its camelCase spelling lower-cased. */
  lemma LowerSpellingsSleepForEmptyTestThroughBasicPropertyBinding()
    ensures LowerName(SleepForEmptyTest) == ToLower(CamelName(SleepForEmptyTest))
    ensures LowerName(CopyOnExchange) == ToLower(CamelName(CopyOnExchange))
    ensures LowerName(BasicPropertyBinding) == ToLower(CamelName(BasicPropertyBinding))
  {
  }

  /** The lower-case spelling of each of Synchronous is its camelCase spelling lower-cased. */
  lemma LowerSpellingsSynchronous()
    ensures LowerName(Synchronous) == ToLower(CamelName(Synchronous))
  {
  }

  /** The all-lowercase spelling is the camelCase spelling lower-cased. */
  lemma LowerNameIsLowerCase(p: Property)
    ensures LowerName(p) == ToLower(CamelName(p))
  {
    LowerSpellingsDataSetIndexThroughInitialDelay();
    LowerSpellingsMinRateThroughProduceDelay();
    LowerSpellingsExceptionHandlerThroughAssertPeriod();
    LowerSpellingsConsumeDelayThroughFailFast();
    LowerSpellingsLazyStartProducerThroughResultMinimumWaitTime();
    LowerSpellingsResultWaitTimeThroughRetainLast();
    LowerSpellingsSleepForEmptyTestThroughBasicPropertyBinding();
    LowerSpellingsSynchronous();
  }

  /** Without `ignoreCase`: exactly the camelCase and the all-lowercase spelling select an option. */
  lemma {:induction false} ExactSpellingsRecognised(name: string, p: Property)
    ensures PropertyFor(name) == Some(p) <==> name == CamelName(p) || name == LowerName(p)
  {
    NamesSelectTheirProperty(p);
    OnlyListedNamesSelect(name);
  }

  /** With `ignoreCase`: a name selects an option exactly when it is the camelCase spelling in any casing. */
  lemma {:induction false} AnyCasingRecognised(name: string, p: Property)
    ensures PropertyFor(ToLower(name)) == Some(p) <==> EqualsIgnoreCase(name, CamelName(p))
  {
    LowerNameIsLowerCase(p);
    CaseFoldingIsEqualsIgnoreCase(name, CamelName(p));
    NamesSelectTheirProperty(p);
    if PropertyFor(ToLower(name)) == Some(p) {
      OnlyListedNamesSelect(ToLower(name));
      ToLowerIdempotent(name);
    }
  }

  /** Without `ignoreCase`, a name in other casing selects nothing. */
  lemma ExactSpellingExamples()
    ensures PropertyFor("DataSetIndex") == None
    ensures PropertyFor("SYNCHRONOUS") == None
  {
  }

  /** With `ignoreCase`, the same names select their options. */
  lemma IgnoredCaseExamples()
    ensures PropertyFor(ToLower("MINRATE")) == Some(MinRate)
    ensures PropertyFor(ToLower("DataSetIndex")) == Some(DataSetIndex)
    ensures PropertyFor(ToLower("SYNCHRONOUS")) == Some(Synchronous)
  {
    UpperCaseMinRate();
    CapitalisedDataSetIndex();
    UpperCaseSynchronous();
  }

  /** `MINRATE` lower-cased is the `minrate` label. */
  lemma UpperCaseMinRate()
    ensures PropertyFor(ToLower("MINRATE")) == Some(MinRate)
  {
    assert ToLower("MINRATE") == "minrate";
  }

  /** `DataSetIndex` lower-cased is the `datasetindex` label. */
  lemma CapitalisedDataSetIndex()
    ensures PropertyFor(ToLower("DataSetIndex")) == Some(DataSetIndex)
  {
    assert ToLower("DataSetIndex") == "datasetindex";
  }

  /** `SYNCHRONOUS` lower-cased is the `synchronous` label. */
  lemma UpperCaseSynchronous()
    ensures PropertyFor(ToLower("SYNCHRONOUS")) == Some(Synchronous)
  {
    assert ToLower("SYNCHRONOUS") == "synchronous";
  }

  // ---------------------------------------------------------------------------
  // Values and the endpoint's settings
  // ---------------------------------------------------------------------------

  /** `org.apache.camel.ExchangePattern`. */
  datatype MessageExchangePattern = InOnly | InOut | InOptionalOut

  /** An `org.apache.camel.spi.ExceptionHandler` instance, known by its identity. */
  datatype ExceptionHandlerRef = ExceptionHandlerRef(id: nat)

  /** A value handed to `configure`, already of one Java type, or null. */
  datatype PropertyValue =
    | NullValue
    | Text(text: string)
    | Flag(flag: bool)
    | Long(long: Int64)
    | Int(integer: Int32)
    | Handler(handler: ExceptionHandlerRef)
    | Pattern(pattern: MessageExchangePattern)

  /** The Java type of an option's setter parameter. */
  datatype Kind = TextKind | FlagKind | LongKind | IntKind | HandlerKind | PatternKind
  {
    /** `boolean`, `long` and `int` are primitive: a null cannot be stored in them. */
    predicate Primitive() {
      this == FlagKind || this == LongKind || this == IntKind
    }
  }

  function KindOf(p: Property): Kind {
    match p
    case DataSetIndex => TextKind
    case BridgeErrorHandler => FlagKind
    case InitialDelay => LongKind
    case MinRate => IntKind
    case PreloadSize => LongKind
    case ProduceDelay => LongKind
    case ExceptionHandler => HandlerKind
    case ExchangePattern => PatternKind
    case AssertPeriod => LongKind
    case ConsumeDelay => LongKind
    case ExpectedCount => IntKind
    case FailFast => FlagKind
    case LazyStartProducer => FlagKind
    case ReportGroup => IntKind
    case ResultMinimumWaitTime => LongKind
    case ResultWaitTime => LongKind
    case RetainFirst => IntKind
    case RetainLast => IntKind
    case SleepForEmptyTest => LongKind
    case CopyOnExchange => FlagKind
    case BasicPropertyBinding => FlagKind
    case Synchronous => FlagKind
  }

  /** A value an option of this kind can hold. */
  predicate Fits(kind: Kind, v: PropertyValue) {
    match v
    case NullValue => !kind.Primitive()
    case Text(_) => kind == TextKind
    case Flag(_) => kind == FlagKind
    case Long(_) => kind == LongKind
    case Int(_) => kind == IntKind
    case Handler(_) => kind == HandlerKind
    case Pattern(_) => kind == PatternKind
  }

  /**
   * `property(camelContext, type, value)` followed by the setter's parameter
   * passing: a value of the option's type passes unchanged; a null passes to
   * an object-typed option and fails with a NullPointerException when it is
   * unboxed for a primitive one; a value of another type fails as the type
   * converter does.
   */
  function Coerce(kind: Kind, v: PropertyValue): (r: Completion<PropertyValue>)
    ensures r.Value? <==> Fits(kind, v)
    ensures r.Value? ==> r.value == v
    ensures r.Throws? && v.NullValue? ==> r.exception == NullPointer
    ensures r.Throws? && !v.NullValue? ==> r.exception == NoTypeConversionAvailable
    ensures !r.Null?
  {
    if Fits(kind, v) then Value(v)
    else if v.NullValue? then Throws(NullPointer)
    else Throws(NoTypeConversionAvailable)
  }

  /** The options of a dataset endpoint, as a value. */
  datatype Settings = Settings(
    dataSetIndex: Option<string>,
    bridgeErrorHandler: bool,
    initialDelay: Int64,
    minRate: Int32,
    preloadSize: Int64,
    produceDelay: Int64,
    exceptionHandler: Option<ExceptionHandlerRef>,
    exchangePattern: Option<MessageExchangePattern>,
    assertPeriod: Int64,
    consumeDelay: Int64,
    expectedCount: Int32,
    failFast: bool,
    lazyStartProducer: bool,
    reportGroup: Int32,
    resultMinimumWaitTime: Int64,
    resultWaitTime: Int64,
    retainFirst: Int32,
    retainLast: Int32,
    sleepForEmptyTest: Int64,
    copyOnExchange: bool,
    basicPropertyBinding: bool,
    synchronous: bool)

  /** The value an option holds. */
  function Get(s: Settings, p: Property): (v: PropertyValue)
    ensures Fits(KindOf(p), v)
  {
    match p
    case DataSetIndex => if s.dataSetIndex.Some? then Text(s.dataSetIndex.value) else NullValue
    case BridgeErrorHandler => Flag(s.bridgeErrorHandler)
    case InitialDelay => Long(s.initialDelay)
    case MinRate => Int(s.minRate)
    case PreloadSize => Long(s.preloadSize)
    case ProduceDelay => Long(s.produceDelay)
    case ExceptionHandler => if s.exceptionHandler.Some? then Handler(s.exceptionHandler.value) else NullValue
    case ExchangePattern => if s.exchangePattern.Some? then Pattern(s.exchangePattern.value) else NullValue
    case AssertPeriod => Long(s.assertPeriod)
    case ConsumeDelay => Long(s.consumeDelay)
    case ExpectedCount => Int(s.expectedCount)
    case FailFast => Flag(s.failFast)
    case LazyStartProducer => Flag(s.lazyStartProducer)
    case ReportGroup => Int(s.reportGroup)
    case ResultMinimumWaitTime => Long(s.resultMinimumWaitTime)
    case ResultWaitTime => Long(s.resultWaitTime)
    case RetainFirst => Int(s.retainFirst)
    case RetainLast => Int(s.retainLast)
    case SleepForEmptyTest => Long(s.sleepForEmptyTest)
    case CopyOnExchange => Flag(s.copyOnExchange)
    case BasicPropertyBinding => Flag(s.basicPropertyBinding)
    case Synchronous => Flag(s.synchronous)
  }

  /** The settings with one option replaced. */
  function With(s: Settings, p: Property, v: PropertyValue): (r: Settings)
    requires Fits(KindOf(p), v)
  {
    match p
    case DataSetIndex => s.(dataSetIndex := if v.NullValue? then None else Some(v.text))
    case BridgeErrorHandler => s.(bridgeErrorHandler := v.flag)
    case InitialDelay => s.(initialDelay := v.long)
    case MinRate => s.(minRate := v.integer)
    case PreloadSize => s.(preloadSize := v.long)
    case ProduceDelay => s.(produceDelay := v.long)
    case ExceptionHandler => s.(exceptionHandler := if v.NullValue? then None else Some(v.handler))
    case ExchangePattern => s.(exchangePattern := if v.NullValue? then None else Some(v.pattern))
    case AssertPeriod => s.(assertPeriod := v.long)
    case ConsumeDelay => s.(consumeDelay := v.long)
    case ExpectedCount => s.(expectedCount := v.integer)
    case FailFast => s.(failFast := v.flag)
    case LazyStartProducer => s.(lazyStartProducer := v.flag)
    case ReportGroup => s.(reportGroup := v.integer)
    case ResultMinimumWaitTime => s.(resultMinimumWaitTime := v.long)
    case ResultWaitTime => s.(resultWaitTime := v.long)
    case RetainFirst => s.(retainFirst := v.integer)
    case RetainLast => s.(retainLast := v.integer)
    case SleepForEmptyTest => s.(sleepForEmptyTest := v.long)
    case CopyOnExchange => s.(copyOnExchange := v.flag)
    case BasicPropertyBinding => s.(basicPropertyBinding := v.flag)
    case Synchronous => s.(synchronous := v.flag)
  }

  /** Replacing an option sets that option to the new value. */
  lemma WithSets(s: Settings, p: Property, v: PropertyValue)
    requires Fits(KindOf(p), v)
    ensures Get(With(s, p, v), p) == v
  {
  }

  /** Replacing one of DataSetIndex, BridgeErrorHandler, InitialDelay, MinRate leaves every other option as it was. */
  lemma WithLeavesOthersDataSetIndexThroughMinRate(s: Settings, p: Property, v: PropertyValue, q: Property)
    requires Fits(KindOf(p), v) && q != p
    requires p == DataSetIndex || p == BridgeErrorHandler || p == InitialDelay || p == MinRate
    ensures Get(With(s, p, v), q) == Get(s, q)
  {
    match q
    case DataSetIndex =>
    case BridgeErrorHandler =>
    case InitialDelay =>
    case MinRate =>
    case PreloadSize =>
    case ProduceDelay =>
    case ExceptionHandler =>
    case ExchangePattern =>
    case AssertPeriod =>
    case ConsumeDelay =>
    case ExpectedCount =>
    case FailFast =>
    case LazyStartProducer =>
    case ReportGroup =>
    case ResultMinimumWaitTime =>
    case ResultWaitTime =>
    case RetainFirst =>
    case RetainLast =>
    case SleepForEmptyTest =>
    case CopyOnExchange =>
    case BasicPropertyBinding =>
    case Synchronous =>
  }

  /** Replacing one of PreloadSize, ProduceDelay, ExceptionHandler, ExchangePattern leaves every other option as it was. */
  lemma WithLeavesOthersPreloadSizeThroughExchangePattern(s: Settings, p: Property, v: PropertyValue, q: Property)
    requires Fits(KindOf(p), v) && q != p
    requires p == PreloadSize || p == ProduceDelay || p == ExceptionHandler || p == ExchangePattern
    ensures Get(With(s, p, v), q) == Get(s, q)
  {
    match q
    case DataSetIndex =>
    case BridgeErrorHandler =>
    case InitialDelay =>
    case MinRate =>
    case PreloadSize =>
    case ProduceDelay =>
    case ExceptionHandler =>
    case ExchangePattern =>
    case AssertPeriod =>
    case ConsumeDelay =>
    case ExpectedCount =>
    case FailFast =>
    case LazyStartProducer =>
    case ReportGroup =>
    case ResultMinimumWaitTime =>
    case ResultWaitTime =>
    case RetainFirst =>
    case RetainLast =>
    case SleepForEmptyTest =>
    case CopyOnExchange =>
    case BasicPropertyBinding =>
    case Synchronous =>
  }

  /** Replacing one of AssertPeriod, ConsumeDelay, ExpectedCount, FailFast leaves every other option as it was. */
  lemma WithLeavesOthersAssertPeriodThroughFailFast(s: Settings, p: Property, v: PropertyValue, q: Property)
    requires Fits(KindOf(p), v) && q != p
    requires p == AssertPeriod || p == ConsumeDelay || p == ExpectedCount || p == FailFast
    ensures Get(With(s, p, v), q) == Get(s, q)
  {
    match q
    case DataSetIndex =>
    case BridgeErrorHandler =>
    case InitialDelay =>
    case MinRate =>
    case PreloadSize =>
    case ProduceDelay =>
    case ExceptionHandler =>
    case ExchangePattern =>
    case AssertPeriod =>
    case ConsumeDelay =>
    case ExpectedCount =>
    case FailFast =>
    case LazyStartProducer =>
    case ReportGroup =>
    case ResultMinimumWaitTime =>
    case ResultWaitTime =>
    case RetainFirst =>
    case RetainLast =>
    case SleepForEmptyTest =>
    case CopyOnExchange =>
    case BasicPropertyBinding =>
    case Synchronous =>
  }

  /** Replacing one of LazyStartProducer, ReportGroup, ResultMinimumWaitTime, ResultWaitTime leaves every other option as it was. */
  lemma WithLeavesOthersLazyStartProducerThroughResultWaitTime(s: Settings, p: Property, v: PropertyValue, q: Property)
    requires Fits(KindOf(p), v) && q != p
    requires p == LazyStartProducer || p == ReportGroup || p == ResultMinimumWaitTime || p == ResultWaitTime
    ensures Get(With(s, p, v), q) == Get(s, q)
  {
    match q
    case DataSetIndex =>
    case BridgeErrorHandler =>
    case InitialDelay =>
    case MinRate =>
    case PreloadSize =>
    case ProduceDelay =>
    case ExceptionHandler =>
    case ExchangePattern =>
    case AssertPeriod =>
    case ConsumeDelay =>
    case ExpectedCount =>
    case FailFast =>
    case LazyStartProducer =>
    case ReportGroup =>
    case ResultMinimumWaitTime =>
    case ResultWaitTime =>
    case RetainFirst =>
    case RetainLast =>
    case SleepForEmptyTest =>
    case CopyOnExchange =>
    case BasicPropertyBinding =>
    case Synchronous =>
  }

  /** Replacing one of RetainFirst, RetainLast, SleepForEmptyTest leaves every other option as it was. */
  lemma WithLeavesOthersRetainFirstThroughSleepForEmptyTest(s: Settings, p: Property, v: PropertyValue, q: Property)
    requires Fits(KindOf(p), v) && q != p
    requires p == RetainFirst || p == RetainLast || p == SleepForEmptyTest
    ensures Get(With(s, p, v), q) == Get(s, q)
  {
    match q
    case DataSetIndex =>
    case BridgeErrorHandler =>
    case InitialDelay =>
    case MinRate =>
    case PreloadSize =>
    case ProduceDelay =>
    case ExceptionHandler =>
    case ExchangePattern =>
    case AssertPeriod =>
    case ConsumeDelay =>
    case ExpectedCount =>
    case FailFast =>
    case LazyStartProducer =>
    case ReportGroup =>
    case ResultMinimumWaitTime =>
    case ResultWaitTime =>
    case RetainFirst =>
    case RetainLast =>
    case SleepForEmptyTest =>
    case CopyOnExchange =>
    case BasicPropertyBinding =>
    case Synchronous =>
  }

  /** Replacing one of CopyOnExchange, BasicPropertyBinding, Synchronous leaves every other option as it was. */
  lemma WithLeavesOthersCopyOnExchangeThroughSynchronous(s: Settings, p: Property, v: PropertyValue, q: Property)
    requires Fits(KindOf(p), v) && q != p
    requires p == CopyOnExchange || p == BasicPropertyBinding || p == Synchronous
    ensures Get(With(s, p, v), q) == Get(s, q)
  {
    match q
    case DataSetIndex =>
    case BridgeErrorHandler =>
    case InitialDelay =>
    case MinRate =>
    case PreloadSize =>
    case ProduceDelay =>
    case ExceptionHandler =>
    case ExchangePattern =>
    case AssertPeriod =>
    case ConsumeDelay =>
    case ExpectedCount =>
    case FailFast =>
    case LazyStartProducer =>
    case ReportGroup =>
    case ResultMinimumWaitTime =>
    case ResultWaitTime =>
    case RetainFirst =>
    case RetainLast =>
    case SleepForEmptyTest =>
    case CopyOnExchange =>
    case BasicPropertyBinding =>
    case Synchronous =>
  }

  /** Replacing an option changes that option to the new value and no other option. */
  lemma {:induction false} GetWith(s: Settings, p: Property, v: PropertyValue, q: Property)
    requires Fits(KindOf(p), v)
    ensures Get(With(s, p, v), q) == if q == p then v else Get(s, q)
  {
    if q == p {
      WithSets(s, p, v);
    } else if p == DataSetIndex || p == BridgeErrorHandler || p == InitialDelay || p == MinRate {
      WithLeavesOthersDataSetIndexThroughMinRate(s, p, v, q);
    } else if p == PreloadSize || p == ProduceDelay || p == ExceptionHandler || p == ExchangePattern {
      WithLeavesOthersPreloadSizeThroughExchangePattern(s, p, v, q);
    } else if p == AssertPeriod || p == ConsumeDelay || p == ExpectedCount || p == FailFast {
      WithLeavesOthersAssertPeriodThroughFailFast(s, p, v, q);
    } else if p == LazyStartProducer || p == ReportGroup || p == ResultMinimumWaitTime || p == ResultWaitTime {
      WithLeavesOthersLazyStartProducerThroughResultWaitTime(s, p, v, q);
    } else if p == RetainFirst || p == RetainLast || p == SleepForEmptyTest {
      WithLeavesOthersRetainFirstThroughSleepForEmptyTest(s, p, v, q);
    } else {
      WithLeavesOthersCopyOnExchangeThroughSynchronous(s, p, v, q);
    }
  }

  // ---------------------------------------------------------------------------
  // configure
  // ---------------------------------------------------------------------------

  /** The text the `switch` tests: the name, lower-cased when case is ignored. */
  function Key(name: string, ignoreCase: bool): string {
    if ignoreCase then ToLower(name) else name
  }

  /** Whether `name` spells option `p` in the given mode. */
  predicate Spells(name: string, p: Property, ignoreCase: bool) {
    if ignoreCase then EqualsIgnoreCase(name, CamelName(p)) else name == CamelName(p) || name == LowerName(p)
  }

  /** The switch selects exactly the option the name spells, in either mode. */
  lemma {:induction false} SwitchSelectsSpelledOption(name: string, p: Property, ignoreCase: bool)
    ensures PropertyFor(Key(name, ignoreCase)) == Some(p) <==> Spells(name, p, ignoreCase)
  {
    if ignoreCase {
      AnyCasingRecognised(name, p);
    } else {
      ExactSpellingsRecognised(name, p);
    }
  }

  /** What `configure` returns, with the endpoint's settings afterwards. */
  datatype Outcome = Outcome(result: Completion<bool>, settings: Settings)

  /**
   * `configure(camelContext, target, name, value, ignoreCase)`: true after
   * setting the option the name selects; false, changing nothing, when the
   * name selects no option; an exception, changing nothing, for a null name or
   * a value the option cannot take.
   */
  function ConfigureOutcome(s: Settings, name: Option<string>, value: PropertyValue, ignoreCase: bool): (r: Outcome)
    ensures r.result == Value(false) <==> name.Some? && PropertyFor(Key(name.value, ignoreCase)).None?
    ensures r.result == Value(true) <==>
              name.Some? && PropertyFor(Key(name.value, ignoreCase)).Some?
              && Fits(KindOf(PropertyFor(Key(name.value, ignoreCase)).value), value)
    ensures name.None? ==> r.result == Throws(NullPointer)
    ensures !r.result.Null?
    ensures r.result != Value(true) ==> r.settings == s
    ensures r.result == Value(true) ==>
              forall q :: Get(r.settings, q) == if Some(q) == PropertyFor(Key(name.value, ignoreCase)) then value else Get(s, q)
  {
    match name
    case None => Outcome(Throws(NullPointer), s)
    case Some(n) =>
      match PropertyFor(Key(n, ignoreCase))
      case None => Outcome(Value(false), s)
      case Some(p) =>
        var c := Coerce(KindOf(p), value);
        if c.Value? then
          var r := Outcome(Value(true), With(s, p, c.value));
          assert forall q :: Get(r.settings, q) == if q == p then value else Get(s, q) by {
            forall q ensures Get(r.settings, q) == if q == p then value else Get(s, q) {
              GetWith(s, p, c.value, q);
            }
          }
          r
        else Outcome(Throws(c.exception), s)
  }

  /**
   * A name that spells an option, with a value that option can take, sets
   * that option to the value, leaves every other option as it was, and
   * makes `configure` return true.
   */
  lemma {:induction false} ConfigureSetsSpelledOption(s: Settings, name: string, value: PropertyValue, ignoreCase: bool, p: Property)
    requires Spells(name, p, ignoreCase) && Fits(KindOf(p), value)
    ensures var r := ConfigureOutcome(s, Some(name), value, ignoreCase);
            && r.result == Value(true)
            && Get(r.settings, p) == value
            && forall q :: q != p ==> Get(r.settings, q) == Get(s, q)
  {
    SwitchSelectsSpelledOption(name, p, ignoreCase);
  }

  /** A dataset endpoint, with the fields the configurer sets. */
  class DataSetEndpoint {
    var dataSetIndex: Option<string>
    var bridgeErrorHandler: bool
    var initialDelay: Int64
    var minRate: Int32
    var preloadSize: Int64
    var produceDelay: Int64
    var exceptionHandler: Option<ExceptionHandlerRef>
    var exchangePattern: Option<MessageExchangePattern>
    var assertPeriod: Int64
    var consumeDelay: Int64
    var expectedCount: Int32
    var failFast: bool
    var lazyStartProducer: bool
    var reportGroup: Int32
    var resultMinimumWaitTime: Int64
    var resultWaitTime: Int64
    var retainFirst: Int32
    var retainLast: Int32
    var sleepForEmptyTest: Int64
    var copyOnExchange: bool
    var basicPropertyBinding: bool
    var synchronous: bool

    /** The endpoint's options, as a value. */
    function State(): Settings
      reads this
    {
      Settings(dataSetIndex, bridgeErrorHandler, initialDelay, minRate, preloadSize, produceDelay, exceptionHandler, exchangePattern, assertPeriod, consumeDelay, expectedCount, failFast, lazyStartProducer, reportGroup, resultMinimumWaitTime, resultWaitTime, retainFirst, retainLast, sleepForEmptyTest, copyOnExchange, basicPropertyBinding, synchronous)
    }

    method SetDataSetIndex(dataSetIndex: Option<string>)
      modifies this`dataSetIndex
      ensures State() == old(State()).(dataSetIndex := dataSetIndex)
    {
      this.dataSetIndex := dataSetIndex;
    }

    method SetBridgeErrorHandler(bridgeErrorHandler: bool)
      modifies this`bridgeErrorHandler
      ensures State() == old(State()).(bridgeErrorHandler := bridgeErrorHandler)
    {
      this.bridgeErrorHandler := bridgeErrorHandler;
    }

    method SetInitialDelay(initialDelay: Int64)
      modifies this`initialDelay
      ensures State() == old(State()).(initialDelay := initialDelay)
    {
      this.initialDelay := initialDelay;
    }

    method SetMinRate(minRate: Int32)
      modifies this`minRate
      ensures State() == old(State()).(minRate := minRate)
    {
      this.minRate := minRate;
    }

    method SetPreloadSize(preloadSize: Int64)
      modifies this`preloadSize
      ensures State() == old(State()).(preloadSize := preloadSize)
    {
      this.preloadSize := preloadSize;
    }

    method SetProduceDelay(produceDelay: Int64)
      modifies this`produceDelay
      ensures State() == old(State()).(produceDelay := produceDelay)
    {
      this.produceDelay := produceDelay;
    }

    method SetExceptionHandler(exceptionHandler: Option<ExceptionHandlerRef>)
      modifies this`exceptionHandler
      ensures State() == old(State()).(exceptionHandler := exceptionHandler)
    {
      this.exceptionHandler := exceptionHandler;
    }

    method SetExchangePattern(exchangePattern: Option<MessageExchangePattern>)
      modifies this`exchangePattern
      ensures State() == old(State()).(exchangePattern := exchangePattern)
    {
      this.exchangePattern := exchangePattern;
    }

    method SetAssertPeriod(assertPeriod: Int64)
      modifies this`assertPeriod
      ensures State() == old(State()).(assertPeriod := assertPeriod)
    {
      this.assertPeriod := assertPeriod;
    }

    method SetConsumeDelay(consumeDelay: Int64)
      modifies this`consumeDelay
      ensures State() == old(State()).(consumeDelay := consumeDelay)
    {
      this.consumeDelay := consumeDelay;
    }

    method SetExpectedCount(expectedCount: Int32)
      modifies this`expectedCount
      ensures State() == old(State()).(expectedCount := expectedCount)
    {
      this.expectedCount := expectedCount;
    }

    method SetFailFast(failFast: bool)
      modifies this`failFast
      ensures State() == old(State()).(failFast := failFast)
    {
      this.failFast := failFast;
    }

    method SetLazyStartProducer(lazyStartProducer: bool)
      modifies this`lazyStartProducer
      ensures State() == old(State()).(lazyStartProducer := lazyStartProducer)
    {
      this.lazyStartProducer := lazyStartProducer;
    }

    method SetReportGroup(reportGroup: Int32)
      modifies this`reportGroup
      ensures State() == old(State()).(reportGroup := reportGroup)
    {
      this.reportGroup := reportGroup;
    }

    method SetResultMinimumWaitTime(resultMinimumWaitTime: Int64)
      modifies this`resultMinimumWaitTime
      ensures State() == old(State()).(resultMinimumWaitTime := resultMinimumWaitTime)
    {
      this.resultMinimumWaitTime := resultMinimumWaitTime;
    }

    method SetResultWaitTime(resultWaitTime: Int64)
      modifies this`resultWaitTime
      ensures State() == old(State()).(resultWaitTime := resultWaitTime)
    {
      this.resultWaitTime := resultWaitTime;
    }

    method SetRetainFirst(retainFirst: Int32)
      modifies this`retainFirst
      ensures State() == old(State()).(retainFirst := retainFirst)
    {
      this.retainFirst := retainFirst;
    }

    method SetRetainLast(retainLast: Int32)
      modifies this`retainLast
      ensures State() == old(State()).(retainLast := retainLast)
    {
      this.retainLast := retainLast;
    }

    method SetSleepForEmptyTest(sleepForEmptyTest: Int64)
      modifies this`sleepForEmptyTest
      ensures State() == old(State()).(sleepForEmptyTest := sleepForEmptyTest)
    {
      this.sleepForEmptyTest := sleepForEmptyTest;
    }

    method SetCopyOnExchange(copyOnExchange: bool)
      modifies this`copyOnExchange
      ensures State() == old(State()).(copyOnExchange := copyOnExchange)
    {
      this.copyOnExchange := copyOnExchange;
    }

    method SetBasicPropertyBinding(basicPropertyBinding: bool)
      modifies this`basicPropertyBinding
      ensures State() == old(State()).(basicPropertyBinding := basicPropertyBinding)
    {
      this.basicPropertyBinding := basicPropertyBinding;
    }

    method SetSynchronous(synchronous: bool)
      modifies this`synchronous
      ensures State() == old(State()).(synchronous := synchronous)
    {
      this.synchronous := synchronous;
    }

    /** The setter of option `p`, e.g. `setMinRate` for `MinRate`. */
    method Set(p: Property, v: PropertyValue)
      requires Fits(KindOf(p), v)
      modifies this
      ensures State() == With(old(State()), p, v)
    {
      match p
      case DataSetIndex => SetDataSetIndex(if v.NullValue? then None else Some(v.text));
      case BridgeErrorHandler => SetBridgeErrorHandler(v.flag);
      case InitialDelay => SetInitialDelay(v.long);
      case MinRate => SetMinRate(v.integer);
      case PreloadSize => SetPreloadSize(v.long);
      case ProduceDelay => SetProduceDelay(v.long);
      case ExceptionHandler => SetExceptionHandler(if v.NullValue? then None else Some(v.handler));
      case ExchangePattern => SetExchangePattern(if v.NullValue? then None else Some(v.pattern));
      case AssertPeriod => SetAssertPeriod(v.long);
      case ConsumeDelay => SetConsumeDelay(v.long);
      case ExpectedCount => SetExpectedCount(v.integer);
      case FailFast => SetFailFast(v.flag);
      case LazyStartProducer => SetLazyStartProducer(v.flag);
      case ReportGroup => SetReportGroup(v.integer);
      case ResultMinimumWaitTime => SetResultMinimumWaitTime(v.long);
      case ResultWaitTime => SetResultWaitTime(v.long);
      case RetainFirst => SetRetainFirst(v.integer);
      case RetainLast => SetRetainLast(v.integer);
      case SleepForEmptyTest => SetSleepForEmptyTest(v.long);
      case CopyOnExchange => SetCopyOnExchange(v.flag);
      case BasicPropertyBinding => SetBasicPropertyBinding(v.flag);
      case Synchronous => SetSynchronous(v.flag);
    }
  }

  /** `DataSetEndpointConfigurer.configure` on a dataset endpoint. */
  method Configure(target: DataSetEndpoint, name: Option<string>, value: PropertyValue, ignoreCase: bool)
    returns (r: Completion<bool>)
    modifies target
    ensures Outcome(r, target.State()) == ConfigureOutcome(old(target.State()), name, value, ignoreCase)
  {
    if name.None? {
      return Throws(NullPointer);
    }
    var key := if ignoreCase then ToLower(name.value) else name.value;
    match PropertyFor(key)
    case None =>
      r := Value(false);
    case Some(p) =>
      var converted := Coerce(KindOf(p), value);
      if converted.Value? {
        target.Set(p, converted.value);
        r := Value(true);
      } else {
        r := Throws(converted.exception);
      }
  }
}
