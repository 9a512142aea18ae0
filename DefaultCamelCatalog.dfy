/**
 * The behaviour of `DefaultCamelCatalog` that does not depend on parsing the
 * catalog's JSON: the flag-gated memoisation `cache`, where a component's
 * documentation is looked up, and the label queries `findLabels` and
 * `findNames`.
 */
module DefaultCamelCatalog {
  import opened JavaLang
  import opened JavaStrings
  import opened SortedStrings
  import opened Resources

  // ---------------------------------------------------------------------------
  // Documentation paths
  // ---------------------------------------------------------------------------

  const DocDir: string := "org/apache/camel/catalog/docs"

  /** The schemes of the mail component, whose documentation is filed under `mail`. */
  const MailSchemes: set<string> := {"imap", "imaps", "pop3", "pop3s", "smtp", "smtps"}

  datatype DocKind = AsciiDoc | Html

  /** The file name ending of a component's documentation. */
  function DocSuffix(kind: DocKind): string {
    match kind
    case AsciiDoc => "-component.adoc"
    case Html => "-component.html"
  }

  /** The name a component's documentation is filed under. */
  function DocName(componentName: string): (name: string)
    ensures componentName in MailSchemes ==> name == "mail"
    ensures componentName !in MailSchemes ==> name == componentName
  {
    if componentName == "imap" || componentName == "imaps" || componentName == "pop3"
       || componentName == "pop3s" || componentName == "smtp" || componentName == "smtps"
    then "mail"
    else componentName
  }

  /** Only the mail schemes are renamed, all to `mail`, and renaming twice changes nothing more. */
  lemma DocNameAliases(componentName: string)
    ensures DocName(componentName) == "mail" <==> componentName == "mail" || componentName in MailSchemes
    ensures DocName(componentName) != componentName <==> componentName in MailSchemes
    ensures DocName(DocName(componentName)) == DocName(componentName)
  {
  }

  /** The bundled documentation file, `org/apache/camel/catalog/docs/<name>-component.adoc|html`. */
  function DocFile(name: string, kind: DocKind): string {
    DocDir + "/" + name + DocSuffix(kind)
  }

  /**
   * Different names or different kinds never share a documentation file, so
   * they never share a cache entry.
   */
  lemma DocFileInjective(a: string, ka: DocKind, b: string, kb: DocKind)
    ensures DocFile(a, ka) == DocFile(b, kb) <==> a == b && ka == kb
  {
    if DocFile(a, ka) == DocFile(b, kb) {
      var fa, fb := DocFile(a, ka), DocFile(b, kb);
      var n := |fa|;
      assert fa[n - 4..] == DocSuffix(ka)[11..] && fb[n - 4..] == DocSuffix(kb)[11..];
      assert ka == kb;
      assert fa[|DocDir| + 1..n - |DocSuffix(ka)|] == a;
      assert fb[|DocDir| + 1..n - |DocSuffix(kb)|] == b;
    }
  }

  /** Where the loader of `doComponentAsciiDoc` / `doComponentHtmlDoc` reads a documentation file. */
  datatype DocSource =
    | Bundled(file: string)                  // the catalog's own documentation
    | Extra(path: string)                    // next to a third-party component's class
    | Nowhere                                // no documentation: the loader returns null
    | Unreadable(exception: JavaException)   // the component's class name has no package

  /**
   * The loader's lookup order. The bundled names are tested with the original
   * component name for AsciiDoc but with the aliased name for HTML; the
   * third-party components are then tested with the aliased name.
   */
  function DocLocation(componentName: string, kind: DocKind, componentNames: seq<string>,
                       extraComponents: map<string, string>): (r: DocSource)
    ensures var name := DocName(componentName);
            var probe := if kind == AsciiDoc then componentName else name;
            && (probe in componentNames <==> r == Bundled(DocFile(name, kind)))
            && (probe !in componentNames && name in extraComponents && '.' in extraComponents[name] <==> r.Extra?)
            && (probe !in componentNames && name !in extraComponents <==> r == Nowhere)
            && (probe !in componentNames && name in extraComponents && '.' !in extraComponents[name]
                <==> r == Unreadable(StringIndexOutOfBounds))
            && (r.Extra? ==> PackagePath(extraComponents[name]).Value?
                             && r.path == PackagePath(extraComponents[name]).value + "/" + name + DocSuffix(kind))
  {
    var name := DocName(componentName);
    var probe := if kind == AsciiDoc then componentName else name;
    if probe in componentNames then
      Bundled(DocFile(name, kind))
    else if name in extraComponents then
      match PackagePath(extraComponents[name])
      case Value(dir) => Extra(dir + "/" + name + DocSuffix(kind))
      case Null => Nowhere
      case Throws(e) => Unreadable(e)
    else
      Nowhere
  }

  /**
   * A third-party component registered with class `pkg.Simple` has its
   * documentation in the package directory of that class.
   */
  lemma ExtraDocPath(componentName: string, kind: DocKind, componentNames: seq<string>,
                     extraComponents: map<string, string>, pkg: string, simple: string)
    requires (if kind == AsciiDoc then componentName else DocName(componentName)) !in componentNames
    requires DocName(componentName) in extraComponents
    requires extraComponents[DocName(componentName)] == pkg + "." + simple && '.' !in simple
    ensures DocLocation(componentName, kind, componentNames, extraComponents)
         == Extra(Replace(pkg, '.', '/') + "/" + DocName(componentName) + DocSuffix(kind))
  {
    PackagePathOfQualifiedName(pkg, simple);
  }

  /**
   * For a mail scheme the two kinds test different names against the bundled
   * names: AsciiDoc the scheme itself, HTML `mail`. With the scheme bundled and
   * `mail` not, only the AsciiDoc file is found among the bundled ones.
   */
  lemma MailDocsProbeDifferentNames(scheme: string, componentNames: seq<string>, extraComponents: map<string, string>)
    requires scheme in MailSchemes && scheme in componentNames && "mail" !in componentNames
    requires "mail" !in extraComponents
    ensures DocLocation(scheme, AsciiDoc, componentNames, extraComponents) == Bundled(DocFile("mail", AsciiDoc))
    ensures DocLocation(scheme, Html, componentNames, extraComponents) == Nowhere
  {
  }

  /** What the loader returns for a documentation file. */
  function LoadDoc(componentName: string, kind: DocKind, componentNames: seq<string>,
                   extraComponents: map<string, string>, versionManager: ResourceLookup): Completion<string>
  {
    match DocLocation(componentName, kind, componentNames, extraComponents)
    case Bundled(file) => LoadResource(versionManager, file)
    case Extra(path) => LoadResource(versionManager, path)
    case Nowhere => Null
    case Unreadable(e) => Throws(e)
  }

  // ---------------------------------------------------------------------------
  // The catalog and its cache
  // ---------------------------------------------------------------------------

  class Catalog {
    /** Whether `cache` memoises at all. */
    var caching: bool
    /** Operation or resource key to its non-null result. */
    var cache: map<string, string>
    /** Third-party component name to its class name. */
    var extraComponents: map<string, string>
    /** `versionManager.getResourceAsStream`. */
    var versionManager: ResourceLookup

    /** Nothing is ever stored while caching is off. */
    ghost predicate Valid()
      reads this
    {
      !caching ==> cache == map[]
    }

    /** `new DefaultCamelCatalog(caching)`, with its version manager's resources. */
    constructor (caching: bool, versionManager: ResourceLookup)
      ensures Valid()
      ensures this.caching == caching && this.versionManager == versionManager
      ensures cache == map[] && extraComponents == map[]
    {
      this.caching := caching;
      this.versionManager := versionManager;
      cache := map[];
      extraComponents := map[];
    }

    /**
     * `cache(key, name, loader)`: with caching on, a stored result under `key`
     * is returned without calling the loader; otherwise the loader is called
     * with `name`, and a non-null result is stored under `key` and nowhere
     * else. With caching off the loader is always called and nothing is
     * stored. `loaded` tells whether the loader was called.
     */
    method CacheKeyed(key: string, name: string, loader: string -> Completion<string>)
      returns (r: Completion<string>, ghost loaded: bool)
      requires Valid()
      modifies this`cache
      ensures Valid()
      ensures loaded <==> !(caching && key in old(cache))
      ensures loaded ==> r == loader(name)
      ensures !loaded ==> r == Value(old(cache)[key])
      ensures cache == if caching && loaded && r.Value? then old(cache)[key := r.value] else old(cache)
    {
      if caching {
        if key in cache {
          r, loaded := Value(cache[key]), false;
        } else {
          r, loaded := loader(name), true;
          if r.Value? {
            cache := cache[key := r.value];
          }
        }
      } else {
        r, loaded := loader(name), true;
      }
    }

    /** `cache(name, loader)` with a `Function`: the loader is called with the key itself. */
    method CacheByName(name: string, loader: string -> Completion<string>)
      returns (r: Completion<string>, ghost loaded: bool)
      requires Valid()
      modifies this`cache
      ensures Valid()
      ensures loaded <==> !(caching && name in old(cache))
      ensures loaded ==> r == loader(name)
      ensures !loaded ==> r == Value(old(cache)[name])
      ensures cache == if caching && loaded && r.Value? then old(cache)[name := r.value] else old(cache)
    {
      r, loaded := CacheKeyed(name, name, loader);
    }

    /** `cache(name, loader)` with a `Supplier`. */
    method CacheSupplied(name: string, loader: () -> Completion<string>)
      returns (r: Completion<string>, ghost loaded: bool)
      requires Valid()
      modifies this`cache
      ensures Valid()
      ensures loaded <==> !(caching && name in old(cache))
      ensures loaded ==> r == loader()
      ensures !loaded ==> r == Value(old(cache)[name])
      ensures cache == if caching && loaded && r.Value? then old(cache)[name := r.value] else old(cache)
    {
      r, loaded := CacheKeyed(name, name, _ => loader());
    }

    /**
     * `doComponentAsciiDoc` (kind AsciiDoc) and `doComponentHtmlDoc` (kind
     * Html): the documentation file's text, memoised under its bundled path.
     */
    method ComponentDoc(componentName: string, kind: DocKind, componentNames: seq<string>)
      returns (r: Completion<string>)
      requires Valid()
      modifies this`cache
      ensures Valid()
      ensures var file := DocFile(DocName(componentName), kind);
              && r == (if caching && file in old(cache) then Value(old(cache)[file])
                       else LoadDoc(componentName, kind, componentNames, extraComponents, versionManager))
              && cache == (if caching && file !in old(cache) && r.Value? then old(cache)[file := r.value]
                           else old(cache))
    {
      var name := DocName(componentName);
      var file := DocFile(name, kind);
      var extra, resources := extraComponents, versionManager;
      ghost var loaded;
      r, loaded := CacheSupplied(file, () => LoadDoc(componentName, kind, componentNames, extra, resources));
    }
  }

  // ---------------------------------------------------------------------------
  // Labels
  // ---------------------------------------------------------------------------

  /** The part of a catalog model these queries read: its comma-separated labels. */
  datatype Model = Model(labels: string)

  /** Loads the model of a name; `None` where the loader returns null. */
  type ModelLoader = string -> Option<Model>

  /** The outcome of `matchWildcard(part, filter) || part.matches(filter)`. */
  datatype PatternMatch = Matched | NotMatched | BadPattern

  type Matcher = (string, string) -> PatternMatch

  /** The label parts of a loaded model. */
  function LabelParts(m: Model): seq<string> {
    Split(m.labels, ',')
  }

  /** One label part selects its name: equal ignoring case, or the patterns match; a bad pattern selects nothing. */
  predicate PartSelects(part: string, filter: string, matcher: Matcher) {
    EqualsIgnoreCase(part, filter) || matcher(part, filter) == Matched
  }

  /** How many of the parts select their name. */
  function SelectingParts(parts: seq<string>, filter: string, matcher: Matcher): (n: nat)
    ensures n <= |parts|
    ensures n == 0 <==> forall k :: 0 <= k < |parts| ==> !PartSelects(parts[k], filter, matcher)
  {
    if |parts| == 0 then 0
    else
      var last := parts[|parts| - 1];
      SelectingParts(parts[..|parts| - 1], filter, matcher) + (if PartSelects(last, filter, matcher) then 1 else 0)
  }

  /** How many times `findNames` lists a name each time it meets it. */
  function Hits(name: string, filter: string, load: ModelLoader, matcher: Matcher): nat {
    match load(name)
    case None => 0
    case Some(m) => SelectingParts(LabelParts(m), filter, matcher)
  }

  /** What `findNames` returns: each name in input order, once per label part that selects it. */
  function NamesByLabel(names: seq<string>, filter: string, load: ModelLoader, matcher: Matcher): seq<string> {
    if |names| == 0 then []
    else
      var last := names[|names| - 1];
      NamesByLabel(names[..|names| - 1], filter, load, matcher) + Repeat(last, Hits(last, filter, load, matcher))
  }

  /** The answer for a list is the answers for its two halves, one after the other: the input order is kept. */
  lemma {:induction false} NamesByLabelAppend(a: seq<string>, b: seq<string>, filter: string, load: ModelLoader, matcher: Matcher)
    ensures NamesByLabel(a + b, filter, load, matcher)
         == NamesByLabel(a, filter, load, matcher) + NamesByLabel(b, filter, load, matcher)
    decreases |b|
  {
    if |b| == 0 {
      assert a + b == a;
    } else {
      var last := b[|b| - 1];
      assert (a + b)[..|a + b| - 1] == a + b[..|b| - 1];
      NamesByLabelAppend(a, b[..|b| - 1], filter, load, matcher);
    }
  }

  /**
   * A name is listed as often as it occurs in the input times the number of
   * its label parts that select it: names without a model never appear, and
   * duplicates come from several selecting parts.
   */
  lemma {:induction false} NamesByLabelCount(names: seq<string>, filter: string, load: ModelLoader, matcher: Matcher, name: string)
    ensures multiset(NamesByLabel(names, filter, load, matcher))[name]
         == multiset(names)[name] * Hits(name, filter, load, matcher)
  {
    if |names| > 0 {
      var init, last := names[..|names| - 1], names[|names| - 1];
      NamesByLabelCount(init, filter, load, matcher, name);
      NamesByLabelLast(names, filter, load, matcher, name);
      CountLast(names, name);
      CountStep(multiset(init)[name], Hits(name, filter, load, matcher), last == name);
    }
  }

  /** The last name contributes its own block of hits. */
  lemma NamesByLabelLast(names: seq<string>, filter: string, load: ModelLoader, matcher: Matcher, name: string)
    requires |names| > 0
    ensures multiset(NamesByLabel(names, filter, load, matcher))[name]
         == multiset(NamesByLabel(names[..|names| - 1], filter, load, matcher))[name]
          + (if names[|names| - 1] == name then Hits(name, filter, load, matcher) else 0)
  {
    var last := names[|names| - 1];
    var before := NamesByLabel(names[..|names| - 1], filter, load, matcher);
    var block := Repeat(last, Hits(last, filter, load, matcher));
    RepeatCount(last, Hits(last, filter, load, matcher), name);
    assert NamesByLabel(names, filter, load, matcher) == before + block;
  }

  /** Counting a name in a list: the count before the last element, plus one when it is the last. */
  lemma CountLast(names: seq<string>, name: string)
    requires |names| > 0
    ensures multiset(names)[name] == multiset(names[..|names| - 1])[name] + (if names[|names| - 1] == name then 1 else 0)
  {
    assert names == names[..|names| - 1] + [names[|names| - 1]];
  }

  /** One more occurrence of a name adds one more block of its hits. */
  lemma CountStep(c: nat, hits: nat, same: bool)
    ensures c * hits + (if same then hits else 0) == (c + if same then 1 else 0) * hits
  {
  }

  lemma {:induction false} RepeatCount(x: string, n: nat, name: string)
    ensures multiset(Repeat(x, n))[name] == if x == name then n else 0
  {
    if n > 0 {
      RepeatCount(x, n - 1, name);
      assert Repeat(x, n) == Repeat(x, n - 1) + [x];
    }
  }

  /** The inner loop of `findNames`: `name` appended once per label part that selects it. */
  method AppendPerSelectingPart(answer: seq<string>, name: string, parts: seq<string>, filter: string, matcher: Matcher)
    returns (out: seq<string>)
    ensures out == answer + Repeat(name, SelectingParts(parts, filter, matcher))
  {
    out := answer;
    var hits := 0;
    for j := 0 to |parts|
      invariant hits == SelectingParts(parts[..j], filter, matcher)
      invariant out == answer + Repeat(name, hits)
    {
      assert parts[..j + 1][..j] == parts[..j];
      if EqualsIgnoreCase(parts[j], filter) || matcher(parts[j], filter) == Matched {
        assert Repeat(name, hits + 1) == Repeat(name, hits) + [name];
        out := out + [name];
        hits := hits + 1;
      }
    }
    assert parts[..|parts|] == parts;
  }

  /** `findNames`. */
  method FindNames(filter: string, names: seq<string>, load: ModelLoader, matcher: Matcher)
    returns (answer: seq<string>)
    ensures answer == NamesByLabel(names, filter, load, matcher)
  {
    answer := [];
    for i := 0 to |names|
      invariant answer == NamesByLabel(names[..i], filter, load, matcher)
    {
      var name := names[i];
      assert names[..i + 1][..i] == names[..i];
      var model := load(name);
      if model.Some? {
        var parts := Split(model.value.labels, ',');
        answer := AppendPerSelectingPart(answer, name, parts, filter, matcher);
      } else {
        assert Repeat(name, 0) == [];
      }
    }
    assert names[..|names|] == names;
  }

  /** The labels of every loaded model: the union of their comma-separated parts. */
  function Labels(names: seq<string>, load: ModelLoader): set<string> {
    if |names| == 0 then {}
    else
      var last := names[|names| - 1];
      Labels(names[..|names| - 1], load)
        + (match load(last) case None => {} case Some(m) => set part | part in LabelParts(m))
  }

  /** A label is collected exactly when it is a part of the labels of some name whose model loads. */
  lemma {:induction false} LabelsMembership(names: seq<string>, load: ModelLoader, tag: string)
    ensures tag in Labels(names, load) <==>
            exists i :: 0 <= i < |names| && load(names[i]).Some? && tag in LabelParts(load(names[i]).value)
  {
    if |names| > 0 {
      var init, last := names[..|names| - 1], names[|names| - 1];
      LabelsMembership(init, load, tag);
      if exists i :: 0 <= i < |names| && load(names[i]).Some? && tag in LabelParts(load(names[i]).value) {
        var i :| 0 <= i < |names| && load(names[i]).Some? && tag in LabelParts(load(names[i]).value);
        if i < |names| - 1 {
          assert init[i] == names[i];
        } else {
          var parts := LabelParts(load(last).value);
        }
      }
      if tag in Labels(init, load) {
        var i :| 0 <= i < |init| && load(init[i]).Some? && tag in LabelParts(load(init[i]).value);
        assert names[i] == init[i];
      }
    }
  }

  /**
   * `findLabels`: the labels in the order of a `TreeSet<String>`, each once.
   * Sorted sequences with the same elements are equal (`SortedIsUnique`), so
   * this determines the answer.
   */
  method FindLabels(names: seq<string>, load: ModelLoader) returns (answer: seq<string>)
    ensures StrictlySorted(answer)
    ensures forall tag :: tag in answer <==> tag in Labels(names, load)
  {
    answer := [];
    for i := 0 to |names|
      invariant StrictlySorted(answer)
      invariant forall tag :: tag in answer <==> tag in Labels(names[..i], load)
    {
      assert names[..i + 1][..i] == names[..i];
      var model := load(names[i]);
      if model.Some? {
        var parts := Split(model.value.labels, ',');
        for j := 0 to |parts|
          invariant StrictlySorted(answer)
          invariant forall tag :: tag in answer <==> tag in Labels(names[..i], load) || tag in parts[..j]
        {
          assert parts[..j + 1] == parts[..j] + [parts[j]];
          answer := Insert(answer, parts[j]);
        }
        assert parts[..|parts|] == parts;
      }
    }
    assert names[..|names|] == names;
  }
}
