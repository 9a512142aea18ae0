/**
 * `CamelCatalogJSonSchemaResolver.loadFromClasspath` and
 * `loadResourceFromVersionManager`: a JSON schema is looked up next to a
 * class, first through the catalog's version manager and then through the
 * resolver's class loader, and every IOException is swallowed.
 */
module CamelCatalogJSonSchemaResolver {
  import opened JavaLang
  import opened JavaStrings
  import opened Resources

  /** The two places a resource is looked up, in the order they are tried. */
  datatype Tier = VersionManager | ClassLoader

  /** What a lookup returned, and which tiers it opened, with which path, in order. */
  datatype Lookup = Lookup(result: Completion<string>, consulted: seq<(Tier, string)>)

  /**
   * `loadResourceFromVersionManager(file)`: the version manager's text when it
   * has the resource; otherwise, when there is a class loader, the class
   * loader's text; otherwise null.
   */
  function LoadResourceFromVersionManager(file: string, versionManager: ResourceLookup,
                                          classLoader: Option<ResourceLookup>): (r: Lookup)
    ensures 1 <= |r.consulted| <= 2 && r.consulted[0] == (VersionManager, file)
    ensures |r.consulted| == 2 <==> classLoader.Some? && !versionManager(file).Opened?
    ensures |r.consulted| == 2 ==> r.consulted[1] == (ClassLoader, file)
    ensures versionManager(file).Opened? ==> r.result == Value(versionManager(file).text)
    ensures |r.consulted| == 2 ==> (r.result.Value? <==> classLoader.value(file).Opened?)
    ensures |r.consulted| == 2 && r.result.Value? ==> r.result.value == classLoader.value(file).text
    ensures !r.result.Throws?
  {
    match versionManager(file)
    case Opened(text) => Lookup(Value(text), [(VersionManager, file)])
    case _ =>
      match classLoader
      case None => Lookup(Null, [(VersionManager, file)])
      case Some(loader) =>
        match loader(file)
        case Opened(text) => Lookup(Value(text), [(VersionManager, file), (ClassLoader, file)])
        case _ => Lookup(Null, [(VersionManager, file), (ClassLoader, file)])
  }

  /** Null comes back exactly when every tier that is present misses. */
  lemma {:induction false} NullWhenAllTiersMiss(file: string, versionManager: ResourceLookup, classLoader: Option<ResourceLookup>)
    ensures LoadResourceFromVersionManager(file, versionManager, classLoader).result == Null
        <==> !versionManager(file).Opened? && (classLoader.None? || !classLoader.value(file).Opened?)
  {
    var r := LoadResourceFromVersionManager(file, versionManager, classLoader);
    if !versionManager(file).Opened? && classLoader.Some? {
      assert |r.consulted| == 2;
    }
  }

  /** `className.substring(0, lastIndexOf('.')).replace('.', '/') + "/" + fileName + ".json"`. */
  function SchemaPath(className: string, fileName: string): (r: Completion<string>)
    ensures r.Value? <==> '.' in className
    ensures r.Value? ==> |r.value| == LastIndexOf(className, '.') + |fileName| + 6
  {
    match PackagePath(className)
    case Value(dir) => Value(dir + "/" + fileName + ".json")
    case Null => Null
    case Throws(e) => Throws(e)
  }

  /**
   * `loadFromClasspath(className, fileName)`: null without any lookup for a
   * null class name; an exception without any lookup for a class name without
   * a package; otherwise the two-tier lookup of the schema next to the class.
   */
  function LoadFromClasspath(className: Option<string>, fileName: string, versionManager: ResourceLookup,
                             classLoader: Option<ResourceLookup>): (r: Lookup)
    ensures className.None? ==> r == Lookup(Null, [])
    ensures className.Some? && '.' !in className.value ==> r == Lookup(Throws(StringIndexOutOfBounds), [])
    ensures r.consulted != [] <==> className.Some? && '.' in className.value
    ensures r.result.Throws? ==> r.result.exception == StringIndexOutOfBounds
  {
    match className
    case None => Lookup(Null, [])
    case Some(name) =>
      match SchemaPath(name, fileName)
      case Value(path) => LoadResourceFromVersionManager(path, versionManager, classLoader)
      case Null => Lookup(Null, [])
      case Throws(e) => Lookup(Throws(e), [])
  }

  /**
   * The schema of class `pkg.Simple` named `fileName` is looked up at
   * `pkg` (dots as slashes) + `/` + `fileName` + `.json`, version manager first.
   */
  lemma SchemaLookedUpNextToClass(pkg: string, simple: string, fileName: string,
                                  versionManager: ResourceLookup, classLoader: Option<ResourceLookup>)
    requires '.' !in simple
    ensures var path := Replace(pkg, '.', '/') + "/" + fileName + ".json";
            var r := LoadFromClasspath(Some(pkg + "." + simple), fileName, versionManager, classLoader);
            && r == LoadResourceFromVersionManager(path, versionManager, classLoader)
            && r.consulted[0] == (VersionManager, path)
  {
    PackagePathOfQualifiedName(pkg, simple);
  }
}
