/**
 * Resource lookup shared by the catalog and the JSON-schema resolver: a
 * resource stream is opened by path (through the version manager or a class
 * loader), read to text and closed; and a class name gives the resource
 * directory of its package.
 */
module Resources {
  import opened JavaLang
  import opened JavaStrings

  /**
   * What opening a resource by path and reading it gives: its text, no stream
   * at all (`getResourceAsStream` returned null), or an IOException while
   * reading or closing the stream.
   */
  datatype Stream = Opened(text: string) | Missing | Failed

  /** A resource source such as `VersionManager.getResourceAsStream` or `ClassLoader.getResourceAsStream`. */
  type ResourceLookup = string -> Stream

  /**
   * `DefaultCamelCatalog.loadResource`: the text of the resource, and null when
   * there is no stream or reading it failed; the IOException is swallowed.
   */
  function LoadResource(lookup: ResourceLookup, file: string): (r: Completion<string>)
    ensures !r.Throws?
    ensures r.Value? <==> lookup(file).Opened?
    ensures r.Value? ==> r.value == lookup(file).text
  {
    match lookup(file)
    case Opened(text) => Value(text)
    case Missing => Null
    case Failed => Null
  }

  /**
   * `className.substring(0, className.lastIndexOf('.')).replace('.', '/')`:
   * the package of a class as a resource directory. A class name without a
   * dot makes `substring(0, -1)` throw.
   */
  function PackagePath(className: string): (r: Completion<string>)
    ensures r.Value? <==> '.' in className
    ensures !r.Value? ==> r == Throws(StringIndexOutOfBounds)
    ensures r.Value? ==> |r.value| == LastIndexOf(className, '.') && '.' !in r.value
  {
    var cut := Substring(className, 0, LastIndexOf(className, '.'));
    if cut.Value? then Value(Replace(cut.value, '.', '/')) else cut
  }

  /** For a qualified name `pkg.Simple`, the directory is `pkg` with every dot turned into a slash. */
  lemma {:induction false} PackagePathOfQualifiedName(pkg: string, simple: string)
    requires '.' !in simple
    ensures PackagePath(pkg + "." + simple) == Value(Replace(pkg, '.', '/'))
  {
    var className := pkg + "." + simple;
    assert className[|pkg|] == '.';
    assert className[|pkg| + 1..] == simple;
    assert className[..|pkg|] == pkg;
  }
}
