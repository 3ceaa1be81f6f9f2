/**
 * BundleManifest: reading a MANIFEST.MF into a plugin entry, or into the
 * exception that reading it raised. Manifest decoding and OSGi header
 * parsing are inputs: the decoded main attributes (or the IOException) and
 * the value of the first element of the Bundle-SymbolicName header (or the
 * BundleException's message).
 */
module BundleManifests {
  import opened Wrappers

  const PLUGINS: string := "plugins"
  const BUNDLE_SYMBOLICNAME: string := "Bundle-SymbolicName"
  const BUNDLE_VERSION: string := "Bundle-Version"
  const FRAGMENT_HOST: string := "Fragment-Host"

  /**
   * What a manifest stream yields once decoded. The main attributes are
   * keyed by header name in ASCII lower case, since Attributes.Name
   * compares header names ignoring case.
   */
  datatype ManifestInput = ManifestInput(
    attributes: Result<map<string, string>, string>,
    parseHeader: string -> Result<string, string>)

  /**
   * A java.io.File: its path as names from the file-system root (the root
   * itself is the name ""), whether it exists (exists()), is a directory and can be
   * opened, and what reading it yields.
   */
  datatype File = File(path: seq<string>, present: bool, isDirectory: bool, openable: bool, contents: ManifestInput)

  datatype PluginEntry = PluginEntry(id: string, version: Option<string>, isFragment: bool, url: Option<string>)

  /** The pluginEntry and exception fields after parsing. */
  datatype Parsed = Parsed(entry: Option<PluginEntry>, exception: Option<string>)

  /** File.getParentFile() on a path: none for a single name. */
  function ParentOf(path: seq<string>): (r: Option<seq<string>>)
    ensures r.Some? <==> |path| >= 2
    ensures r.Some? ==> r.value == path[..|path| - 1]
  {
    if |path| >= 2 then Some(path[..|path| - 1]) else None
  }

  /** A header-name character in ASCII lower case. */
  function LowerChar(c: char): (r: char)
    ensures 'A' <= c <= 'Z' ==> 'a' <= r <= 'z' && r as int - c as int == 32
    ensures !('A' <= c <= 'Z') ==> r == c
  {
    if 'A' <= c <= 'Z' then (c as int + 32) as char else c
  }

  /** A header name in ASCII lower case: the key Attributes.Name hashes and compares by. */
  function Lower(s: string): (r: string)
    ensures |r| == |s|
  {
    if s == [] then [] else [LowerChar(s[0])] + Lower(s[1..])
  }

  /** Lower folds each character on its own. */
  lemma {:induction false} LowerAt(s: string, i: nat)
    requires i < |s|
    ensures Lower(s)[i] == LowerChar(s[i])
  {
    if i > 0 {
      LowerAt(s[1..], i - 1);
    }
  }

  /** Two header names that Attributes.Name considers equal. */
  predicate SameName(x: string, y: string)
  {
    |x| == |y| && forall i | 0 <= i < |x| :: LowerChar(x[i]) == LowerChar(y[i])
  }

  /**
   * The keys the headers are stored under: their names in lower case, so
   * that getValue finds a header however the manifest spells its name.
   */
  const SYMBOLIC_NAME_KEY: string := "bundle-symbolicname"
  const VERSION_KEY: string := "bundle-version"
  const FRAGMENT_HOST_KEY: string := "fragment-host"

  lemma SymbolicNameKey()
    ensures Lower(BUNDLE_SYMBOLICNAME) == SYMBOLIC_NAME_KEY
  {
    LowerIs(BUNDLE_SYMBOLICNAME, SYMBOLIC_NAME_KEY);
  }

  lemma VersionKey()
    ensures Lower(BUNDLE_VERSION) == VERSION_KEY
  {
    LowerIs(BUNDLE_VERSION, VERSION_KEY);
  }

  lemma FragmentHostKey()
    ensures Lower(FRAGMENT_HOST) == FRAGMENT_HOST_KEY
  {
    LowerIs(FRAGMENT_HOST, FRAGMENT_HOST_KEY);
  }

  /** Folding s gives k when it does so character by character. */
  lemma LowerIs(s: string, k: string)
    requires |s| == |k| && forall i | 0 <= i < |s| :: LowerChar(s[i]) == k[i]
    ensures Lower(s) == k
  {
    forall i | 0 <= i < |s|
      ensures Lower(s)[i] == k[i]
    {
      LowerAt(s, i);
    }
  }

  /** getValue on the attributes: the value stored under a header's key, none when it is absent. */
  function Attribute(a: map<string, string>, key: string): (r: Option<string>)
    ensures r.Some? <==> key in a
    ensures r.Some? ==> r.value == a[key]
  {
    if key in a then Some(a[key]) else None
  }

  /** A header whose name is spelled in any case is stored under the same key. */
  lemma {:induction false} SameNameSameKey(x: string, y: string)
    requires SameName(x, y)
    ensures Lower(x) == Lower(y)
  {
    forall i | 0 <= i < |x|
      ensures Lower(x)[i] == Lower(y)[i]
    {
      LowerAt(x, i);
      LowerAt(y, i);
    }
  }

  /** A Bundle-SymbolicName header spelled in any case is the one parse reads. */
  lemma SymbolicNameInAnyCase(name: string)
    requires SameName(name, BUNDLE_SYMBOLICNAME)
    ensures Lower(name) == SYMBOLIC_NAME_KEY
  {
    SameNameSameKey(name, BUNDLE_SYMBOLICNAME);
    SymbolicNameKey();
  }

  /** Whether parse gets as far as setting the URL: a symbolic name that parses. */
  predicate ReachesUrl(input: ManifestInput)
  {
    input.attributes.Success? && Attribute(input.attributes.value, SYMBOLIC_NAME_KEY).Some? &&
    input.parseHeader(Attribute(input.attributes.value, SYMBOLIC_NAME_KEY).value).Success?
  }

  /**
   * The URL a parsed entry gets: the bundle URL when one was given, else
   * PLUGINS/<grandparent directory name>/ when the manifest file has a
   * grandparent, else none.
   */
  function EntryUrl(bundleURL: Option<string>, manifestPath: seq<string>): (r: Option<string>)
    ensures bundleURL.Some? ==> r == bundleURL
    ensures bundleURL.None? && |manifestPath| >= 3 ==>
      r == Some(PLUGINS + "/" + manifestPath[|manifestPath| - 3] + "/")
    ensures bundleURL.None? && |manifestPath| < 3 ==> r.None?
  {
    if bundleURL.Some? then bundleURL
    else if |manifestPath| >= 3 then Some(PLUGINS + "/" + manifestPath[|manifestPath| - 3] + "/")
    else None
  }

  /** parse(in) on a fresh object, with the bundle URL and the manifest file's path. */
  function Parse(input: ManifestInput, bundleURL: Option<string>, manifestPath: seq<string>): (r: Parsed)
    ensures !(r.entry.Some? && r.exception.Some?)
    ensures r.entry.Some? || r.exception.Some? <==>
      input.attributes.Failure? || Attribute(input.attributes.value, SYMBOLIC_NAME_KEY).Some?
    ensures r.exception.Some? <==>
      input.attributes.Failure? ||
      (Attribute(input.attributes.value, SYMBOLIC_NAME_KEY).Some? &&
       input.parseHeader(Attribute(input.attributes.value, SYMBOLIC_NAME_KEY).value).Failure?)
    ensures r.entry.Some? <==> ReachesUrl(input)
    ensures r.entry.Some? ==>
      var a := input.attributes.value;
      && r.entry.value.id == input.parseHeader(Attribute(a, SYMBOLIC_NAME_KEY).value).value
      && r.entry.value.version == Attribute(a, VERSION_KEY)
      && (r.entry.value.isFragment <==> Attribute(a, FRAGMENT_HOST_KEY).Some? && Attribute(a, FRAGMENT_HOST_KEY).value != "")
      && r.entry.value.url == EntryUrl(bundleURL, manifestPath)
  {
    match input.attributes
    case Failure(message) => Parsed(None, Some(message))
    case Success(a) =>
      var symbolicName := Attribute(a, SYMBOLIC_NAME_KEY);
      if symbolicName.None? then Parsed(None, None)
      else
        match input.parseHeader(symbolicName.value)
        case Failure(message) => Parsed(None, Some(message))
        case Success(id) =>
          var host := Attribute(a, FRAGMENT_HOST_KEY);
          Parsed(Some(PluginEntry(id, Attribute(a, VERSION_KEY), host.Some? && |host.value| > 0,
                                  EntryUrl(bundleURL, manifestPath))), None)
  }

  class BundleManifest {
    var manifestFile: Option<File>
    var pluginEntry: Option<PluginEntry>
    var exception: Option<string>
    var bundleURL: Option<string>

    /** At most one of the entry and the exception is set. */
    predicate Valid()
      reads this
    {
      !(pluginEntry.Some? && exception.Some?)
    }

    /**
     * The local-file constructor: parses only a file that exists and is not
     * a directory; a file that cannot be opened is silently ignored.
     */
    constructor FromFile(manifest: File)
      ensures manifestFile == Some(manifest) && bundleURL == None
      ensures Parsed(pluginEntry, exception) ==
        if manifest.present && !manifest.isDirectory && manifest.openable
        then Parse(manifest.contents, None, manifest.path)
        else Parsed(None, None)
      ensures Valid()
      ensures Exists() <==>
        manifest.present && !manifest.isDirectory && manifest.openable &&
        (manifest.contents.attributes.Failure? || Attribute(manifest.contents.attributes.value, SYMBOLIC_NAME_KEY).Some?)
    {
      manifestFile := Some(manifest);
      pluginEntry := None;
      exception := None;
      bundleURL := None;
      new;
      if manifest.present && !manifest.isDirectory {
        // new FileInputStream throws FileNotFoundException, which is swallowed
        if manifest.openable {
          ParseManifest(manifest.contents);
        }
      }
    }

    /**
     * The stream constructor: parses only a non-null stream. Without a
     * manifest file the URL step needs the bundle URL.
     */
    constructor FromStream(input: Option<ManifestInput>, bundleUrl: Option<string>)
      requires input.Some? && ReachesUrl(input.value) ==> bundleUrl.Some?
      ensures manifestFile == None && bundleURL == bundleUrl
      ensures Parsed(pluginEntry, exception) ==
        if input.Some? then Parse(input.value, bundleUrl, []) else Parsed(None, None)
      ensures Valid()
      ensures Exists() <==>
        input.Some? && (input.value.attributes.Failure? || Attribute(input.value.attributes.value, SYMBOLIC_NAME_KEY).Some?)
    {
      manifestFile := None;
      pluginEntry := None;
      exception := None;
      bundleURL := bundleUrl;
      new;
      if input.Some? {
        ParseManifest(input.value);
      }
    }

    /** parse(in): sets pluginEntry field by field, or stores the exception. */
    method ParseManifest(input: ManifestInput)
      requires pluginEntry == None && exception == None
      requires ReachesUrl(input) ==> bundleURL.Some? || manifestFile.Some?
      modifies this
      ensures manifestFile == old(manifestFile) && bundleURL == old(bundleURL)
      ensures Parsed(pluginEntry, exception) ==
        Parse(input, bundleURL, if manifestFile.Some? then manifestFile.value.path else [])
    {
      match input.attributes {
        case Failure(message) =>
          exception := Some(message);
        case Success(a) =>
          var symbolicName := Attribute(a, SYMBOLIC_NAME_KEY);
          if symbolicName.None? {
            return;
          }
          var id: string;
          match input.parseHeader(symbolicName.value) {
            case Failure(message) =>
              exception := Some(message);
              return;
            case Success(value) =>
              id := value;
          }
          var version := Attribute(a, VERSION_KEY);
          var hostPlugin := Attribute(a, FRAGMENT_HOST_KEY);
          var entry := PluginEntry(id, version, false, None);
          entry := entry.(isFragment := hostPlugin.Some? && |hostPlugin.value| > 0);
          if bundleURL.Some? {
            entry := entry.(url := bundleURL);
          } else {
            var pluginDir := ParentOf(manifestFile.value.path);
            if pluginDir.Some? {
              pluginDir := ParentOf(pluginDir.value);
            }
            if pluginDir.Some? {
              entry := entry.(url := Some(PLUGINS + "/" + pluginDir.value[|pluginDir.value| - 1] + "/"));
            }
          }
          pluginEntry := Some(entry);
      }
    }

    /** exists(): an exception was stored or an entry was created. */
    predicate Exists(): (b: bool)
      reads this
      ensures b <==> GetPluginEntry().Failure? || GetPluginEntry().value.Some?
    {
      exception.Some? || pluginEntry.Some?
    }

    /** getPluginEntry(): rethrows the stored exception, else the entry (null when there is none). */
    function GetPluginEntry(): (r: Result<Option<PluginEntry>, string>)
      reads this
      ensures r.Failure? <==> exception.Some?
      ensures r.Failure? ==> r.error == exception.value
      ensures r.Success? ==> r.value == pluginEntry
    {
      if exception.Some? then Failure(exception.value) else Success(pluginEntry)
    }
  }
}
