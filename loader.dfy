/**
 * Loader: resolves a template slug to a file and includes it. The file is
 * looked up first in the storage shared by all loaders, then in the theme
 * (locate_template) and, when the 'tmploader_use_plugin' filter allows it,
 * under the plugin directory; the first candidate that exists there wins.
 */
module TemplateLoader {
  import opened Wrappers
  import opened Sanitizer
  import opened Storage
  import opened Host

  /** The string-or-array argument of pluginFilePath; Other is any other PHP value. */
  datatype TPath = Single(path: string) | Many(items: seq<TPath>) | Other

  /** The template path given to the constructor and to setTemplatePath: null, a string or an array of strings. */
  datatype TemplateArg = NoPath | OnePath(path: string) | PathList(paths: seq<string>)

  /** One include of a template file, with the data it was rendered with. */
  datatype Inclusion = Inclusion(path: string, data: Option<Payload>)

  /** The exception render throws when the chosen path is not a file. */
  datatype LoaderError = TemplateNotFound(path: string)
  {
    /** The exception's message: the fixed text around the path render could not find. */
    function Message(): (m: string)
      ensures |m| == |path| + 48
      ensures m[..47] == "Template Loader: No way to locate the template "
      ensures m[47..47 + |path|] == path && m[47 + |path|..] == "."
    {
      "Template Loader: No way to locate the template " + path + "."
    }
  }

  /** The message names the path render looked for: different paths give different messages. */
  lemma MessageIdentifiesPath(a: string, b: string)
    ensures TemplateNotFound(a).Message() == TemplateNotFound(b).Message() ==> a == b
  {
    var m := TemplateNotFound(a).Message();
    if m == TemplateNotFound(b).Message() {
      assert |a| == |b|;
      assert a == m[47..47 + |a|];
    }
  }

  /** PHP's (array) cast: null becomes [], a string a one-element array, an array itself. */
  function AsList(arg: TemplateArg): (r: seq<string>)
    ensures arg.PathList? ==> r == arg.paths
    ensures arg.NoPath? ==> r == []
    ensures arg.OnePath? ==> r == [arg.path]
  {
    match arg
    case NoPath => []
    case OnePath(p) => [p]
    case PathList(ps) => ps
  }

  /** array_map of sanitizePathRegExp over the candidates. */
  function SanitizeAll(paths: seq<string>): (r: seq<string>)
    ensures |r| == |paths|
    ensures forall i :: 0 <= i < |r| ==> r[i] == SanitizePathRegExp(paths[i])
  {
    seq(|paths|, i requires 0 <= i < |paths| => SanitizePathRegExp(paths[i]))
  }

  /** What the loader keeps as candidates: only path characters, and no "..". */
  ghost predicate AllSanitized(paths: seq<string>) {
    forall i :: 0 <= i < |paths| ==> AllChars(paths[i], IsPathChar) && !ContainsDotDot(paths[i])
  }

  lemma SanitizeAllIsSanitized(paths: seq<string>)
    ensures AllSanitized(SanitizeAll(paths))
  {
  }

  /** The candidate list as the array pluginFilePath receives. */
  function AsTPath(paths: seq<string>): (t: TPath)
    ensures t.Many? && |t.items| == |paths|
    ensures forall i :: 0 <= i < |paths| ==> t.items[i] == Single(paths[i])
  {
    Many(seq(|paths|, i requires 0 <= i < |paths| => Single(paths[i])))
  }

  // ---------------------------------------------------------------------------
  // pluginFilePath
  // ---------------------------------------------------------------------------

  /**
   * The value pluginFilePath returns: a string goes through the plugin-dir
   * resolver; an array yields the first item whose value is a file, or the
   * value of its last item when none is ("" for an empty array); anything
   * else yields "".
   */
  function Resolve(host: Host, t: TPath): (r: string)
    ensures r == "" || r in Candidates(host, t)
    decreases t
  {
    match t
    case Single(p) => host.pluginDirPath(p)
    case Many(items) => ResolveList(host, items, "")
    case Other => ""
  }

  /** The foreach of pluginFilePath over items, after an item whose value was last. */
  function ResolveList(host: Host, items: seq<TPath>, last: string): (r: string)
    ensures r == "" || r == last || r in CandidatesList(host, items)
    decreases items
  {
    if items == [] then last
    else
      var p := Resolve(host, items[0]);
      if host.FileExists(p) then p else ResolveList(host, items[1..], p)
  }

  /** The plugin-dir resolutions of the strings in t, depth first and in order. */
  function Candidates(host: Host, t: TPath): seq<string>
    decreases t
  {
    match t
    case Single(p) => [host.pluginDirPath(p)]
    case Many(items) => CandidatesList(host, items)
    case Other => []
  }

  function CandidatesList(host: Host, items: seq<TPath>): seq<string>
    decreases items
  {
    if items == [] then [] else Candidates(host, items[0]) + CandidatesList(host, items[1..])
  }

  /** The first candidate that is a file, if any: the reference for pluginFilePath. */
  function FirstExisting(host: Host, candidates: seq<string>): (r: Option<string>)
    ensures r.Some? ==> r.value in candidates && host.FileExists(r.value)
    ensures r.None? ==> forall i :: 0 <= i < |candidates| ==> !host.FileExists(candidates[i])
  {
    if candidates == [] then None
    else if host.FileExists(candidates[0]) then Some(candidates[0])
    else FirstExisting(host, candidates[1..])
  }

  lemma {:induction false} FirstExistingConcat(host: Host, a: seq<string>, b: seq<string>)
    ensures FirstExisting(host, a + b) == if FirstExisting(host, a).Some? then FirstExisting(host, a) else FirstExisting(host, b)
    decreases |a|
  {
    if a == [] {
      assert a + b == b;
    } else {
      assert (a + b)[0] == a[0] && (a + b)[1..] == a[1..] + b;
      FirstExistingConcat(host, a[1..], b);
    }
  }

  /**
   * pluginFilePath finds the first candidate, in depth-first order, that is
   * a file; when no candidate is a file its result is not a file either.
   */
  lemma {:induction false} ResolveMatchesReference(host: Host, t: TPath)
    ensures FirstExisting(host, Candidates(host, t)).Some? ==> Resolve(host, t) == FirstExisting(host, Candidates(host, t)).value
    ensures FirstExisting(host, Candidates(host, t)).None? ==> !host.FileExists(Resolve(host, t))
    decreases t
  {
    match t
    case Single(p) =>
    case Many(items) =>
      ResolveListMatchesReference(host, items, "");
    case Other =>
  }

  lemma {:induction false} ResolveListMatchesReference(host: Host, items: seq<TPath>, last: string)
    requires !host.FileExists(last)
    ensures FirstExisting(host, CandidatesList(host, items)).Some? ==> ResolveList(host, items, last) == FirstExisting(host, CandidatesList(host, items)).value
    ensures FirstExisting(host, CandidatesList(host, items)).None? ==> !host.FileExists(ResolveList(host, items, last))
    decreases items
  {
    if items != [] {
      var p := Resolve(host, items[0]);
      ResolveMatchesReference(host, items[0]);
      FirstExistingConcat(host, Candidates(host, items[0]), CandidatesList(host, items[1..]));
      if !host.FileExists(p) {
        ResolveListMatchesReference(host, items[1..], p);
      }
    }
  }

  /** pluginFilePath of an empty array is "", and of a string is its plugin-dir resolution. */
  lemma ResolveBaseCases(host: Host, p: string)
    ensures Resolve(host, Many([])) == ""
    ensures Resolve(host, Single(p)) == host.pluginDirPath(p)
    ensures Resolve(host, Many([Single(p)])) == host.pluginDirPath(p)
  {
    var items := [Single(p)];
    assert items[0] == Single(p) && items[1..] == [];
    assert ResolveList(host, items, "") == ResolveList(host, [], host.pluginDirPath(p)) || host.FileExists(host.pluginDirPath(p));
  }

  /**
   * pluginFilePath: a foreach over an array that stops at the first item
   * whose value is a file, recursing into each item.
   */
  method PluginFilePath(host: Host, tmplPath: TPath) returns (path: string)
    ensures path == Resolve(host, tmplPath)
    decreases tmplPath
  {
    path := "";
    match tmplPath {
      case Many(items) =>
        var i := 0;
        while i < |items|
          invariant 0 <= i <= |items|
          invariant !host.FileExists(path)
          invariant ResolveList(host, items, "") == ResolveList(host, items[i..], path)
        {
          assert items[i..][0] == items[i] && items[i..][1..] == items[i + 1..];
          path := PluginFilePath(host, items[i]);
          if host.FileExists(path) {
            break;
          }
          i := i + 1;
        }
      case Single(p) =>
        path := host.pluginDirPath(p);
      case Other =>
    }
  }

  // ---------------------------------------------------------------------------
  // getFilePath and render, as functions of the state they read
  // ---------------------------------------------------------------------------

  /**
   * The path getFilePath returns for these candidates: the theme's result,
   * unless it is falsy and the 'tmploader_use_plugin' filter answers 'yes',
   * in which case the plugin search's result.
   */
  function LocatedPath(host: Host, paths: seq<string>): (r: string)
    ensures r == host.locateTemplate(paths) || r == "" || r in Candidates(host, AsTPath(paths))
  {
    var located := host.locateTemplate(paths);
    if !Truthy(located) && host.usePlugin(located) == "yes" then Resolve(host, AsTPath(paths)) else located
  }

  /** The theme wins whenever it finds something; the plugin is searched only when it finds nothing and the filter says 'yes'. */
  lemma LocatedPathTiers(host: Host, paths: seq<string>)
    ensures Truthy(host.locateTemplate(paths)) ==> LocatedPath(host, paths) == host.locateTemplate(paths)
    ensures host.usePlugin(host.locateTemplate(paths)) != "yes" ==> LocatedPath(host, paths) == host.locateTemplate(paths)
    ensures !Truthy(host.locateTemplate(paths)) && host.usePlugin(host.locateTemplate(paths)) == "yes" ==>
              LocatedPath(host, paths) == Resolve(host, AsTPath(paths))
  {
  }

  /**
   * When the theme finds nothing and the plugin search is allowed, getFilePath
   * yields the first candidate that is a plugin file, if one is.
   */
  lemma LocatedPathFromPlugin(host: Host, paths: seq<string>, k: nat)
    requires !Truthy(host.locateTemplate(paths)) && host.usePlugin(host.locateTemplate(paths)) == "yes"
    requires k < |paths| && host.FileExists(host.pluginDirPath(paths[k]))
    requires forall j :: 0 <= j < k ==> !host.FileExists(host.pluginDirPath(paths[j]))
    ensures LocatedPath(host, paths) == host.pluginDirPath(paths[k])
  {
    var t := AsTPath(paths);
    ResolveMatchesReference(host, t);
    CandidatesOfList(host, paths);
    FirstExistingAt(host, CandidatesList(host, t.items), k);
  }

  /** The candidates of a list of strings are their resolutions, one each. */
  lemma {:induction false} CandidatesOfList(host: Host, paths: seq<string>)
    ensures |CandidatesList(host, AsTPath(paths).items)| == |paths|
    ensures forall i :: 0 <= i < |paths| ==> CandidatesList(host, AsTPath(paths).items)[i] == host.pluginDirPath(paths[i])
    decreases |paths|
  {
    if paths != [] {
      var items := AsTPath(paths).items;
      assert items[1..] == AsTPath(paths[1..]).items;
      CandidatesOfList(host, paths[1..]);
    }
  }

  lemma {:induction false} FirstExistingAt(host: Host, c: seq<string>, k: nat)
    requires k < |c| && host.FileExists(c[k])
    requires forall j :: 0 <= j < k ==> !host.FileExists(c[j])
    ensures FirstExisting(host, c) == Some(c[k])
    decreases k
  {
    if k > 0 {
      FirstExistingAt(host, c[1..], k - 1);
    }
  }

  /** The path render checks: the stored one when the slug is set in the storage, getFilePath's otherwise. */
  function ChosenPath(host: Host, cache: map<string, Value>, slug: string, paths: seq<string>): (r: string)
    ensures IsSet(cache, slug) ==> Get(cache, slug) == Success(Str(r))
    ensures !IsSet(cache, slug) ==> r == LocatedPath(host, paths)
  {
    if IsSet(cache, slug) then cache[slug].s else LocatedPath(host, paths)
  }

  /** The data the template receives: the general filter, then the per-slug filter. */
  function FilteredData(host: Host, data: Option<Payload>, slug: string): Option<Payload> {
    host.slugData(slug, host.engineData(data, slug))
  }

  /** With no data filters hooked, apply_filters hands the value back and the template gets the loader's own data. */
  lemma FilteredDataWithoutHooks(host: Host, data: Option<Payload>, slug: string)
    requires forall d, s :: host.engineData(d, s) == d
    requires forall s, d :: host.slugData(s, d) == d
    ensures FilteredData(host, data, slug) == data
  {
  }

  /**
   * What render returns: an exception when the chosen path is not a file,
   * otherwise the chosen path after the 'tmploader_template_file_path' filter.
   */
  function RenderResult(host: Host, cache: map<string, Value>, slug: string, paths: seq<string>, data: Option<Payload>): (r: Result<string, LoaderError>)
    ensures r.Failure? <==> !host.FileExists(ChosenPath(host, cache, slug, paths))
    ensures r.Failure? ==> r.error == TemplateNotFound(ChosenPath(host, cache, slug, paths))
    ensures r.Success? ==> r.value == host.filePathFilter(ChosenPath(host, cache, slug, paths), FilteredData(host, data, slug))
  {
    var filePath := ChosenPath(host, cache, slug, paths);
    if !host.FileExists(filePath) then Failure(TemplateNotFound(filePath))
    else Success(host.filePathFilter(filePath, FilteredData(host, data, slug)))
  }

  /** The storage after render: the filtered path stored under the slug on success, untouched on failure. */
  function CacheAfter(cache: map<string, Value>, slug: string, r: Result<string, LoaderError>): (c: map<string, Value>)
    ensures r.Failure? ==> c == cache
    ensures r.Success? ==> Get(c, slug) == Success(Str(r.value))
    ensures forall k :: k != slug ==> Get(c, k) == Get(cache, k)
  {
    if r.Success? then cache[slug := Str(r.value)] else cache
  }

  /** A cache hit fixes the path: neither the candidates nor the theme and plugin lookups matter. */
  lemma CacheHitIgnoresLookup(host: Host, other: Host, cache: map<string, Value>, slug: string, paths: seq<string>, otherPaths: seq<string>, data: Option<Payload>)
    requires IsSet(cache, slug)
    requires other.files == host.files && other.engineData == host.engineData
    requires other.slugData == host.slugData && other.filePathFilter == host.filePathFilter
    ensures ChosenPath(host, cache, slug, paths) == cache[slug].s
    ensures RenderResult(host, cache, slug, paths, data) == RenderResult(other, cache, slug, otherPaths, data)
  {
  }

  /** On a miss, render checks exactly the path getFilePath returns. */
  lemma CacheMissUsesLookup(host: Host, cache: map<string, Value>, slug: string, paths: seq<string>)
    requires !IsSet(cache, slug)
    ensures ChosenPath(host, cache, slug, paths) == LocatedPath(host, paths)
  {
  }

  /**
   * After a successful render the slug is a hit: a second render checks the
   * stored, filtered path, whatever candidates the loader has by then.
   */
  lemma SecondRenderHitsCache(host: Host, cache: map<string, Value>, slug: string, paths: seq<string>, data: Option<Payload>, newPaths: seq<string>)
    requires RenderResult(host, cache, slug, paths, data).Success?
    ensures ChosenPath(host, CacheAfter(cache, slug, RenderResult(host, cache, slug, paths, data)), slug, newPaths)
              == RenderResult(host, cache, slug, paths, data).value
  {
  }

  /**
   * The existence check comes before the path filter: render succeeds on a
   * path that is a file even when the filter maps it to one that is not.
   */
  lemma CheckPrecedesFilter(host: Host, cache: map<string, Value>, slug: string, paths: seq<string>, data: Option<Payload>)
    requires host.FileExists(ChosenPath(host, cache, slug, paths))
    ensures RenderResult(host, cache, slug, paths, data).Success?
    ensures !host.FileExists(host.filePathFilter(ChosenPath(host, cache, slug, paths), FilteredData(host, data, slug))) ==>
              !host.FileExists(RenderResult(host, cache, slug, paths, data).value)
  {
  }

  // ---------------------------------------------------------------------------
  // The Loader object
  // ---------------------------------------------------------------------------

  class Loader {
    /** The sanitized slug of this template. */
    const slug: string
    /** The shared storage of found paths, keyed by slug. */
    const dataStorage: DataStorage
    /** The sanitized candidate files. */
    var templatesPath: seq<string>
    /** The data for the template; null until setData. */
    var data: Option<Payload>
    /** Every include this loader performed, in order. */
    ghost var included: seq<Inclusion>

    /** What the constructor and setTemplatePath establish and every method keeps. */
    ghost predicate Valid()
      reads this
    {
      AllChars(slug, IsSlugChar) && AllSanitized(templatesPath)
    }

    constructor(slug0: string, storage: DataStorage, templatePath: TemplateArg)
      ensures slug == SanitizeSlugRegExp(slug0)
      ensures data == None
      ensures dataStorage == storage
      ensures templatesPath == SanitizeAll(AsList(templatePath))
      ensures included == []
      ensures Valid()
    {
      slug := SanitizeSlugRegExp(slug0);
      data := None;
      dataStorage := storage;
      templatesPath := [];
      included := [];
      new;
      SetTemplatePath(templatePath);
    }

    method SetData(d: Payload)
      requires Valid()
      modifies this
      ensures data == Some(d)
      ensures templatesPath == old(templatesPath) && included == old(included)
      ensures Valid()
    {
      data := Some(d);
    }

    /**
     * setTemplatePath: the argument cast to an array, then every item
     * sanitized, keeping the order.
     */
    method SetTemplatePath(templatePath: TemplateArg)
      requires Valid()
      modifies this
      ensures templatesPath == SanitizeAll(AsList(templatePath))
      ensures templatePath.NoPath? ==> templatesPath == []
      ensures templatePath.OnePath? ==> templatesPath == [SanitizePathRegExp(templatePath.path)]
      ensures data == old(data) && included == old(included)
      ensures Valid()
    {
      templatesPath := SanitizeAll(AsList(templatePath));
      SanitizeAllIsSanitized(AsList(templatePath));
    }

    function GetTemplatePath(): seq<string>
      reads this
    {
      templatesPath
    }

    /** getFilePath: the theme first, then, if permitted, the plugin directory. */
    method GetFilePath(host: Host) returns (filePath: string)
      ensures filePath == LocatedPath(host, templatesPath)
      ensures Truthy(host.locateTemplate(templatesPath)) ==> filePath == host.locateTemplate(templatesPath)
    {
      filePath := host.locateTemplate(templatesPath);
      var usePlugin := host.usePlugin(filePath);
      if !Truthy(filePath) && usePlugin == "yes" {
        filePath := PluginFilePath(host, AsTPath(templatesPath));
      }
    }

    /**
     * render: the stored path for the slug, or getFilePath's; an exception
     * when that is not a file; otherwise the data and the path filters, the
     * include, and the filtered path stored under the slug and returned.
     */
    method Render(host: Host) returns (r: Result<string, LoaderError>)
      requires Valid()
      modifies this, dataStorage
      ensures r == RenderResult(host, old(dataStorage.data), slug, templatesPath, data)
      ensures dataStorage.data == CacheAfter(old(dataStorage.data), slug, r)
      ensures r.Failure? ==> included == old(included)
      ensures r.Success? ==> included == old(included) + [Inclusion(r.value, FilteredData(host, data, slug))]
      ensures templatesPath == old(templatesPath) && data == old(data)
      ensures Valid()
    {
      var filePath: string;
      if dataStorage.OffsetExists(slug) {
        var stored := dataStorage.OffsetGet(slug);
        filePath := stored.value.s;
      } else {
        filePath := GetFilePath(host);
      }
      if !host.FileExists(filePath) {
        return Failure(TemplateNotFound(filePath));
      }
      var d := host.engineData(data, slug);
      d := host.slugData(slug, d);
      filePath := host.filePathFilter(filePath, d);
      included := included + [Inclusion(filePath, d)];
      dataStorage.OffsetSet(slug, Str(filePath));
      r := Success(filePath);
    }
  }

  /**
   * Two loaders with the same slug on one storage: once the first has
   * rendered, the second renders the stored path, whatever its own
   * candidates are.
   */
  method SharedStorageScenario(host: Host, storage: DataStorage, slug0: string, first: TemplateArg, second: TemplateArg)
    returns (r1: Result<string, LoaderError>, r2: Result<string, LoaderError>)
    modifies storage
    ensures r1.Success? && host.FileExists(r1.value) ==>
              r2 == Success(host.filePathFilter(r1.value, FilteredData(host, None, SanitizeSlugRegExp(slug0))))
    ensures r1.Success? && !host.FileExists(r1.value) ==> r2 == Failure(TemplateNotFound(r1.value))
  {
    var a := new Loader(slug0, storage, first);
    r1 := a.Render(host);
    var b := new Loader(slug0, storage, second);
    r2 := b.Render(host);
  }
}
