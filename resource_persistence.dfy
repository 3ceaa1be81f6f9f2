/**
 * ResourceModelPersistenceAdapter: saving resource mappings into a memento
 * as "resources" and "workingSets" child records, and restoring them.
 * Workspace lookups and the working-set manager are partial functions of a
 * Workspace value; the memento is an object whose list of children grows.
 */
module ResourcePersistence {
  import opened Wrappers

  // IResource type constants
  const FILE: int := 1
  const FOLDER: int := 2
  const PROJECT: int := 4
  const ROOT: int := 8

  // memento keys
  const RESOURCES: string := "resources"
  const RESOURCE_PATH: string := "resourcePath"
  const RESOURCE_TYPE: string := "resourceType"
  const WORKING_SETS: string := "workingSets"
  const WORKING_SET_NAME: string := "workingSetName"

  /** An absolute workspace path, as its segments. */
  type Path = seq<string>

  /** A segment as a path can hold it: not empty and free of separators. */
  predicate ValidSegment(seg: string)
  {
    seg != [] && '/' !in seg
  }

  predicate ValidPath(p: Path)
  {
    forall k | 0 <= k < |p| :: ValidSegment(p[k])
  }

  /** Each segment preceded by a separator. */
  function JoinSegments(p: Path): string
  {
    if p == [] then "" else "/" + p[0] + JoinSegments(p[1..])
  }

  /** IPath.toString of an absolute path; the workspace root is "/". */
  function PathToString(p: Path): (s: string)
    ensures s != [] && s[0] == '/'
  {
    if p == [] then "/" else JoinSegments(p)
  }

  /** The length of the segment at the head of s. */
  function SegmentLength(s: string): (n: nat)
    ensures n <= |s|
    ensures forall k | 0 <= k < n :: s[k] != '/'
    ensures n == |s| || s[n] == '/'
  {
    if s == [] || s[0] == '/' then 0 else 1 + SegmentLength(s[1..])
  }

  /** new Path(s): the segments between separators, empty ones dropped. */
  function ParsePath(s: string): (p: Path)
    ensures ValidPath(p)
    decreases |s|
  {
    if s == [] then []
    else if s[0] == '/' then ParsePath(s[1..])
    else
      var n := SegmentLength(s);
      assert '/' !in s[..n] by {
        forall k | 0 <= k < n ensures s[..n][k] != '/' { }
      }
      [s[..n]] + ParsePath(s[n..])
  }

  /** IPath.lastSegment(): none for the root path. */
  function LastSegment(p: Path): (r: Option<string>)
    ensures r.None? <==> p == []
    ensures r.Some? ==> r.value == p[|p| - 1]
  {
    if p == [] then None else Some(p[|p| - 1])
  }

  datatype Resource = Resource(kind: int, fullPath: Path)

  datatype WorkingSet = WorkingSet(name: string)

  /** What a mapping's getModelObject() can be. */
  datatype ModelObject =
    | ResourceObject(resource: Resource)
    | WorkingSetObject(workingSet: WorkingSet)
    | OtherObject(id: string)

  datatype Mapping = Mapping(modelObject: ModelObject)

  /** A child record of the memento: its type and its typed attributes. */
  datatype Child = Child(childType: string, integers: map<string, int>, strings: map<string, string>)

  /**
   * The workspace as restore sees it: the root, handles by project name
   * (given lastSegment(), which may be null), file and folder handles by
   * path, working sets by name and the mapping adapted from a model object.
   */
  datatype Workspace = Workspace(
    root: Resource,
    project: Option<string> -> Option<Resource>,
    file: Path -> Option<Resource>,
    folder: Path -> Option<Resource>,
    workingSet: string -> Option<WorkingSet>,
    mappingOf: ModelObject -> Option<Mapping>)

  /** The memento restore reads and save appends to. */
  class Memento {
    var children: seq<Child>

    constructor ()
      ensures children == []
    {
      children := [];
    }

    /** Appends a complete child record. */
    method AddChild(c: Child)
      modifies this
      ensures children == old(children) + [c]
    {
      children := children + [c];
    }

    /** getChildren(type): the children of that type, in order. */
    method GetChildren(childType: string) returns (cs: seq<Child>)
      ensures cs == ChildrenOf(children, childType)
      ensures forall c | c in cs :: c.childType == childType
    {
      cs := [];
      for i := 0 to |children|
        invariant cs == ChildrenOf(children[..i], childType)
      {
        ChildrenOfAppend(children[..i], [children[i]], childType);
        assert children[..i + 1] == children[..i] + [children[i]];
        cs := if children[i].childType == childType then cs + [children[i]] else cs;
      }
      assert children[..|children|] == children;
      ChildrenOfType(children, childType);
    }
  }

  /** The children of one type, in order. */
  function ChildrenOf(cs: seq<Child>, childType: string): seq<Child>
  {
    if cs == [] then []
    else (if cs[0].childType == childType then [cs[0]] else []) + ChildrenOf(cs[1..], childType)
  }

  lemma {:induction false} ChildrenOfType(cs: seq<Child>, childType: string)
    ensures forall c | c in ChildrenOf(cs, childType) :: c.childType == childType
  {
    if cs != [] {
      ChildrenOfType(cs[1..], childType);
    }
  }

  lemma {:induction false} ChildrenOfAppend(a: seq<Child>, b: seq<Child>, childType: string)
    ensures ChildrenOf(a + b, childType) == ChildrenOf(a, childType) + ChildrenOf(b, childType)
  {
    if a == [] {
      assert a + b == b;
    } else {
      var head := if a[0].childType == childType then [a[0]] else [];
      assert (a + b)[0] == a[0] && (a + b)[1..] == a[1..] + b;
      assert ChildrenOf(a + b, childType) == head + ChildrenOf(a[1..] + b, childType);
      ChildrenOfAppend(a[1..], b, childType);
      assert ChildrenOf(a, childType) == head + ChildrenOf(a[1..], childType);
    }
  }

  /** The child record save writes for a mapping, if any. */
  function SaveChild(m: Mapping): (r: Option<Child>)
    ensures m.modelObject.OtherObject? <==> r.None?
    ensures m.modelObject.ResourceObject? ==>
      r.value.childType == RESOURCES && RESOURCE_TYPE in r.value.integers && RESOURCE_PATH in r.value.strings &&
      r.value.integers[RESOURCE_TYPE] == m.modelObject.resource.kind &&
      r.value.strings[RESOURCE_PATH] == PathToString(m.modelObject.resource.fullPath)
    ensures m.modelObject.WorkingSetObject? ==>
      r.value.childType == WORKING_SETS && WORKING_SET_NAME in r.value.strings &&
      r.value.strings[WORKING_SET_NAME] == m.modelObject.workingSet.name
  {
    match m.modelObject
    case ResourceObject(res) =>
      Some(Child(RESOURCES, map[RESOURCE_TYPE := res.kind], map[RESOURCE_PATH := PathToString(res.fullPath)]))
    case WorkingSetObject(wset) =>
      Some(Child(WORKING_SETS, map[], map[WORKING_SET_NAME := wset.name]))
    case OtherObject(_) => None
  }

  /** The children save appends, in mapping order. */
  function Saved(ms: seq<Mapping>): seq<Child>
  {
    if ms == [] then []
    else (if SaveChild(ms[0]).Some? then [SaveChild(ms[0]).value] else []) + Saved(ms[1..])
  }

  /** The mappings whose model object is a resource, in order. */
  function ResourceMappings(ms: seq<Mapping>): seq<Mapping>
  {
    if ms == [] then []
    else (if ms[0].modelObject.ResourceObject? then [ms[0]] else []) + ResourceMappings(ms[1..])
  }

  /** The mappings whose model object is a working set, in order. */
  function WorkingSetMappings(ms: seq<Mapping>): seq<Mapping>
  {
    if ms == [] then []
    else (if ms[0].modelObject.WorkingSetObject? then [ms[0]] else []) + WorkingSetMappings(ms[1..])
  }

  /** Saving from the i-th mapping on: that mapping's child, if any, then the rest. */
  lemma SavedAt(ms: seq<Mapping>, i: nat)
    requires i < |ms|
    ensures Saved(ms[i..]) ==
      (if SaveChild(ms[i]).Some? then [SaveChild(ms[i]).value] else []) + Saved(ms[i + 1..])
  {
    assert ms[i..][0] == ms[i] && ms[i..][1..] == ms[i + 1..];
  }

  /** save(mappings, memento). */
  method Save(mappings: seq<Mapping>, memento: Memento)
    modifies memento
    ensures memento.children == old(memento.children) + Saved(mappings)
  {
    for i := 0 to |mappings|
      invariant memento.children + Saved(mappings[i..]) == old(memento.children) + Saved(mappings)
    {
      SavedAt(mappings, i);
      match mappings[i].modelObject {
        case ResourceObject(res) =>
          var child := Child(RESOURCES, map[], map[]);
          child := child.(integers := child.integers[RESOURCE_TYPE := res.kind]);
          child := child.(strings := child.strings[RESOURCE_PATH := PathToString(res.fullPath)]);
          assert child == SaveChild(mappings[i]).value;
          memento.AddChild(child);
        case WorkingSetObject(wset) =>
          var child := Child(WORKING_SETS, map[], map[]);
          child := child.(strings := child.strings[WORKING_SET_NAME := wset.name]);
          assert child == SaveChild(mappings[i]).value;
          memento.AddChild(child);
        case OtherObject(_) =>
      }
    }
    assert mappings[|mappings|..] == [];
  }

  /** What reading one child contributes: the end of its section, nothing, or a mapping. */
  datatype Read = Stop | Skip | Emit(mapping: Mapping)

  predicate KnownType(kind: int)
  {
    kind == ROOT || kind == PROJECT || kind == FILE || kind == FOLDER
  }

  /** The switch on the type: the resource handle a type and a path denote. */
  function ResourceFor(ws: Workspace, kind: int, path: Path): (r: Option<Resource>)
    ensures !KnownType(kind) ==> r.None?
    ensures kind == PROJECT ==> r == ws.project(LastSegment(path))
  {
    if kind == ROOT then Some(ws.root)
    else if kind == PROJECT then ws.project(LastSegment(path))
    else if kind == FILE then ws.file(path)
    else if kind == FOLDER then ws.folder(path)
    else None
  }

  /** One child of the resources section. */
  function ReadResource(ws: Workspace, c: Child): (r: Read)
    ensures r == Stop <==> RESOURCE_TYPE !in c.integers || RESOURCE_PATH !in c.strings
    ensures r.Emit? ==> KnownType(c.integers[RESOURCE_TYPE])
  {
    if RESOURCE_TYPE !in c.integers || RESOURCE_PATH !in c.strings then Stop
    else
      match ResourceFor(ws, c.integers[RESOURCE_TYPE], ParsePath(c.strings[RESOURCE_PATH]))
      case None => Skip
      case Some(res) =>
        match ws.mappingOf(ResourceObject(res))
        case None => Skip
        case Some(m) => Emit(m)
  }

  /** One child of the working-sets section. */
  function ReadWorkingSet(ws: Workspace, c: Child): (r: Read)
    ensures r == Stop <==> WORKING_SET_NAME !in c.strings
    ensures WORKING_SET_NAME in c.strings && ws.workingSet(c.strings[WORKING_SET_NAME]).None? ==> r == Skip
  {
    if WORKING_SET_NAME !in c.strings then Stop
    else
      match ws.workingSet(c.strings[WORKING_SET_NAME])
      case None => Skip
      case Some(wset) =>
        match ws.mappingOf(WorkingSetObject(wset))
        case None => Skip
        case Some(m) => Emit(m)
  }

  function ResourceReads(ws: Workspace, cs: seq<Child>): (rs: seq<Read>)
    ensures |rs| == |cs| && forall k | 0 <= k < |cs| :: rs[k] == ReadResource(ws, cs[k])
  {
    seq(|cs|, k requires 0 <= k < |cs| => ReadResource(ws, cs[k]))
  }

  function WorkingSetReads(ws: Workspace, cs: seq<Child>): (rs: seq<Read>)
    ensures |rs| == |cs| && forall k | 0 <= k < |cs| :: rs[k] == ReadWorkingSet(ws, cs[k])
  {
    seq(|cs|, k requires 0 <= k < |cs| => ReadWorkingSet(ws, cs[k]))
  }

  /** The mappings a section yields: reading ends at the first Stop. */
  function Collect(rs: seq<Read>): seq<Mapping>
  {
    if rs == [] then []
    else
      match rs[0]
      case Stop => []
      case Skip => Collect(rs[1..])
      case Emit(m) => [m] + Collect(rs[1..])
  }

  /** Reading a section from its i-th child on: what that child's read contributes, then the rest. */
  lemma CollectAt(rs: seq<Read>, i: nat)
    requires i < |rs|
    ensures rs[i] == Stop ==> Collect(rs[i..]) == []
    ensures rs[i] == Skip ==> Collect(rs[i..]) == Collect(rs[i + 1..])
    ensures rs[i].Emit? ==> Collect(rs[i..]) == [rs[i].mapping] + Collect(rs[i + 1..])
  {
    assert rs[i..][0] == rs[i] && rs[i..][1..] == rs[i + 1..];
  }

  /** restore(memento): the resources section, then the working-sets section. */
  function RestoreAll(ws: Workspace, children: seq<Child>): seq<Mapping>
  {
    Collect(ResourceReads(ws, ChildrenOf(children, RESOURCES))) +
    Collect(WorkingSetReads(ws, ChildrenOf(children, WORKING_SETS)))
  }

  /** restore(memento). */
  method Restore(ws: Workspace, memento: Memento) returns (result: seq<Mapping>)
    ensures result == RestoreAll(ws, memento.children)
  {
    var children := memento.GetChildren(RESOURCES);
    result := RestoreResources(ws, children);
    children := memento.GetChildren(WORKING_SETS);
    var sets := RestoreWorkingSets(ws, children);
    result := result + sets;
  }

  /** The first loop of restore: the resources section. */
  method RestoreResources(ws: Workspace, children: seq<Child>) returns (result: seq<Mapping>)
    ensures result == Collect(ResourceReads(ws, children))
  {
    ghost var sectionReads := ResourceReads(ws, children);
    result := [];
    var i := 0;
    while i < |children|
      invariant 0 <= i <= |children|
      invariant result + Collect(sectionReads[i..]) == Collect(sectionReads)
    {
      CollectAt(sectionReads, i);
      var child := children[i];
      assert sectionReads[i] == ReadResource(ws, child);
      if RESOURCE_TYPE !in child.integers {
        break;
      }
      var kind := child.integers[RESOURCE_TYPE];
      if RESOURCE_PATH !in child.strings {
        break;
      }
      var path := ParsePath(child.strings[RESOURCE_PATH]);
      var resource := ResourceFor(ws, kind, path);
      if resource.Some? {
        var mapping := ws.mappingOf(ResourceObject(resource.value));
        if mapping.Some? {
          result := result + [mapping.value];
        }
      }
      i := i + 1;
    }
  }

  /** The second loop of restore: the working-sets section. */
  method RestoreWorkingSets(ws: Workspace, children: seq<Child>) returns (result: seq<Mapping>)
    ensures result == Collect(WorkingSetReads(ws, children))
  {
    ghost var sectionReads := WorkingSetReads(ws, children);
    result := [];
    var i := 0;
    while i < |children|
      invariant 0 <= i <= |children|
      invariant result + Collect(sectionReads[i..]) == Collect(sectionReads)
    {
      CollectAt(sectionReads, i);
      var child := children[i];
      assert sectionReads[i] == ReadWorkingSet(ws, child);
      if WORKING_SET_NAME !in child.strings {
        break;
      }
      var found := ws.workingSet(child.strings[WORKING_SET_NAME]);
      if found.Some? {
        var mapping := ws.mappingOf(WorkingSetObject(found.value));
        if mapping.Some? {
          result := result + [mapping.value];
        }
      }
      i := i + 1;
    }
  }

  // ---------------------------------------------------------------------
  // Properties of restore

  /** A section ends at its first Stop: what follows it is never read. */
  lemma {:induction false} CollectEndsAtStop(rs: seq<Read>, k: nat)
    requires k < |rs| && rs[k] == Stop
    ensures Collect(rs) == Collect(rs[..k])
  {
    if k == 0 {
      assert rs[..0] == [];
    } else {
      assert rs[..k][0] == rs[0] && rs[..k][1..] == rs[1..][..k - 1];
      CollectEndsAtStop(rs[1..], k - 1);
    }
  }

  /** A Skip contributes nothing and does not end the section. */
  lemma {:induction false} CollectIgnoresSkip(rs: seq<Read>, k: nat)
    requires k < |rs| && rs[k] == Skip
    ensures Collect(rs) == Collect(rs[..k] + rs[k + 1..])
  {
    if k == 0 {
      assert rs[..0] + rs[1..] == rs[1..];
    } else {
      var rest := rs[1..];
      assert (rs[..k] + rs[k + 1..])[0] == rs[0];
      assert (rs[..k] + rs[k + 1..])[1..] == rest[..k - 1] + rest[k..];
      CollectIgnoresSkip(rest, k - 1);
    }
  }

  /**
   * The resources section ends at the first child missing its type or its
   * path; the children after it are not restored, even well-formed ones.
   */
  lemma RestoreStopsAtMalformedResource(ws: Workspace, cs: seq<Child>, k: nat)
    requires k < |cs| && (RESOURCE_TYPE !in cs[k].integers || RESOURCE_PATH !in cs[k].strings)
    ensures Collect(ResourceReads(ws, cs)) == Collect(ResourceReads(ws, cs[..k]))
  {
    CollectEndsAtStop(ResourceReads(ws, cs), k);
    assert ResourceReads(ws, cs)[..k] == ResourceReads(ws, cs[..k]);
  }

  /** A well-formed child of an unknown type yields nothing and reading goes on. */
  lemma RestoreSkipsUnknownType(ws: Workspace, cs: seq<Child>, k: nat)
    requires k < |cs| && RESOURCE_TYPE in cs[k].integers && RESOURCE_PATH in cs[k].strings
    requires !KnownType(cs[k].integers[RESOURCE_TYPE])
    ensures Collect(ResourceReads(ws, cs)) == Collect(ResourceReads(ws, cs[..k] + cs[k + 1..]))
  {
    CollectIgnoresSkip(ResourceReads(ws, cs), k);
    assert ResourceReads(ws, cs)[..k] + ResourceReads(ws, cs)[k + 1..] == ResourceReads(ws, cs[..k] + cs[k + 1..]);
  }

  /** A PROJECT child is restored from the last segment of its path alone. */
  lemma ProjectFromLastSegment(ws: Workspace, c1: Child, c2: Child)
    requires RESOURCE_TYPE in c1.integers && RESOURCE_PATH in c1.strings
    requires RESOURCE_TYPE in c2.integers && RESOURCE_PATH in c2.strings
    requires c1.integers[RESOURCE_TYPE] == PROJECT == c2.integers[RESOURCE_TYPE]
    requires LastSegment(ParsePath(c1.strings[RESOURCE_PATH])) == LastSegment(ParsePath(c2.strings[RESOURCE_PATH]))
    ensures ReadResource(ws, c1) == ReadResource(ws, c2)
  {
  }

  /** The working-sets section ends at the first child without a name. */
  lemma RestoreStopsAtUnnamedWorkingSet(ws: Workspace, cs: seq<Child>, k: nat)
    requires k < |cs| && WORKING_SET_NAME !in cs[k].strings
    ensures Collect(WorkingSetReads(ws, cs)) == Collect(WorkingSetReads(ws, cs[..k]))
  {
    CollectEndsAtStop(WorkingSetReads(ws, cs), k);
    assert WorkingSetReads(ws, cs)[..k] == WorkingSetReads(ws, cs[..k]);
  }

  /** A name with no working set yields nothing and reading goes on. */
  lemma RestoreSkipsUnknownWorkingSet(ws: Workspace, cs: seq<Child>, k: nat)
    requires k < |cs| && WORKING_SET_NAME in cs[k].strings && ws.workingSet(cs[k].strings[WORKING_SET_NAME]).None?
    ensures Collect(WorkingSetReads(ws, cs)) == Collect(WorkingSetReads(ws, cs[..k] + cs[k + 1..]))
  {
    CollectIgnoresSkip(WorkingSetReads(ws, cs), k);
    assert WorkingSetReads(ws, cs)[..k] + WorkingSetReads(ws, cs)[k + 1..] == WorkingSetReads(ws, cs[..k] + cs[k + 1..]);
  }

  // ---------------------------------------------------------------------
  // Properties of save and the round trip

  /** Paths print and parse back to themselves. */
  lemma {:induction false} PathRoundTrip(p: Path)
    requires ValidPath(p)
    ensures ParsePath(PathToString(p)) == p
  {
    if p != [] {
      JoinRoundTrip(p);
    }
  }

  lemma {:induction false} JoinRoundTrip(p: Path)
    requires ValidPath(p)
    ensures ParsePath(JoinSegments(p)) == p
  {
    if p != [] {
      var seg, rest := p[0], JoinSegments(p[1..]);
      var s := seg + rest;
      assert JoinSegments(p) == "/" + s;
      assert ("/" + s)[1..] == s;
      SegmentPrefix(seg, rest);
      assert s[..|seg|] == seg && s[|seg|..] == rest;
      JoinRoundTrip(p[1..]);
    }
  }

  /** The segment at the head of seg + rest is seg, when rest starts a new segment. */
  lemma {:induction false} SegmentPrefix(seg: string, rest: string)
    requires '/' !in seg
    requires rest == [] || rest[0] == '/'
    ensures SegmentLength(seg + rest) == |seg|
  {
    if seg != [] {
      assert (seg + rest)[0] == seg[0];
      assert (seg + rest)[1..] == seg[1..] + rest;
      SegmentPrefix(seg[1..], rest);
    }
  }

  /** Save writes one resources child per resource mapping, with its type and full path, in order. */
  lemma {:induction false} SavedResources(ms: seq<Mapping>)
    ensures ChildrenOf(Saved(ms), RESOURCES) == Saved(ResourceMappings(ms))
  {
    if ms != [] {
      var head := if SaveChild(ms[0]).Some? then [SaveChild(ms[0]).value] else [];
      ChildrenOfAppend(head, Saved(ms[1..]), RESOURCES);
      SavedResources(ms[1..]);
      if ms[0].modelObject.ResourceObject? {
        assert ChildrenOf(head, RESOURCES) == head;
        SavedCons(ms[0], ResourceMappings(ms[1..]));
      } else {
        assert ChildrenOf(head, RESOURCES) == [];
        assert ResourceMappings(ms) == ResourceMappings(ms[1..]);
      }
    }
  }

  /** Save writes one workingSets child per working-set mapping, with its name, in order. */
  lemma {:induction false} SavedWorkingSets(ms: seq<Mapping>)
    ensures ChildrenOf(Saved(ms), WORKING_SETS) == Saved(WorkingSetMappings(ms))
  {
    if ms != [] {
      var head := if SaveChild(ms[0]).Some? then [SaveChild(ms[0]).value] else [];
      ChildrenOfAppend(head, Saved(ms[1..]), WORKING_SETS);
      SavedWorkingSets(ms[1..]);
      if ms[0].modelObject.WorkingSetObject? {
        assert ChildrenOf(head, WORKING_SETS) == head;
        SavedCons(ms[0], WorkingSetMappings(ms[1..]));
      } else {
        assert ChildrenOf(head, WORKING_SETS) == [];
        assert WorkingSetMappings(ms) == WorkingSetMappings(ms[1..]);
      }
    }
  }

  /** Other model objects write nothing. */
  lemma {:induction false} SavedCount(ms: seq<Mapping>)
    ensures |Saved(ms)| == |ResourceMappings(ms)| + |WorkingSetMappings(ms)|
  {
    if ms != [] {
      SavedCount(ms[1..]);
    }
  }

  /** The child of a leading mapping comes first. */
  lemma SavedCons(m: Mapping, ms: seq<Mapping>)
    ensures Saved([m] + ms) == (if SaveChild(m).Some? then [SaveChild(m).value] else []) + Saved(ms)
  {
    assert ([m] + ms)[0] == m && ([m] + ms)[1..] == ms;
  }

  /** The workspace resolves a saved mapping back to itself. */
  predicate FaithfulMapping(ws: Workspace, m: Mapping)
  {
    match m.modelObject
    case ResourceObject(res) =>
      ValidPath(res.fullPath) && ResourceFor(ws, res.kind, res.fullPath) == Some(res) &&
      ws.mappingOf(ResourceObject(res)) == Some(m)
    case WorkingSetObject(wset) =>
      ws.workingSet(wset.name) == Some(wset) && ws.mappingOf(WorkingSetObject(wset)) == Some(m)
    case OtherObject(_) => true
  }

  predicate Faithful(ws: Workspace, ms: seq<Mapping>)
  {
    ms == [] || (FaithfulMapping(ws, ms[0]) && Faithful(ws, ms[1..]))
  }

  lemma {:induction false} ResourcesRoundTrip(ws: Workspace, ms: seq<Mapping>)
    requires Faithful(ws, ms)
    ensures Collect(ResourceReads(ws, Saved(ResourceMappings(ms)))) == ResourceMappings(ms)
  {
    if ms != [] {
      ResourcesRoundTrip(ws, ms[1..]);
      if ms[0].modelObject.ResourceObject? {
        var res := ms[0].modelObject.resource;
        PathRoundTrip(res.fullPath);
        SavedCons(ms[0], ResourceMappings(ms[1..]));
        var cs := Saved(ResourceMappings(ms));
        assert cs[1..] == Saved(ResourceMappings(ms[1..]));
        assert ReadResource(ws, cs[0]) == Emit(ms[0]);
        assert ResourceReads(ws, cs)[1..] == ResourceReads(ws, cs[1..]);
      } else {
        assert ResourceMappings(ms) == ResourceMappings(ms[1..]);
      }
    }
  }

  lemma {:induction false} WorkingSetsRoundTrip(ws: Workspace, ms: seq<Mapping>)
    requires Faithful(ws, ms)
    ensures Collect(WorkingSetReads(ws, Saved(WorkingSetMappings(ms)))) == WorkingSetMappings(ms)
  {
    if ms != [] {
      WorkingSetsRoundTrip(ws, ms[1..]);
      if ms[0].modelObject.WorkingSetObject? {
        SavedCons(ms[0], WorkingSetMappings(ms[1..]));
        var cs := Saved(WorkingSetMappings(ms));
        assert cs[1..] == Saved(WorkingSetMappings(ms[1..]));
        assert ReadWorkingSet(ws, cs[0]) == Emit(ms[0]);
        assert WorkingSetReads(ws, cs)[1..] == WorkingSetReads(ws, cs[1..]);
      } else {
        assert WorkingSetMappings(ms) == WorkingSetMappings(ms[1..]);
      }
    }
  }

  /**
   * When every lookup resolves a saved mapping back to itself, restoring
   * what save wrote gives the resource mappings in order, then the
   * working-set mappings in order.
   */
  lemma SaveRestoreRoundTrip(ws: Workspace, ms: seq<Mapping>)
    requires Faithful(ws, ms)
    ensures RestoreAll(ws, Saved(ms)) == ResourceMappings(ms) + WorkingSetMappings(ms)
  {
    SavedResources(ms);
    SavedWorkingSets(ms);
    ResourcesRoundTrip(ws, ms);
    WorkingSetsRoundTrip(ws, ms);
  }
}
