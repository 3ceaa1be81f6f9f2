# Eclipse update-site search, resource-mapping mementos, bundle manifests and changed sync containers, in Dafny

This project models four small pieces of Eclipse and proves properties of them.

- **Update-site search** (`SiteSearchCategory`). A `Query` copies a site's feature references into a shared list. It starts min(5, n) `FeatureDownloader` threads and polls until they end, clearing the list once the progress monitor is cancelled. Each downloader repeatedly does the following:
  - pops the head of the list and stops if the monitor is cancelled;
  - skips the reference if one of its categories is ignored;
  - filters the reference, resolves it, filters the feature and hands it to the collector;
  - reports one unit of work in a `finally` block.

  `search_spec.dfy` states one downloader iteration (`WorkerStep`) and a whole run (`Drain`) as functions over a `SearchState` value, and proves the run's properties as lemmas. `site_search_category.dfy` has the objects the source updates in place: the shared list, the monitor, the collector, the downloaders and the query, as classes. Each of their methods is proved to leave those objects in the state the functions give. Thread interleaving is a `Schedule` parameter: when the user cancels, and when the coordinator polls. One downloader iteration is atomic.
- **Memento persistence of resource mappings** (`ResourceModelPersistenceAdapter`). `save` writes one `resources` child (type and full path) per resource mapping and one `workingSets` child (name) per working-set mapping. `restore` reads the resources section, then the working-sets section. Each section ends at the first malformed child (`break`). Unknown types and names that do not resolve are skipped. The workspace and working-set lookups are partial functions in a `Workspace` value.
- **Bundle manifests** (`BundleManifest`). The constructors and `parse` set the `pluginEntry`, `exception` and `bundleURL` fields. The input is the decoded main attributes (or the decoding `IOException`) and the result of parsing the `Bundle-SymbolicName` header.
- **Changed sync containers** (`ChangedTeamContainer`). The change direction is `kind & DIRECTION_MASK`, on 32-bit vectors. `canCatchup` and `canRelease` force `true` for some directions and otherwise return the superclass answer, which is a parameter. `removeToRoot` removes the child from this container and leaves this container's own parent as it is, even when the container becomes empty.

The model follows the code as written, including these three behaviours:
- The lite-feature fast path never runs: `Query.run` builds the lite map and a lite-mode downloader that is never started (SiteSearchCategory.java:69), and the downloaders it starts use the five-argument constructor (line 82). The outer class always creates `new Query()` (line 121), so lite mode is off in any case.
- A downloader checks `monitor.isCanceled()` after each pop and stops, dropping the reference it just took (lines 184-185), so cancellation reaches it even while references remain in the list.
- A reference that resolves to a null feature does not count as a contained per-item error. `feature.getLabel()` at line 209 throws a `NullPointerException`, which is not a `CoreException`. The `finally` block reports the unit and the thread dies. See Findings.

## Model

| member | source | states |
|---|---|---|
| SearchSpec.ThreadCount | update/org.eclipse.update.core/src/org/eclipse/update/internal/search/SiteSearchCategory.java:79 | the number of downloaders is at most 5 and at most the reference count, and equals one of them (none for no references) |
| SearchSpec.Resolve | update/org.eclipse.update.core/src/org/eclipse/update/internal/search/SiteSearchCategory.java:201-205 | in lite mode the feature is the lite map's entry for the versioned identifier (null when absent, never a CoreException); otherwise it is getFeature's answer |
| SearchSpec.Process | update/org.eclipse.update.core/src/org/eclipse/update/internal/search/SiteSearchCategory.java:186-210 | a reference is skipped exactly when one of its categories is ignored; it is rejected exactly when it is not ignored and filter.accept(reference) is false; the feature is collected exactly when the reference passed both, resolved to a non-null feature and that feature passed filter.accept(feature); a null feature after both checks is a null dereference |
| SearchSpec.WorkerStep | update/org.eclipse.update.core/src/org/eclipse/update/internal/search/SiteSearchCategory.java:173-218 | an empty list ends the worker with nothing changed; otherwise the head moves from the list to the taken references; a cancelled monitor ends the worker without a unit of work, collection or label; otherwise exactly one unit of work is reported, the collector receives what Process collects, and the worker goes on unless the feature was null |
| SearchSpec.GuardedWorkerStep | update/org.eclipse.update.core/src/org/eclipse/update/internal/search/SiteSearchCategory.java:206-210 | the iteration with the label update guarded against null: same state as WorkerStep, and the worker goes on whenever it took a reference without seeing cancellation |
| SearchSpec.Step | update/org.eclipse.update.core/src/org/eclipse/update/internal/search/SiteSearchCategory.java:173-218 | either iteration leaves the state WorkerStep gives, and a worker only goes on after taking a reference |
| SearchSpec.Interfere | update/org.eclipse.update.core/src/org/eclipse/update/internal/search/SiteSearchCategory.java:87-93 | before an iteration the monitor may become cancelled; the list is emptied exactly when the coordinator polls a cancelled monitor; nothing else changes |
| SearchSpec.DrainTakesInOrder | update/org.eclipse.update.core/src/org/eclipse/update/internal/search/SiteSearchCategory.java:175-181 | over a whole run the references taken are a prefix of the list, each taken once and in order, and what is left is the rest of the list or nothing after a clear |
| SearchSpec.DrainWorkAccounting | update/org.eclipse.update.core/src/org/eclipse/update/internal/search/SiteSearchCategory.java:182-217 | one unit of work per reference taken, except at most one per worker taken and dropped on seeing cancellation |
| SearchSpec.WorkedNeverExceedsReferences | update/org.eclipse.update.core/src/org/eclipse/update/internal/search/SiteSearchCategory.java:215-217 | the monitor never receives more units of work than there were references |
| SearchSpec.DrainCollectsOnlyAccepted | update/org.eclipse.update.core/src/org/eclipse/update/internal/search/SiteSearchCategory.java:197-210 | the collector only grows, and every feature it receives came from a reference the run took and for which Process is Collected (not ignored, both filters passed, non-null) |
| SearchSpec.DrainAfterCancel | update/org.eclipse.update.core/src/org/eclipse/update/internal/search/SiteSearchCategory.java:184-185 | once the monitor is cancelled no unit of work, collection or label change happens any more |
| SearchSpec.Drain | update/org.eclipse.update.core/src/org/eclipse/update/internal/search/SiteSearchCategory.java:173-219 | the downloaders run in turns until none is alive; its properties are the run lemmas below |
| SearchSpec.DrainCompletes | update/org.eclipse.update.core/src/org/eclipse/update/internal/search/SiteSearchCategory.java:173-219 | with at least one worker, no cancellation, and no null feature (or with the null guard), the run empties the list, takes every reference in order, reports exactly one unit per reference and collects exactly the accepted features in list order |
| SearchSpec.CompletingStep | update/org.eclipse.update.core/src/org/eclipse/update/internal/search/SiteSearchCategory.java:173-218 | an uncancelled iteration on a non-empty list keeps the worker and moves exactly one reference's accounting from pending to done |
| SearchSpec.NullFeaturesEndRun | update/org.eclipse.update.core/src/org/eclipse/update/internal/search/SiteSearchCategory.java:206-217 | as written, k workers facing k references that resolve to null each report one unit and die, leaving every later reference in the list |
| SearchSpec.NullStep | update/org.eclipse.update.core/src/org/eclipse/update/internal/search/SiteSearchCategory.java:209 | a worker that pops a reference resolving to null reports one unit and leaves the pool |
| SearchSpec.NullFeatureStrandsReferences | update/org.eclipse.update.core/src/org/eclipse/update/internal/search/SiteSearchCategory.java:209 | five null features followed by one real one: the run ends with that reference still in the list, 5 units reported and nothing collected, without cancellation |
| SearchSpec.GuardedRunCollectsAll | update/org.eclipse.update.core/src/org/eclipse/update/internal/search/SiteSearchCategory.java:206-210 | with the null guard the same run empties the list, reports 6 units and collects the real feature |
| SiteSearchCategory.FeatureList.TryPop | update/org.eclipse.update.core/src/org/eclipse/update/internal/search/SiteSearchCategory.java:175-181 | check-then-remove of index 0 under the lock: none on an empty list, otherwise the head, which leaves the list and is recorded as taken |
| SiteSearchCategory.FeatureList.Clear | update/org.eclipse.update.core/src/org/eclipse/update/internal/search/SiteSearchCategory.java:90-92 | the list becomes empty (idempotent); nothing already taken is affected |
| SiteSearchCategory.BuildIgnores | update/org.eclipse.update.core/src/org/eclipse/update/internal/search/SiteSearchCategory.java:54-58 | the ignore set is exactly the elements of categoriesToSkip, and empty when it is null |
| SiteSearchCategory.BuildLiteFeatures | update/org.eclipse.update.core/src/org/eclipse/update/internal/search/SiteSearchCategory.java:66-68 | every lite feature's versioned identifier is a key, and each key maps to the last lite feature with that identifier |
| SiteSearchCategory.IsIgnored | update/org.eclipse.update.core/src/org/eclipse/update/internal/search/SiteSearchCategory.java:186-196 | the category loop finds an ignored category exactly when Ignored holds |
| SiteSearchCategory.FeatureDownloader.constructor | update/org.eclipse.update.core/src/org/eclipse/update/internal/search/SiteSearchCategory.java:153-161 | the five-argument downloader shares the given objects and is not in lite mode |
| SiteSearchCategory.FeatureDownloader.WithLite | update/org.eclipse.update.core/src/org/eclipse/update/internal/search/SiteSearchCategory.java:163-167 | the lite flag is set only when requested and the map is non-null |
| SiteSearchCategory.FeatureDownloader.Step | update/org.eclipse.update.core/src/org/eclipse/update/internal/search/SiteSearchCategory.java:173-218 | one loop iteration changes the shared list, monitor and collector exactly as WorkerStep says, and returns whether the thread goes on |
| SiteSearchCategory.FeatureDownloader.Run | update/org.eclipse.update.core/src/org/eclipse/update/internal/search/SiteSearchCategory.java:169-221 | a downloader running alone leaves the shared objects in the state Drain gives for one worker |
| SiteSearchCategory.Query.constructor | update/org.eclipse.update.core/src/org/eclipse/update/internal/search/SiteSearchCategory.java:36-38 | a query starts with lite features off |
| SiteSearchCategory.Query.WithLite | update/org.eclipse.update.core/src/org/eclipse/update/internal/search/SiteSearchCategory.java:40-42 | a query starts with the given lite flag |
| SiteSearchCategory.Query.Run | update/org.eclipse.update.core/src/org/eclipse/update/internal/search/SiteSearchCategory.java:43-109 | the monitor total is the reference count; the lite flag is cleared for an extended site without lite features; the shared objects end as Drain gives for min(5, n) plain downloaders over the site's references with the ignore set of categoriesToSkip |
| SiteSearchCategory.StartWorkers | update/org.eclipse.update.core/src/org/eclipse/update/internal/search/SiteSearchCategory.java:81-84 | n downloaders, all sharing the list, monitor and collector, none in lite mode |
| SiteSearchCategory.Coordinate | update/org.eclipse.update.core/src/org/eclipse/update/internal/search/SiteSearchCategory.java:87-104 | the polling loop with the pool's iterations ends in the state Drain gives for that pool and schedule, and leaves the monitor total alone |
| ResourcePersistence.PathToString | bundles/org.eclipse.team.ui/src/org/eclipse/team/internal/ui/mapping/ResourceModelPersistenceAdapter.java:47 | a full path prints as an absolute path string |
| ResourcePersistence.SegmentLength | bundles/org.eclipse.team.ui/src/org/eclipse/team/internal/ui/mapping/ResourceModelPersistenceAdapter.java:71 | the head segment runs to the first separator or the end |
| ResourcePersistence.ParsePath | bundles/org.eclipse.team.ui/src/org/eclipse/team/internal/ui/mapping/ResourceModelPersistenceAdapter.java:71 | a parsed path consists of non-empty segments without separators |
| ResourcePersistence.PathRoundTrip | bundles/org.eclipse.team.ui/src/org/eclipse/team/internal/ui/mapping/ResourceModelPersistenceAdapter.java:71 | a saved full path parses back to the same path |
| ResourcePersistence.LastSegment | bundles/org.eclipse.team.ui/src/org/eclipse/team/internal/ui/mapping/ResourceModelPersistenceAdapter.java:78 | the last segment is null exactly for the root path, otherwise the final segment |
| ResourcePersistence.Memento.AddChild | bundles/org.eclipse.team.ui/src/org/eclipse/team/internal/ui/mapping/ResourceModelPersistenceAdapter.java:45 | a created child is appended after the existing ones |
| ResourcePersistence.Memento.GetChildren | bundles/org.eclipse.team.ui/src/org/eclipse/team/internal/ui/mapping/ResourceModelPersistenceAdapter.java:60 | the children of the requested type, in memento order |
| ResourcePersistence.ChildrenOfAppend | bundles/org.eclipse.team.ui/src/org/eclipse/team/internal/ui/mapping/ResourceModelPersistenceAdapter.java:60 | selecting children by type distributes over concatenation |
| ResourcePersistence.ChildrenOfType | bundles/org.eclipse.team.ui/src/org/eclipse/team/internal/ui/mapping/ResourceModelPersistenceAdapter.java:97 | every selected child has the requested type |
| ResourcePersistence.SaveChild | bundles/org.eclipse.team.ui/src/org/eclipse/team/internal/ui/mapping/ResourceModelPersistenceAdapter.java:43-52 | a resource gives a resources child with its type and full-path string, a working set gives a workingSets child with its name, anything else gives nothing |
| ResourcePersistence.Save | bundles/org.eclipse.team.ui/src/org/eclipse/team/internal/ui/mapping/ResourceModelPersistenceAdapter.java:39-54 | save appends exactly the children Saved gives for the mappings, after the memento's existing children |
| ResourcePersistence.SavedResources | bundles/org.eclipse.team.ui/src/org/eclipse/team/internal/ui/mapping/ResourceModelPersistenceAdapter.java:43-47 | the resources children are one per resource mapping, in mapping order |
| ResourcePersistence.SavedWorkingSets | bundles/org.eclipse.team.ui/src/org/eclipse/team/internal/ui/mapping/ResourceModelPersistenceAdapter.java:48-52 | the workingSets children are one per working-set mapping, in mapping order |
| ResourcePersistence.SavedCount | bundles/org.eclipse.team.ui/src/org/eclipse/team/internal/ui/mapping/ResourceModelPersistenceAdapter.java:40-53 | other model objects write nothing: one child per resource or working-set mapping |
| ResourcePersistence.SavedCons | bundles/org.eclipse.team.ui/src/org/eclipse/team/internal/ui/mapping/ResourceModelPersistenceAdapter.java:40-53 | the children for a leading mapping come first |
| ResourcePersistence.ResourceFor | bundles/org.eclipse.team.ui/src/org/eclipse/team/internal/ui/mapping/ResourceModelPersistenceAdapter.java:73-89 | an unknown type yields no resource; a PROJECT is looked up by the last segment of its path |
| ResourcePersistence.ReadResource | bundles/org.eclipse.team.ui/src/org/eclipse/team/internal/ui/mapping/ResourceModelPersistenceAdapter.java:63-95 | a child ends the section exactly when its type or its path is missing; it yields a mapping only for a known type |
| ResourcePersistence.ReadWorkingSet | bundles/org.eclipse.team.ui/src/org/eclipse/team/internal/ui/mapping/ResourceModelPersistenceAdapter.java:99-108 | a child ends the section exactly when its name is missing; a name with no working set yields nothing |
| ResourcePersistence.Restore | bundles/org.eclipse.team.ui/src/org/eclipse/team/internal/ui/mapping/ResourceModelPersistenceAdapter.java:59-111 | restore returns the resources section's mappings followed by the working-sets section's |
| ResourcePersistence.RestoreResources | bundles/org.eclipse.team.ui/src/org/eclipse/team/internal/ui/mapping/ResourceModelPersistenceAdapter.java:62-96 | the first loop, with its breaks, collects what Collect gives for the resources children |
| ResourcePersistence.RestoreWorkingSets | bundles/org.eclipse.team.ui/src/org/eclipse/team/internal/ui/mapping/ResourceModelPersistenceAdapter.java:98-109 | the second loop, with its break, collects what Collect gives for the workingSets children |
| ResourcePersistence.CollectEndsAtStop | bundles/org.eclipse.team.ui/src/org/eclipse/team/internal/ui/mapping/ResourceModelPersistenceAdapter.java:65-70 | nothing after the first malformed child of a section is read |
| ResourcePersistence.CollectIgnoresSkip | bundles/org.eclipse.team.ui/src/org/eclipse/team/internal/ui/mapping/ResourceModelPersistenceAdapter.java:90-95 | a child that yields nothing can be dropped without changing the result |
| ResourcePersistence.RestoreStopsAtMalformedResource | bundles/org.eclipse.team.ui/src/org/eclipse/team/internal/ui/mapping/ResourceModelPersistenceAdapter.java:64-70 | the resources section ends at the first child missing its type or path; well-formed children after it are ignored |
| ResourcePersistence.RestoreSkipsUnknownType | bundles/org.eclipse.team.ui/src/org/eclipse/team/internal/ui/mapping/ResourceModelPersistenceAdapter.java:86-88 | a well-formed child of an unknown type contributes nothing and does not stop the loop |
| ResourcePersistence.ProjectFromLastSegment | bundles/org.eclipse.team.ui/src/org/eclipse/team/internal/ui/mapping/ResourceModelPersistenceAdapter.java:78 | two PROJECT children whose paths end in the same segment restore the same way |
| ResourcePersistence.RestoreStopsAtUnnamedWorkingSet | bundles/org.eclipse.team.ui/src/org/eclipse/team/internal/ui/mapping/ResourceModelPersistenceAdapter.java:100-102 | the working-sets section ends at the first child without a name |
| ResourcePersistence.RestoreSkipsUnknownWorkingSet | bundles/org.eclipse.team.ui/src/org/eclipse/team/internal/ui/mapping/ResourceModelPersistenceAdapter.java:103-104 | a name without a working set contributes nothing and does not stop the loop |
| ResourcePersistence.JoinRoundTrip | bundles/org.eclipse.team.ui/src/org/eclipse/team/internal/ui/mapping/ResourceModelPersistenceAdapter.java:71 | separator-joined segments parse back to the segments |
| ResourcePersistence.SegmentPrefix | bundles/org.eclipse.team.ui/src/org/eclipse/team/internal/ui/mapping/ResourceModelPersistenceAdapter.java:71 | a segment followed by a separator is read as that segment |
| ResourcePersistence.ResourcesRoundTrip | bundles/org.eclipse.team.ui/src/org/eclipse/team/internal/ui/mapping/ResourceModelPersistenceAdapter.java:62-96 | the resources children save writes restore to the resource mappings, in order, when lookups are faithful |
| ResourcePersistence.WorkingSetsRoundTrip | bundles/org.eclipse.team.ui/src/org/eclipse/team/internal/ui/mapping/ResourceModelPersistenceAdapter.java:98-109 | the workingSets children save writes restore to the working-set mappings, in order, when lookups are faithful |
| ResourcePersistence.SaveRestoreRoundTrip | bundles/org.eclipse.team.ui/src/org/eclipse/team/internal/ui/mapping/ResourceModelPersistenceAdapter.java:39-110 | when every lookup resolves a saved mapping back to itself, restore(save(ms)) is the resource mappings of ms in order followed by its working-set mappings in order |
| BundleManifests.ParentOf | update/org.eclipse.update.configurator/src/org/eclipse/update/internal/configurator/BundleManifest.java:94-96 | a file has a parent exactly when its path has at least two names, and the parent is the path without its last name |
| BundleManifests.Attribute | update/org.eclipse.update.configurator/src/org/eclipse/update/internal/configurator/BundleManifest.java:67-84 | `getValue` finds a header under its lower-case key, whatever letter case the manifest spells it in, and gives null exactly when no header has that key |
| BundleManifests.SymbolicNameKey | update/org.eclipse.update.configurator/src/org/eclipse/update/internal/configurator/BundleManifest.java:69 | Bundle-SymbolicName is looked up under its lower-case key |
| BundleManifests.VersionKey | update/org.eclipse.update.configurator/src/org/eclipse/update/internal/configurator/BundleManifest.java:83 | Bundle-Version is looked up under its lower-case key |
| BundleManifests.FragmentHostKey | update/org.eclipse.update.configurator/src/org/eclipse/update/internal/configurator/BundleManifest.java:84 | Fragment-Host is looked up under its lower-case key |
| BundleManifests.SameNameSameKey | update/org.eclipse.update.configurator/src/org/eclipse/update/internal/configurator/BundleManifest.java:69 | two header names that differ only in ASCII letter case are stored under the same key |
| BundleManifests.SymbolicNameInAnyCase | update/org.eclipse.update.configurator/src/org/eclipse/update/internal/configurator/BundleManifest.java:69 | a header spelled Bundle-SymbolicName in any letter case is found by the symbolic-name lookup |
| BundleManifests.EntryUrl | update/org.eclipse.update.configurator/src/org/eclipse/update/internal/configurator/BundleManifest.java:91-101 | the URL is the bundle URL when given, else plugins/<grandparent name>/ when a grandparent exists, else unset |
| BundleManifests.Parse | update/org.eclipse.update.configurator/src/org/eclipse/update/internal/configurator/BundleManifest.java:64-106 | entry and exception are never both set; one of them is set exactly when decoding failed or a symbolic name is present; the exception is set exactly when decoding or header parsing failed; the entry's id is the first header element's value, its version the raw Bundle-Version, it is a fragment exactly when Fragment-Host is present and non-empty, and its URL follows EntryUrl |
| BundleManifests.BundleManifest.FromFile | update/org.eclipse.update.configurator/src/org/eclipse/update/internal/configurator/BundleManifest.java:28-46 | only an existing, non-directory, openable file is parsed; exists() then holds exactly when decoding failed or a symbolic name is present |
| BundleManifests.BundleManifest.Exists | update/org.eclipse.update.configurator/src/org/eclipse/update/internal/configurator/BundleManifest.java:107-109 | `exists()` holds exactly when `getPluginEntry` would throw or return a non-null entry |
| BundleManifests.BundleManifest.FromStream | update/org.eclipse.update.configurator/src/org/eclipse/update/internal/configurator/BundleManifest.java:50-56 | a null stream is not parsed; otherwise the fields are Parse's result with the given bundle URL |
| BundleManifests.BundleManifest.ParseManifest | update/org.eclipse.update.configurator/src/org/eclipse/update/internal/configurator/BundleManifest.java:64-106 | setting the fields step by step leaves them as Parse gives them |
| BundleManifests.BundleManifest.GetPluginEntry | update/org.eclipse.update.configurator/src/org/eclipse/update/internal/configurator/BundleManifest.java:117-123 | a stored exception is rethrown; otherwise the entry, null when there is none |
| TeamSync.ChangeDirection | bundles/org.eclipse.team.ui/src/org/eclipse/team/internal/ui/sync/ChangedTeamContainer.java:51-53 | the direction has no bits outside DIRECTION_MASK |
| TeamSync.ChangeDirectionIdempotent | bundles/org.eclipse.team.ui/src/org/eclipse/team/internal/ui/sync/ChangedTeamContainer.java:51-53 | the direction of a direction is itself |
| TeamSync.DirectionAndChangeTypeMakeKind | bundles/org.eclipse.team.ui/src/org/eclipse/team/internal/ui/sync/ChangedTeamContainer.java:51-53 | the direction bits together with the bits outside the mask give back the whole kind |
| TeamSync.CanCatchup | bundles/org.eclipse.team.ui/src/org/eclipse/team/internal/ui/sync/ChangedTeamContainer.java:29-36 | true whenever the direction is INCOMING or CONFLICTING, otherwise the superclass answer |
| TeamSync.CanRelease | bundles/org.eclipse.team.ui/src/org/eclipse/team/internal/ui/sync/ChangedTeamContainer.java:41-46 | true whenever the direction is OUTGOING, otherwise the superclass answer |
| TeamSync.ChangeTypeBitsIgnored | bundles/org.eclipse.team.ui/src/org/eclipse/team/internal/ui/sync/ChangedTeamContainer.java:29-46 | adding change-type bits outside the mask changes neither the direction nor canCatchup nor canRelease |
| TeamSync.RemoveFirst | bundles/org.eclipse.team.ui/src/org/eclipse/team/internal/ui/sync/ChangedTeamContainer.java:64 | removing an absent child changes nothing; otherwise exactly one occurrence goes (one fewer element, same multiset less that child) |
| TeamSync.RemoveFirstSplits | bundles/org.eclipse.team.ui/src/org/eclipse/team/internal/ui/sync/ChangedTeamContainer.java:64 | it is the first occurrence that goes, and the others keep their order |
| TeamSync.ChangedTeamContainer.RemoveToRoot | bundles/org.eclipse.team.ui/src/org/eclipse/team/internal/ui/sync/ChangedTeamContainer.java:62-65 | the child is removed from this container, and the parent is left unchanged even when this container becomes empty |

## Left out

- Real threads are not modelled: the `ThreadGroup`, `Thread.start`, `activeCount`/`enumerate`/`join(250)` polling and the unsynchronised `size()` pre-check at SiteSearchCategory.java:173. Each downloader iteration is atomic. The coordinator runs the first live worker's next iteration, and a `Schedule` gives the cancellations and polls. Workers are interchangeable, so this covers every interleaving of whole iterations. Interleavings inside an iteration are not covered.
- Network and site I/O are parameters, not modelled calls: `getFeatureReferences()` is the site's reference list; `getFeature(null)` is a function that may throw a `CoreException`; `getCategories()`/`getName()` give the category names.
- The `System.out.println(e)` and `printStackTrace()` output, and the name passed to `beginTask`, are not modelled.
- `SiteSearchCategory`'s own constructors, `getQueries` and `getQuerySearchSite` (lines 114-131) are not modelled. They always create `new Query()`, so lite mode is never on.
- SiteSearchCategory.Query.Run: the lite-mode downloader built at line 69 is constructed and dropped, as in the source. A `LiteFeature`'s versioned identifier is its identifier string.
- The `IProgressMonitor`, `IUpdateSearchFilter` and `IUpdateSearchResultCollector` implementations are not part of this model. They are stand-ins that record what they receive.
- ResourcePersistence.ParsePath: models `new Path(s)` as splitting on `/` and dropping empty segments. Device ids, backslashes, trailing separators and `.`/`..` canonicalisation are not modelled.
- ResourcePersistence.Memento: an `IMemento` child stores integers and strings in separate maps. An XML memento keeps every attribute as text, and its `getInteger` parsing of text is not modelled. A child is appended once complete, not created first and then filled.
- ResourcePersistence.Workspace: `getProject`, `getFile`, `getFolder`, the working-set manager and `Utils.getResourceMapping` are partial functions given with the workspace. `getProject(path.lastSegment())` receives the possibly-null last segment, and whatever it does with null is part of that function. `IllegalArgumentException`s from handle creation are not modelled.
- SearchSpec.DrainCompletes: the features are collected in list order only because each downloader iteration is atomic in this model. With real threads the same features are collected, in the order the downloaders finish them.
- The conversion of the result list with `toArray` is not modelled; the result is a sequence.
- BundleManifests.BundleManifest.FromStream: requires a bundle URL whenever the manifest would reach the URL step. With a null URL, line 94 dereferences the null `manifestFile`, and that `NullPointerException` escapes the constructor; the model does not represent the exception.
- BundleManifests.Parse: `ManifestElement.parseHeader` is an input giving the first element's value or the `BundleException` message. An empty element array (`elements[0]` throwing) is not modelled. JAR manifest decoding is an input too: the main attributes keyed by header name in ASCII lower case, or the `IOException` message. Header-name matching ignores ASCII letter case only, as `Attributes.Name` does.
- BundleManifests.BundleManifest.FromFile: closing the stream (whose `IOException` is swallowed) is not modelled. Neither is the `manifestFile` field's use outside the URL step.
- TeamSync: the `Differencer`/`ITeamNode` constants and the `UnchangedTeamContainer` answers are parameters. `getName()` (a delegation to the merge resource) and `toString()` are not modelled, nor the superclass `remove`'s `setParent(null)` on the removed child. The superclass `remove` is taken to be `fChildren.remove(child)`, which removes the first occurrence.

## Findings

| source | as written | input that shows it | evidently intended | confidence | as-written member | corrected member |
|---|---|---|---|---|---|---|
| update/org.eclipse.update.core/src/org/eclipse/update/internal/search/SiteSearchCategory.java:209 | `monitor.subTask(feature.getLabel())` runs even when the resolved feature is null. The `NullPointerException` is not a `CoreException`, so after `finally` reports the unit, the downloader thread dies. | Six references, five of which resolve to null followed by one that resolves to a feature, no filter, no cancellation: all five threads die, and the sixth reference stays in the list unprocessed and uncounted. | The label update is guarded by the null check, so a null feature is a contained per-item outcome. Every reference is then processed, and each gets one unit of work. | not executed | SearchSpec.NullFeatureStrandsReferences | SearchSpec.GuardedWorkerStep |

The corrected iteration is the `nullGuard` case of `SearchSpec.Step` and `SearchSpec.Drain`. Every run lemma holds for it. `SearchSpec.DrainCompletes` proves it processes every reference without assuming anything about null features, and `SearchSpec.GuardedRunCollectsAll` runs it on the same input. The classes in `site_search_category.dfy` follow the source as written.
