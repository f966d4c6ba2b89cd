# Sourcetrail `Project`: settings bookkeeping and the incremental re-index step

This project models `Project` from `src/lib/Project.cpp`, the orchestrator that
owns the code-graph store. It gives the class's behaviour in Dafny and proves
properties of it.

The class does two things:

- It keeps track of which file the project settings live in
  (`loadProjectSettings`, `saveProjectSettings`, `clearProjectSettings`,
  `setSourceDirectoryPath`).
- It runs one incremental re-index step, `parseCode`:
  1. Create the file manager on first use, then refresh it.
  2. Grow the updated set with the store's dependents of the updated files, then of the removed files.
  3. Clear the derived data of the grown set and of the removed set.
  4. Build the work list: the added files, then the grown updated set, each in set order.
  5. With an empty work list, report zeros.
  6. Otherwise, merge the parser arguments, hand the work list to the parser, and report the file count, the duration and the store's error count.

`create` and `clearStorage` install a fresh store, point the storage access
proxy at it, and restart the token id sequence.

Layout:

- `paths.dfy` (`Paths`): file paths and their character-wise order. `Elements` is the order in which iterating a `std::set<FilePath>` visits its members.
- `collaborators.dfy` (`Collaborators`): the objects the project drives. These are the store, the access proxy, the token id counter, the two settings tiers, the file manager and the parser. Each keeps only the state the project can observe. Every answer that comes from code outside this model is a parameter: a load verdict, a filesystem diff, a dependents query, a parser's error count, a duration.
- `reindex.dfy` (`Reindex`): the steps of one re-index run, as a function of those answers (`Trace`), and the properties of that trace.
- `project.dfy` (`Indexing`): the class `Project`. Its methods update its fields and its collaborators in place. A ghost `log` records every step of every run, including the completion event.

`ParseCode` is proved to append exactly `Trace(answers, WorkList(answers), MergedArguments(...), errorsBefore)` to the log. Its call to `ParseWorkList` must show that every file handed to the parser was added or has no derived data left; that obligation is discharged from `Invalidate`'s contract and `WorkListMembers`. The `Reindex` lemmas then state what that trace promises.

## Model

| member | source | states |
|---|---|---|
| Indexing.Project.Create | src/lib/Project.cpp:13-18 | A new project has no settings path and no file manager. Its store is fresh and empty, the access proxy shows that store, and the token id sequence is back at its initial value. |
| Indexing.Project.ClearStorage | src/lib/Project.cpp:65-71 | Installs a freshly allocated empty store, sets the proxy's subject to it, and resets the token id counter to its initial value. |
| Indexing.Project.LoadProjectSettings | src/lib/Project.cpp:24-32 | Returns exactly the settings' load result. The given path is recorded only when that result is true. Otherwise the recorded path is unchanged. |
| Indexing.Project.SaveProjectSettings | src/lib/Project.cpp:34-51 | A non-empty argument is recorded and saved to, and the result is true. With an empty argument and a recorded path, that path is saved to and kept, and the result is true. With both empty, nothing is saved or changed, and the result is false. |
| Indexing.Project.ClearProjectSettings | src/lib/Project.cpp:53-57 | The recorded path becomes empty and the project settings are emptied. Nothing is saved. |
| Indexing.Project.SetSourceDirectoryPath | src/lib/Project.cpp:59-63 | The recorded path becomes `d + "/ProjectSettings.xml"` whatever the settings answer. The source paths become `[d]` exactly when the settings report success, and that verdict is returned. |
| Indexing.Project.CreateFileManagerOnce | src/lib/Project.cpp:84-98 | A missing file manager is created from the source paths (also used as include paths) and the fixed extension filters. An existing one is kept as it is, even when the paths have changed. |
| Indexing.Project.Invalidate | src/lib/Project.cpp:105-109 | The updated set grows by both dependents answers. Only those nodes are removed, and the relation loses exactly the edges touching either answer. The derived data of the grown set and of the removed set is cleared. The four steps are logged in order. |
| Indexing.Project.ParseWorkList | src/lib/Project.cpp:115-146 | Callers must hand over only files that were added or whose derived data is cleared. With an empty work list: one report of zeros carrying the store's error count, and no parser call. Otherwise: the parser gets the work list and the merged arguments, and one report follows with the list's length and the error count after parsing. The store keeps its consistency and its error count grows by the parser's errors; with an empty work list the store is left as it was. What the parser writes into the store is not constrained. |
| Indexing.Project.ParseCode | src/lib/Project.cpp:73-147 | With no source paths: no file manager is created or fetched, the store is untouched, and nothing is logged. Otherwise the file manager is reused or created and then refreshed. The log grows by exactly the run's `Trace` over `WorkList`. The error count grows by the parser's errors when there is work. With an empty work list the store ends with exactly the dependents' nodes and edges removed and the expanded updated and removed files' data cleared; otherwise what the parser writes back is not constrained. |
| Indexing.AssembleArguments | src/lib/Project.cpp:121-132 | The step-by-step appends produce `MergedArguments`. |
| Indexing.BuildWorkList | src/lib/Project.cpp:111-113 | Inserting the two sets' iteration ranges into an empty vector yields the added files' enumeration followed by the updated files' enumeration. |
| Reindex.WorkListMembers | src/lib/Project.cpp:101-113 | A file is in the work list if and only if it was added, updated, a dependent of an updated file, or a dependent of a removed file. |
| Reindex.WorkListOrder | src/lib/Project.cpp:111-113 | The work list's length is the sum of the two set sizes. Its first part is exactly the added set, strictly sorted, and the rest is exactly the expanded updated set, strictly sorted. |
| Reindex.WorkListDuplicateFree | src/lib/Project.cpp:111-113 | No file is handed to the parser twice if and only if no added file is also in the expanded updated set. |
| Reindex.DependentsAreReparsed | src/lib/Project.cpp:106-113 | Every dependent of a removed or updated file is in the work list, in the expanded updated part. |
| Reindex.ParserInvokedIffWork | src/lib/Project.cpp:115-139 | The parser is called if and only if the work list is non-empty. It is called at most once, and always with the work list and the given arguments. |
| Reindex.ReportedExactlyOnce | src/lib/Project.cpp:115-146 | Every run over a non-empty source path list has exactly one completion event, its last step. It carries (0, 0, errors before) for an empty work list, and (list length, duration, errors after parsing) otherwise. |
| Reindex.InvalidationPrecedesParsing | src/lib/Project.cpp:105-139 | Both clearing steps happen, and each comes before the parser call. Every parsed file that was not added had its data cleared by an earlier step. |
| Collaborators.SecondQueryFindsNothing | src/lib/Project.cpp:105-106 | About a store that answers the dependents query from its own relation (the modelled store takes its answer as a parameter instead): once it has detached the dependents of some files, asking again about the same files finds none. |
| Collaborators.DetachComposes | src/lib/Project.cpp:105-106 | Detaching the two dependents answers one after the other removes exactly the edges touching either answer, the form in which `Invalidate` states the relation after both queries. |
| Collaborators.DetachStaysWithin | src/lib/Project.cpp:105-106 | A relation among the store's nodes remains, after detaching, among the nodes that are left; this keeps the store consistent across the dependents query. |
| Collaborators.Storage.GetDependingFilePathsAndRemoveFileNodes | src/lib/Project.cpp:105-106 | Returns the store's answer and removes exactly those nodes and their edges. Derived data and the error count are untouched, and the relation stays within the node set. |
| Collaborators.Storage.ClearFileData | src/lib/Project.cpp:108-109 | No file of the given set keeps derived data. Any other file's data, the nodes and the edges are untouched. |
| Paths.Elements | src/lib/Project.cpp:112-113 | Enumerating a set yields one entry per member. |
| Paths.ElementsMembers | src/lib/Project.cpp:112-113 | The enumeration of a set holds exactly its members. |
| Paths.ElementsSorted | src/lib/Project.cpp:112-113 | The enumeration of a set is strictly increasing in path order. |
| Paths.EnumerationIsUnique | src/lib/Project.cpp:112-113 | Two strictly sorted sequences with the same members are equal, so set iteration order is determined by the set alone. |

## Left out

- Logging in `saveProjectSettings` (src/lib/Project.cpp:49) and the commented-out graph dumps (src/lib/Project.cpp:143-144) have no behaviour and are not modelled.
- The measured duration (src/lib/Project.cpp:136-141) is wall-clock time. It is an opaque `real` supplied with the run's answers. The `float` precision is not modelled.
- The filesystem scan inside `FileManager::fetchFilePaths` is not part of this model. The added, updated and removed sets it reports are inputs to `ParseCode`.
- The internals of `CxxParser::parseFiles` are not part of this model. The parser writes the parsed files' nodes, edges and derived data back into the store; the model does not constrain what it writes, beyond keeping the store's relation within its nodes, and raises the store's error count by a given amount.
- Settings file I/O behind the `ProjectSettings` and `ApplicationSettings` singletons is not part of this model. Load and `setSourcePaths` take their success verdict as a parameter. A save is recorded in a ghost list of target paths.
- Collaborators.ProjectSettings.Load: `ProjectSettings::load` is not part of this model; a failed load is assumed to leave the source paths and flags unchanged, and a successful one to replace them with what the file held. `Indexing.Project.LoadProjectSettings` states the settings under the same assumption.
- Collaborators.ProjectSettings.Clear: `ProjectSettings::clear` is not part of this model; it is assumed to empty the source paths and every flag list. `Indexing.Project.ClearProjectSettings` states the settings under the same assumption.
- Collaborators.ProjectSettings.SetSourcePaths: `ProjectSettings::setSourcePaths` is not part of this model; a failed call is assumed to leave the settings unchanged.
- How `MessageFinishedParsing` is dispatched is not modelled. The event is appended to the ghost log instead.
- `shared_ptr` ownership and the internals of `StorageAccessProxy` are not modelled. The model keeps only "the proxy's subject is the current store".
- The store's symbol and edge schema is not modelled. The store is reduced to file nodes, a dependency relation, per-file derived data and an error counter.
- Collaborators.Storage.GetDependingFilePathsAndRemoveFileNodes: `Storage::getDependingFilePathsAndRemoveFileNodes` is not part of this model. Its answer is a parameter, which may or may not include the queried files. The store removes exactly those nodes and the edges touching them, and is assumed to leave the derived data and the error counter as they were.
- Collaborators.Storage.ClearFileData: `Storage::clearFileData` is not part of this model. It is assumed to drop exactly the given files' derived data and to leave the file nodes, the dependency relation and the error counter as they were. `Invalidate`'s node and relation clauses and `ParseCode`'s store state for an empty work list rest on this.
- The error count in the report for an empty work list (src/lib/Project.cpp:117) is read after both queries and both clears; the model reports the count from the start of the run, which equals it under the two assumptions above.
- The token id counter's initial value is not known here. The counter carries it as a constant, and a reset returns to it.
- `FilePath` ordering is modelled as character-wise lexicographic order on the path text (`Paths.PathLe`). A `boost::filesystem` path compares element by element, which can order paths differently when separators are involved.
- The work list is not deduplicated, as in the code. A file that is both added and in the expanded updated set is handed to the parser twice; `WorkListDuplicateFree` states exactly when that happens.
- One might expect a file that only depends on a removed file to be invalidated but not parsed again. The code appends those dependents to the updated set (src/lib/Project.cpp:106), which goes into the work list (src/lib/Project.cpp:113). The model follows the code, and `DependentsAreReparsed` states it.
