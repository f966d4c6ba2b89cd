/** The `Project` orchestrator: it owns the code-graph store, remembers which
    file its settings live in, creates the file manager on first use, and runs
    the incremental re-index step. */
module Indexing {
  import opened Paths
  import opened Collaborators
  import opened Reindex

  /** The extension filters the file manager is created with; they are fixed. */
  const SourceExtensions: seq<string> := [".cpp", ".cc"]
  const IncludeExtensions: seq<string> := [".h", ".hpp"]

  /** Name of the settings file inside a source directory. */
  const SettingsFileName: string := "/ProjectSettings.xml"

  /** Builds the parser arguments value by appending, in turn, the project's
      and the application's compiler flags; the include roots, then the
      project's and the application's header search paths; and the project's
      and the application's framework search paths. */
  method AssembleArguments(includePaths: seq<string>, project: BuildFlags, application: BuildFlags)
    returns (args: ParserArguments)
    ensures args == MergedArguments(includePaths, project, application)
  {
    args := ParserArguments([], [], []);
    args := args.(compilerFlags := args.compilerFlags + project.compilerFlags);
    args := args.(compilerFlags := args.compilerFlags + application.compilerFlags);

    args := args.(systemHeaderSearchPaths := args.systemHeaderSearchPaths + includePaths);
    args := args.(systemHeaderSearchPaths := args.systemHeaderSearchPaths + project.headerSearchPaths);
    args := args.(systemHeaderSearchPaths := args.systemHeaderSearchPaths + application.headerSearchPaths);

    args := args.(frameworkSearchPaths := args.frameworkSearchPaths + project.frameworkSearchPaths);
    args := args.(frameworkSearchPaths := args.frameworkSearchPaths + application.frameworkSearchPaths);
  }

  /** Inserts the added files into an empty list, then the expanded updated
      files, each in set order. */
  method BuildWorkList(addedFilePaths: set<FilePath>, updatedFilePaths: set<FilePath>)
    returns (filesToParse: seq<FilePath>)
    ensures filesToParse == Elements(addedFilePaths) + Elements(updatedFilePaths)
  {
    filesToParse := [];
    filesToParse := filesToParse + Elements(addedFilePaths);
    filesToParse := filesToParse + Elements(updatedFilePaths);
  }

  class Project {
    var projectSettingsFilepath: string
    var storage: Storage
    var fileManager: FileManager?
    const storageAccessProxy: StorageAccessProxy
    /** The token id sequence, the project-scoped and the application-scoped
        settings: process-wide objects in the system, handed in here. */
    const tokenIds: TokenIdCounter
    const projectSettings: ProjectSettings
    const applicationSettings: ApplicationSettings
    /** Every step of every re-index run, completion events included. */
    ghost var log: seq<Step>

    /** A file manager, once created, scans its source paths again as include
        paths and uses the fixed extension filters. */
    ghost predicate FileManagerConfigured()
      reads this
    {
      fileManager != null ==>
        fileManager.includePaths == fileManager.sourcePaths &&
        fileManager.sourceExtensions == SourceExtensions &&
        fileManager.includeExtensions == IncludeExtensions
    }

    /** The store keeps its relation within its nodes, and the access proxy
        shows readers the store the project owns. */
    ghost predicate Valid()
      reads this, storage, storageAccessProxy
    {
      storage.Valid() && storageAccessProxy.subject == storage && FileManagerConfigured()
    }

    /** `Project::create`: a project with no settings file, no file manager
        and a fresh store installed by `ClearStorage`. */
    constructor Create(storageAccessProxy: StorageAccessProxy, tokenIds: TokenIdCounter,
                       projectSettings: ProjectSettings, applicationSettings: ApplicationSettings)
      modifies storageAccessProxy, tokenIds
      ensures Valid()
      ensures this.storageAccessProxy == storageAccessProxy && this.tokenIds == tokenIds
      ensures this.projectSettings == projectSettings && this.applicationSettings == applicationSettings
      ensures fresh(storage)
      ensures storage.fileNodes == {} && storage.dependencies == {}
      ensures storage.fileData == map[] && storage.errorCount == 0
      ensures tokenIds.nextId == tokenIds.initialId
      ensures projectSettingsFilepath == "" && fileManager == null && log == []
    {
      this.storageAccessProxy := storageAccessProxy;
      this.tokenIds := tokenIds;
      this.projectSettings := projectSettings;
      this.applicationSettings := applicationSettings;
      projectSettingsFilepath := "";
      fileManager := null;
      log := [];
      storage := new Storage();
      new;
      ClearStorage();
    }

    /** Installs a new, empty store, shows it through the access proxy and
        restarts the token id sequence. */
    method ClearStorage()
      requires FileManagerConfigured()
      modifies this`storage, storageAccessProxy, tokenIds
      ensures Valid()
      ensures fresh(storage)
      ensures storage.fileNodes == {} && storage.dependencies == {}
      ensures storage.fileData == map[] && storage.errorCount == 0
      ensures storageAccessProxy.subject == storage
      ensures tokenIds.nextId == tokenIds.initialId
    {
      storage := new Storage();
      storageAccessProxy.SetSubject(storage);
      tokenIds.ResetNextId();
    }

    /** Loads the settings from `path`; `ok` is the settings' own verdict and
        `loadedSourcePaths`, `loadedFlags` what the file held. The path is
        remembered only on success. */
    method LoadProjectSettings(path: string, ok: bool, loadedSourcePaths: seq<string>, loadedFlags: BuildFlags)
      returns (success: bool)
      modifies this`projectSettingsFilepath, projectSettings
      ensures success == ok
      ensures projectSettingsFilepath == (if ok then path else old(projectSettingsFilepath))
      ensures projectSettings.sourcePaths == (if ok then loadedSourcePaths else old(projectSettings.sourcePaths))
      ensures projectSettings.flags == (if ok then loadedFlags else old(projectSettings.flags))
      ensures projectSettings.savedTo == old(projectSettings.savedTo)
    {
      success := projectSettings.Load(path, ok, loadedSourcePaths, loadedFlags);
      if success {
        projectSettingsFilepath := path;
      }
    }

    /** Saves to `path` when it is given (and remembers it), else to the
        remembered path; with neither, saves nothing and reports failure. */
    method SaveProjectSettings(path: string) returns (saved: bool)
      modifies this`projectSettingsFilepath, projectSettings
      ensures path != "" ==>
        saved && projectSettingsFilepath == path &&
        projectSettings.savedTo == old(projectSettings.savedTo) + [path]
      ensures path == "" && old(projectSettingsFilepath) != "" ==>
        saved && projectSettingsFilepath == old(projectSettingsFilepath) &&
        projectSettings.savedTo == old(projectSettings.savedTo) + [old(projectSettingsFilepath)]
      ensures path == "" && old(projectSettingsFilepath) == "" ==>
        !saved && projectSettingsFilepath == "" &&
        projectSettings.savedTo == old(projectSettings.savedTo)
      ensures projectSettings.sourcePaths == old(projectSettings.sourcePaths)
      ensures projectSettings.flags == old(projectSettings.flags)
    {
      if path != "" {
        projectSettingsFilepath := path;
        projectSettings.Save(path);
      } else if projectSettingsFilepath != "" {
        projectSettings.Save(projectSettingsFilepath);
      } else {
        return false;
      }
      saved := true;
    }

    /** Forgets the settings file and empties the project settings. */
    method ClearProjectSettings()
      modifies this`projectSettingsFilepath, projectSettings
      ensures projectSettingsFilepath == ""
      ensures projectSettings.sourcePaths == [] && projectSettings.flags == NoFlags
      ensures projectSettings.savedTo == old(projectSettings.savedTo)
    {
      projectSettingsFilepath := "";
      projectSettings.Clear();
    }

    /** Points the settings file into `directory` whatever happens next, then
        asks the settings to make `directory` the only source path; `ok` is
        their verdict, which is returned. */
    method SetSourceDirectoryPath(directory: string, ok: bool) returns (success: bool)
      modifies this`projectSettingsFilepath, projectSettings
      ensures projectSettingsFilepath == directory + SettingsFileName
      ensures success == ok
      ensures projectSettings.sourcePaths == (if ok then [directory] else old(projectSettings.sourcePaths))
      ensures projectSettings.flags == old(projectSettings.flags)
      ensures projectSettings.savedTo == old(projectSettings.savedTo)
    {
      projectSettingsFilepath := directory + SettingsFileName;
      success := projectSettings.SetSourcePaths([directory], ok);
    }

    /** Creates the file manager from `sourcePaths`, `includePaths` and the
        fixed extension filters, unless one exists already: an existing one is
        kept even if the paths have changed since it was made. */
    method CreateFileManagerOnce(sourcePaths: seq<string>, includePaths: seq<string>)
      requires includePaths == sourcePaths
      requires FileManagerConfigured()
      modifies this`fileManager
      ensures FileManagerConfigured() && fileManager != null
      ensures old(fileManager) != null ==> fileManager == old(fileManager)
      ensures old(fileManager) == null ==>
        fresh(fileManager) && fileManager.sourcePaths == sourcePaths &&
        fileManager.addedFilePaths == {} && fileManager.updatedFilePaths == {} &&
        fileManager.removedFilePaths == {}
    {
      if fileManager == null {
        fileManager := new FileManager(sourcePaths, includePaths, SourceExtensions, IncludeExtensions);
      }
    }

    /** The invalidation part of a run over the sets the file manager
        reported: the updated set grows by the dependents of the updated files,
        then by those of the removed files (the store's answers, whose nodes it
        detaches), and the derived data of the grown set and of the removed set
        is cleared, in that order. */
    method Invalidate(updatedFilePaths: set<FilePath>, removedFilePaths: set<FilePath>, answers: Answers)
      returns (expanded: set<FilePath>)
      requires storage.Valid()
      requires updatedFilePaths == answers.diff.updated && removedFilePaths == answers.diff.removed
      modifies storage, this`log
      ensures storage.Valid()
      ensures expanded == ExpandedUpdated(answers)
      ensures storage.fileNodes == old(storage.fileNodes) - answers.dependentsOfUpdated - answers.dependentsOfRemoved
      ensures storage.dependencies == Detach(old(storage.dependencies), answers.dependentsOfUpdated + answers.dependentsOfRemoved)
      ensures storage.fileData == old(storage.fileData) - expanded - removedFilePaths
      ensures storage.errorCount == old(storage.errorCount)
      ensures log == old(log) + InvalidationSteps(answers)
    {
      expanded := updatedFilePaths;
      var dependents := storage.GetDependingFilePathsAndRemoveFileNodes(expanded, answers.dependentsOfUpdated);
      log := log + [DependentsDetached(expanded, dependents)];
      expanded := expanded + dependents;
      dependents := storage.GetDependingFilePathsAndRemoveFileNodes(removedFilePaths, answers.dependentsOfRemoved);
      log := log + [DependentsDetached(removedFilePaths, dependents)];
      expanded := expanded + dependents;

      storage.ClearFileData(expanded);
      log := log + [FileDataCleared(expanded)];
      storage.ClearFileData(removedFilePaths);
      log := log + [FileDataCleared(removedFilePaths)];
    }

    /** The parsing part of a run: with an empty work list, a report of zeros
        and the store's error count; otherwise the arguments are assembled, a
        parser over the project's store and file manager is given the work list
        and records `answers.parseErrors` errors, and the run is reported with
        the store's error count. What the parser writes into the store is its
        own business; only an empty work list leaves the store as it was.
        Every file handed over is either one of the `added` files or has no
        derived data left in the store. */
    method ParseWorkList(filesToParse: seq<FilePath>, includePaths: seq<string>, answers: Answers,
                         ghost added: set<FilePath>)
      requires storage.Valid() && fileManager != null
      requires forall f :: f in filesToParse ==> f in added || f !in storage.fileData
      modifies storage, this`log
      ensures storage.Valid()
      ensures filesToParse == [] ==>
        storage.fileNodes == old(storage.fileNodes) && storage.dependencies == old(storage.dependencies) &&
        storage.fileData == old(storage.fileData)
      ensures storage.errorCount == old(storage.errorCount) + (if filesToParse == [] then 0 else answers.parseErrors)
      ensures log == old(log) + ParsingSteps(answers, filesToParse,
                                             MergedArguments(includePaths, projectSettings.flags, applicationSettings.flags),
                                             old(storage.errorCount))
    {
      if |filesToParse| == 0 {
        log := log + [FinishedParsing(0, 0.0, storage.errorCount)];
        return;
      }

      var args := AssembleArguments(includePaths, projectSettings.flags, applicationSettings.flags);

      var parser := new CxxParser(storage, fileManager);
      log := log + [ParserInvoked(filesToParse, args)];
      parser.ParseFiles(filesToParse, args, answers.parseErrors);

      log := log + [FinishedParsing(|filesToParse|, answers.duration, storage.errorCount)];
    }

    /** One incremental re-index run. Without source paths nothing happens.
        Otherwise the file manager is created if there is none yet (and kept
        as it is if there is), refreshed, and the run takes the steps of
        `Trace` over the work list `WorkList(answers)`. */
    method ParseCode(answers: Answers)
      requires Valid()
      modifies this`fileManager, this`log, storage, fileManager
      ensures Valid()
      ensures projectSettings.sourcePaths == [] ==>
        fileManager == old(fileManager) && log == old(log) && unchanged(storage) &&
        (old(fileManager) != null ==> unchanged(old(fileManager)))
      ensures projectSettings.sourcePaths != [] ==>
        && fileManager != null
        && (old(fileManager) != null ==> fileManager == old(fileManager))
        && (old(fileManager) == null ==> fresh(fileManager) && fileManager.sourcePaths == projectSettings.sourcePaths)
        && fileManager.addedFilePaths == answers.diff.added
        && fileManager.updatedFilePaths == answers.diff.updated
        && fileManager.removedFilePaths == answers.diff.removed
      ensures projectSettings.sourcePaths != [] ==>
        log == old(log) + Trace(answers, WorkList(answers),
                                MergedArguments(projectSettings.sourcePaths, projectSettings.flags, applicationSettings.flags),
                                old(storage.errorCount))
      ensures projectSettings.sourcePaths != [] && WorkList(answers) == [] ==>
        && storage.fileNodes == old(storage.fileNodes) - answers.dependentsOfUpdated - answers.dependentsOfRemoved
        && storage.dependencies == Detach(old(storage.dependencies), answers.dependentsOfUpdated + answers.dependentsOfRemoved)
        && storage.fileData == old(storage.fileData) - ExpandedUpdated(answers) - answers.diff.removed
      ensures projectSettings.sourcePaths != [] ==>
        storage.errorCount == old(storage.errorCount) + (if WorkList(answers) == [] then 0 else answers.parseErrors)
    {
      var sourcePaths := projectSettings.sourcePaths;
      if |sourcePaths| == 0 {
        return;
      }
      var includePaths := sourcePaths;

      CreateFileManagerOnce(sourcePaths, includePaths);

      fileManager.FetchFilePaths(answers.diff);
      var addedFilePaths := fileManager.addedFilePaths;
      var updatedFilePaths := fileManager.updatedFilePaths;
      var removedFilePaths := fileManager.removedFilePaths;

      updatedFilePaths := Invalidate(updatedFilePaths, removedFilePaths, answers);

      var filesToParse := BuildWorkList(addedFilePaths, updatedFilePaths);
      WorkListMembers(answers);
      ParseWorkList(filesToParse, includePaths, answers, addedFilePaths);

    }
  }
}
