/** The collaborators a `Project` drives. Their own code is not part of this
    model: each is reduced to the state the project can observe, and every
    answer it gives that depends on code outside the model (a settings file, a
    filesystem scan, the store's query, the parser's diagnostics) is a parameter
    of the call. */
module Collaborators {
  import opened Paths

  /** Compiler flags and search paths kept by either settings tier. */
  datatype BuildFlags = BuildFlags(
    compilerFlags: seq<string>,
    headerSearchPaths: seq<string>,
    frameworkSearchPaths: seq<string>)

  const NoFlags := BuildFlags([], [], [])

  /** The per-invocation `Parser::Arguments` value. */
  datatype ParserArguments = ParserArguments(
    compilerFlags: seq<string>,
    systemHeaderSearchPaths: seq<string>,
    frameworkSearchPaths: seq<string>)

  /** What one refresh of the file manager reports against the previous one. */
  datatype FileDiff = FileDiff(
    added: set<FilePath>,
    updated: set<FilePath>,
    removed: set<FilePath>)

  /** Edge of the store's file-dependency relation: the derived data of
      `dependent` was computed partly from the content of `dependency`. */
  datatype Dependency = Dependency(dependent: FilePath, dependency: FilePath)

  /** The files recorded as depending on some file of `files`. */
  function DependentsOf(relation: set<Dependency>, files: set<FilePath>): set<FilePath>
  {
    set e | e in relation && e.dependency in files :: e.dependent
  }

  /** The relation once the nodes of `gone` are removed: the edges that touch
      none of them. */
  function Detach(relation: set<Dependency>, gone: set<FilePath>): set<Dependency>
  {
    set e | e in relation && e.dependent !in gone && e.dependency !in gone
  }

  /** Detaching two node sets one after the other is detaching their union, so
      the two dependents queries of a run together remove the edges touching
      either answer. */
  lemma DetachComposes(relation: set<Dependency>, first: set<FilePath>, second: set<FilePath>)
    ensures Detach(Detach(relation, first), second) == Detach(relation, first + second)
  {
    forall e | e in Detach(relation, first + second)
      ensures e in Detach(Detach(relation, first), second)
    {
      assert e in Detach(relation, first);
    }
  }

  /** A relation among `nodes` stays, once `gone` is detached, among the nodes
      that remain. */
  lemma DetachStaysWithin(relation: set<Dependency>, nodes: set<FilePath>, gone: set<FilePath>)
    requires forall e :: e in relation ==> e.dependent in nodes && e.dependency in nodes
    ensures forall e :: e in Detach(relation, gone) ==> e.dependent in nodes - gone && e.dependency in nodes - gone
  {
    forall e | e in Detach(relation, gone)
      ensures e.dependent in nodes - gone && e.dependency in nodes - gone
    {
      assert e in relation;
    }
  }

  /** The modelled store takes its answer to the dependents query as a
      parameter. This lemma is about a store that answers from its own relation
      instead: once it has detached those files, asking again about the same
      files finds no dependents left, so the expansion at the start of a run
      does not need repeating. */
  lemma SecondQueryFindsNothing(relation: set<Dependency>, files: set<FilePath>)
    ensures DependentsOf(Detach(relation, DependentsOf(relation, files)), files) == {}
  {
    var first := DependentsOf(relation, files);
    var rest := Detach(relation, first);
    forall e | e in rest ensures e.dependency !in files {
      assert e in relation;
      assert e.dependency in files ==> e.dependent in first;
    }
  }

  /** The persisted code graph, reduced to its file nodes, its dependency
      relation, the derived data kept per file and its error counter. */
  class Storage {
    var fileNodes: set<FilePath>
    var dependencies: set<Dependency>
    var fileData: map<FilePath, set<string>>
    var errorCount: nat

    /** The dependency relation only relates files whose nodes exist: a
        consistency invariant every store operation preserves. */
    ghost predicate Valid()
      reads this
    {
      forall e :: e in dependencies ==> e.dependent in fileNodes && e.dependency in fileNodes
    }

    constructor ()
      ensures Valid()
      ensures fileNodes == {} && dependencies == {} && fileData == map[] && errorCount == 0
    {
      fileNodes := {};
      dependencies := {};
      fileData := map[];
      errorCount := 0;
    }

    /** Returns the files that depend on `filePaths` and removes their nodes.
        Which files those are is the store's own answer, `found`. */
    method GetDependingFilePathsAndRemoveFileNodes(filePaths: set<FilePath>, found: set<FilePath>)
      returns (dependents: set<FilePath>)
      requires Valid()
      modifies this
      ensures Valid()
      ensures dependents == found
      ensures fileNodes == old(fileNodes) - found
      ensures dependencies == Detach(old(dependencies), found)
      ensures fileData == old(fileData) && errorCount == old(errorCount)
    {
      DetachStaysWithin(dependencies, fileNodes, found);
      fileNodes := fileNodes - found;
      dependencies := Detach(dependencies, found);
      dependents := found;
    }

    /** Drops every derived record of the files in `filePaths`; files without
        derived data are passed over. */
    method ClearFileData(filePaths: set<FilePath>)
      requires Valid()
      modifies this
      ensures Valid()
      ensures fileData == old(fileData) - filePaths
      ensures forall f :: f in filePaths ==> f !in fileData
      ensures fileNodes == old(fileNodes) && dependencies == old(dependencies)
      ensures errorCount == old(errorCount)
    {
      fileData := fileData - filePaths;
    }
  }

  /** The handle through which readers reach the current store. */
  class StorageAccessProxy {
    var subject: Storage?

    constructor ()
      ensures subject == null
    {
      subject := null;
    }

    method SetSubject(storage: Storage)
      modifies this
      ensures subject == storage
    {
      subject := storage;
    }
  }

  /** The process-wide token id sequence; `initialId` is where it starts. */
  class TokenIdCounter {
    const initialId: nat
    var nextId: nat

    constructor (initialId: nat)
      ensures this.initialId == initialId && nextId == initialId
    {
      this.initialId := initialId;
      nextId := initialId;
    }

    method ResetNextId()
      modifies this
      ensures nextId == initialId
    {
      nextId := initialId;
    }
  }

  /** The project-scoped settings. `savedTo` records, in order, every file the
      settings were written to. */
  class ProjectSettings {
    var sourcePaths: seq<string>
    var flags: BuildFlags
    ghost var savedTo: seq<string>

    constructor ()
      ensures sourcePaths == [] && flags == NoFlags && savedTo == []
    {
      sourcePaths := [];
      flags := NoFlags;
      savedTo := [];
    }

    /** Reads `path`; `ok` says whether that succeeded and `loaded` what it held. */
    method Load(path: string, ok: bool, loadedSourcePaths: seq<string>, loadedFlags: BuildFlags)
      returns (success: bool)
      modifies this
      ensures success == ok
      ensures sourcePaths == (if ok then loadedSourcePaths else old(sourcePaths))
      ensures flags == (if ok then loadedFlags else old(flags))
      ensures savedTo == old(savedTo)
    {
      if ok {
        sourcePaths := loadedSourcePaths;
        flags := loadedFlags;
      }
      success := ok;
    }

    method Save(path: string)
      modifies this
      ensures savedTo == old(savedTo) + [path]
      ensures sourcePaths == old(sourcePaths) && flags == old(flags)
    {
      savedTo := savedTo + [path];
    }

    method Clear()
      modifies this
      ensures sourcePaths == [] && flags == NoFlags
      ensures savedTo == old(savedTo)
    {
      sourcePaths := [];
      flags := NoFlags;
    }

    /** Replaces the source paths when `ok` (the settings' own success flag). */
    method SetSourcePaths(paths: seq<string>, ok: bool) returns (success: bool)
      modifies this
      ensures success == ok
      ensures sourcePaths == (if ok then paths else old(sourcePaths))
      ensures flags == old(flags) && savedTo == old(savedTo)
    {
      if ok {
        sourcePaths := paths;
      }
      success := ok;
    }
  }

  /** The application-scoped settings, read-only for a project. */
  class ApplicationSettings {
    const flags: BuildFlags

    constructor (flags: BuildFlags)
      ensures this.flags == flags
    {
      this.flags := flags;
    }
  }

  /** The file-discovery collaborator: fixed at construction to its roots and
      extension filters; each fetch replaces the three reported sets. */
  class FileManager {
    const sourcePaths: seq<string>
    const includePaths: seq<string>
    const sourceExtensions: seq<string>
    const includeExtensions: seq<string>
    var addedFilePaths: set<FilePath>
    var updatedFilePaths: set<FilePath>
    var removedFilePaths: set<FilePath>

    constructor (sourcePaths: seq<string>, includePaths: seq<string>,
                 sourceExtensions: seq<string>, includeExtensions: seq<string>)
      ensures this.sourcePaths == sourcePaths && this.includePaths == includePaths
      ensures this.sourceExtensions == sourceExtensions && this.includeExtensions == includeExtensions
      ensures addedFilePaths == {} && updatedFilePaths == {} && removedFilePaths == {}
    {
      this.sourcePaths := sourcePaths;
      this.includePaths := includePaths;
      this.sourceExtensions := sourceExtensions;
      this.includeExtensions := includeExtensions;
      addedFilePaths, updatedFilePaths, removedFilePaths := {}, {}, {};
    }

    /** Rescans; `scan` is what the filesystem comparison reported. */
    method FetchFilePaths(scan: FileDiff)
      modifies this
      ensures addedFilePaths == scan.added
      ensures updatedFilePaths == scan.updated
      ensures removedFilePaths == scan.removed
    {
      addedFilePaths := scan.added;
      updatedFilePaths := scan.updated;
      removedFilePaths := scan.removed;
    }
  }

  /** The external parser. A parse writes the nodes, edges and derived data
      of the files it is given back into the store; what it writes is not
      constrained here, beyond the store's own consistency. The store's error
      counter grows by the number of errors the parse records, `raised`. */
  class CxxParser {
    const storage: Storage
    const fileManager: FileManager

    constructor (storage: Storage, fileManager: FileManager)
      ensures this.storage == storage && this.fileManager == fileManager
    {
      this.storage := storage;
      this.fileManager := fileManager;
    }

    method ParseFiles(filePaths: seq<FilePath>, args: ParserArguments, raised: nat)
      requires storage.Valid()
      modifies storage
      ensures storage.Valid()
      ensures storage.errorCount == old(storage.errorCount) + raised
    {
      storage.errorCount := storage.errorCount + raised;
    }
  }
}
