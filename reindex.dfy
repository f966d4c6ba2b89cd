/** What one incremental re-index run does, as a trace of the steps it takes
    against its collaborators, and the properties of that trace. */
module Reindex {
  import opened Paths
  import opened Collaborators

  /** The answers the collaborators give during one run: the file manager's
      diff, the store's two dependents queries, the number of errors the parser
      records, and the measured duration of the parse. */
  datatype Answers = Answers(
    diff: FileDiff,
    dependentsOfUpdated: set<FilePath>,
    dependentsOfRemoved: set<FilePath>,
    parseErrors: nat,
    duration: real)

  /** One observable step of a run, in the order the run takes them. */
  datatype Step =
    | DependentsDetached(query: set<FilePath>, dependents: set<FilePath>)
    | FileDataCleared(cleared: set<FilePath>)
    | ParserInvoked(filePaths: seq<FilePath>, args: ParserArguments)
    | FinishedParsing(fileCount: nat, duration: real, errorCount: nat)

  /** The updated set once it has absorbed the dependents of the updated
      files and of the removed files. */
  function ExpandedUpdated(answers: Answers): set<FilePath>
  {
    answers.diff.updated + answers.dependentsOfUpdated + answers.dependentsOfRemoved
  }

  /** The files handed to the parser: the added files, then the expanded
      updated set, each in set order. */
  function WorkList(answers: Answers): seq<FilePath>
  {
    Elements(answers.diff.added) + Elements(ExpandedUpdated(answers))
  }

  /** Project-level values come before application-level ones; the include
      roots come first among the header search paths. */
  function MergedArguments(includePaths: seq<string>, project: BuildFlags, application: BuildFlags): ParserArguments
  {
    ParserArguments(
      project.compilerFlags + application.compilerFlags,
      includePaths + project.headerSearchPaths + application.headerSearchPaths,
      project.frameworkSearchPaths + application.frameworkSearchPaths)
  }

  /** The invalidation steps of a run: the two dependents queries, then the
      clearing of the expanded updated set and of the removed set. */
  function InvalidationSteps(answers: Answers): seq<Step>
  {
    [ DependentsDetached(answers.diff.updated, answers.dependentsOfUpdated),
      DependentsDetached(answers.diff.removed, answers.dependentsOfRemoved),
      FileDataCleared(ExpandedUpdated(answers)),
      FileDataCleared(answers.diff.removed) ]
  }

  /** The steps of a run after invalidation: with nothing to parse, a report
      of zeros; otherwise the parser call, then a report with the number of
      files and the error count the parser leaves behind. */
  function ParsingSteps(answers: Answers, files: seq<FilePath>, args: ParserArguments, errorsBefore: nat): seq<Step>
  {
    if files == [] then [FinishedParsing(0, 0.0, errorsBefore)]
    else [ ParserInvoked(files, args),
           FinishedParsing(|files|, answers.duration, errorsBefore + answers.parseErrors) ]
  }

  /** The steps of one run over a non-empty source path list that hands
      `files` to the parser with `args`, given the store's error count when the
      run starts. A run's own work list is `WorkList(answers)`. */
  function Trace(answers: Answers, files: seq<FilePath>, args: ParserArguments, errorsBefore: nat): seq<Step>
  {
    InvalidationSteps(answers) + ParsingSteps(answers, files, args, errorsBefore)
  }

  /** The number of completion events among `steps`. */
  function Reports(steps: seq<Step>): nat
  {
    if steps == [] then 0
    else (if steps[0].FinishedParsing? then 1 else 0) + Reports(steps[1..])
  }

  lemma {:induction false} ReportsAppend(a: seq<Step>, b: seq<Step>)
    ensures Reports(a + b) == Reports(a) + Reports(b)
    decreases |a|
  {
    if a == [] {
      assert a + b == b;
    } else {
      assert (a + b)[1..] == a[1..] + b;
      ReportsAppend(a[1..], b);
    }
  }

  /** The work list holds exactly the added files and the expanded updated
      files, and nothing else. */
  lemma WorkListMembers(answers: Answers)
    ensures forall f :: f in WorkList(answers) <==>
      f in answers.diff.added || f in answers.diff.updated ||
      f in answers.dependentsOfUpdated || f in answers.dependentsOfRemoved
  {
    ElementsMembers(answers.diff.added);
    ElementsMembers(ExpandedUpdated(answers));
  }

  /** The added files come first, then the expanded updated set, each in set
      order; the length is the sum of the two set sizes. */
  lemma WorkListOrder(answers: Answers)
    ensures var n := |answers.diff.added|;
      |WorkList(answers)| == n + |ExpandedUpdated(answers)| &&
      StrictlySorted(WorkList(answers)[..n]) &&
      (forall f :: f in WorkList(answers)[..n] <==> f in answers.diff.added) &&
      StrictlySorted(WorkList(answers)[n..]) &&
      (forall f :: f in WorkList(answers)[n..] <==> f in ExpandedUpdated(answers))
  {
    var n := |answers.diff.added|;
    ElementsSorted(answers.diff.added);
    ElementsSorted(ExpandedUpdated(answers));
    ElementsMembers(answers.diff.added);
    ElementsMembers(ExpandedUpdated(answers));
    assert WorkList(answers)[..n] == Elements(answers.diff.added);
    assert WorkList(answers)[n..] == Elements(ExpandedUpdated(answers));
  }

  predicate DuplicateFree(w: seq<FilePath>)
  {
    forall i, j :: 0 <= i < j < |w| ==> w[i] != w[j]
  }

  /** Two strictly sorted runs with no common element concatenate into a
      sequence without repetitions. */
  lemma DisjointRunsAreDuplicateFree(a: seq<FilePath>, u: seq<FilePath>)
    requires StrictlySorted(a) && StrictlySorted(u)
    requires forall i, k :: 0 <= i < |a| && 0 <= k < |u| ==> a[i] != u[k]
    ensures DuplicateFree(a + u)
  {
    var w := a + u;
    forall i, j | 0 <= i < j < |w| ensures w[i] != w[j] {
      if j < |a| {
        assert PathLt(a[i], a[j]);
      } else if i >= |a| {
        assert PathLt(u[i - |a|], u[j - |a|]);
      } else {
        assert w[i] == a[i] && w[j] == u[j - |a|];
      }
    }
  }

  /** No file is handed to the parser twice exactly when no added file is also
      in the expanded updated set. */
  lemma WorkListDuplicateFree(answers: Answers)
    ensures DuplicateFree(WorkList(answers)) <==> answers.diff.added !! ExpandedUpdated(answers)
  {
    var a := Elements(answers.diff.added);
    var u := Elements(ExpandedUpdated(answers));
    assert WorkList(answers) == a + u;
    ElementsMembers(answers.diff.added);
    ElementsMembers(ExpandedUpdated(answers));
    if answers.diff.added !! ExpandedUpdated(answers) {
      ElementsSorted(answers.diff.added);
      ElementsSorted(ExpandedUpdated(answers));
      forall i, k | 0 <= i < |a| && 0 <= k < |u| ensures a[i] != u[k] {
        assert a[i] in answers.diff.added && u[k] in ExpandedUpdated(answers);
      }
      DisjointRunsAreDuplicateFree(a, u);
    } else {
      var f :| f in answers.diff.added && f in ExpandedUpdated(answers);
      var i :| 0 <= i < |a| && a[i] == f;
      var k :| 0 <= k < |u| && u[k] == f;
      assert (a + u)[i] == (a + u)[|a| + k];
    }
  }

  /** Dependents of removed files go into the work list, so they are parsed
      again, not only invalidated; so do the dependents of updated files. */
  lemma DependentsAreReparsed(answers: Answers, f: FilePath)
    requires f in answers.dependentsOfRemoved || f in answers.dependentsOfUpdated
    ensures f in WorkList(answers)
    ensures f in Elements(ExpandedUpdated(answers))
  {
    WorkListMembers(answers);
    ElementsMembers(ExpandedUpdated(answers));
  }

  /** The steps of `Trace`, position by position. */
  lemma TraceShape(answers: Answers, files: seq<FilePath>, args: ParserArguments, errorsBefore: nat)
    ensures var steps := Trace(answers, files, args, errorsBefore);
      && |steps| == (if files == [] then 5 else 6)
      && steps[0] == DependentsDetached(answers.diff.updated, answers.dependentsOfUpdated)
      && steps[1] == DependentsDetached(answers.diff.removed, answers.dependentsOfRemoved)
      && steps[2] == FileDataCleared(ExpandedUpdated(answers))
      && steps[3] == FileDataCleared(answers.diff.removed)
      && (files == [] ==> steps[4] == FinishedParsing(0, 0.0, errorsBefore))
      && (files != [] ==>
            steps[4] == ParserInvoked(files, args) &&
            steps[5] == FinishedParsing(|files|, answers.duration, errorsBefore + answers.parseErrors))
  {
  }

  lemma {:induction false} NoReports(steps: seq<Step>)
    requires forall i :: 0 <= i < |steps| ==> !steps[i].FinishedParsing?
    ensures Reports(steps) == 0
    decreases |steps|
  {
    if steps != [] {
      NoReports(steps[1..]);
    }
  }

  /** The parser is called exactly when the work list is not empty, and then
      once, with the work list and the merged arguments. */
  lemma ParserInvokedIffWork(answers: Answers, files: seq<FilePath>, args: ParserArguments, errorsBefore: nat)
    ensures var steps := Trace(answers, files, args, errorsBefore);
      (exists j :: 0 <= j < |steps| && steps[j].ParserInvoked?) <==> files != []
    ensures var steps := Trace(answers, files, args, errorsBefore);
      forall j, k :: (0 <= j < |steps| && 0 <= k < |steps| &&
                      steps[j].ParserInvoked? && steps[k].ParserInvoked?) ==> j == k
    ensures var steps := Trace(answers, files, args, errorsBefore);
      forall j :: 0 <= j < |steps| && steps[j].ParserInvoked? ==> steps[j] == ParserInvoked(files, args)
  {
    var steps := Trace(answers, files, args, errorsBefore);
    TraceShape(answers, files, args, errorsBefore);
    if files != [] {
      assert steps[4].ParserInvoked?;
    }
  }

  /** Every run reports exactly once, as its last step, with the number of
      files handed to the parser and the store's error count after parsing;
      an empty work list is reported with zeros. */
  lemma ReportedExactlyOnce(answers: Answers, files: seq<FilePath>, args: ParserArguments, errorsBefore: nat)
    ensures var steps := Trace(answers, files, args, errorsBefore);
      Reports(steps) == 1 &&
      steps[|steps| - 1] == FinishedParsing(
        |files|,
        if files == [] then 0.0 else answers.duration,
        if files == [] then errorsBefore else errorsBefore + answers.parseErrors)
  {
    var steps := Trace(answers, files, args, errorsBefore);
    TraceShape(answers, files, args, errorsBefore);
    var last := |steps| - 1;
    assert steps == steps[..last] + [steps[last]];
    NoReports(steps[..last]);
    ReportsAppend(steps[..last], [steps[last]]);
  }

  /** Both invalidations happen, and before the parser is called; every file
      the parser is given that was not added has had its derived data cleared
      by an earlier step. */
  lemma InvalidationPrecedesParsing(answers: Answers, files: seq<FilePath>, args: ParserArguments, errorsBefore: nat)
    requires forall f :: f in files ==> f in answers.diff.added || f in ExpandedUpdated(answers)
    ensures var steps := Trace(answers, files, args, errorsBefore);
      exists i, k :: 0 <= i < |steps| && 0 <= k < |steps| &&
        steps[i] == FileDataCleared(ExpandedUpdated(answers)) &&
        steps[k] == FileDataCleared(answers.diff.removed)
    ensures var steps := Trace(answers, files, args, errorsBefore);
      forall i, j :: (0 <= i < |steps| && 0 <= j < |steps| &&
                      steps[i].FileDataCleared? && steps[j].ParserInvoked?) ==> i < j
    ensures var steps := Trace(answers, files, args, errorsBefore);
      forall j, f :: 0 <= j < |steps| && steps[j].ParserInvoked? && f in steps[j].filePaths ==>
        f in answers.diff.added ||
        exists i :: 0 <= i < j && steps[i].FileDataCleared? && f in steps[i].cleared
  {
    var steps := Trace(answers, files, args, errorsBefore);
    TraceShape(answers, files, args, errorsBefore);
    forall j, f | 0 <= j < |steps| && steps[j].ParserInvoked? && f in steps[j].filePaths
      ensures f in answers.diff.added ||
        exists i :: 0 <= i < j && steps[i].FileDataCleared? && f in steps[i].cleared
    {
      if f !in answers.diff.added {
        assert steps[2].FileDataCleared? && f in steps[2].cleared;
      }
    }
  }
}
