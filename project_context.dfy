/**
 * The client-side project state (src/context/ProjectContext.tsx): the
 * updates the provider applies to its file list and its log list. Each is
 * a function from the previous list to the next one, as the state setters
 * receive them.
 */
module ProjectContext {
  import opened Wrappers
  import opened Types
  import Storage

  /** `addFile`: the first file with the same path is replaced where it stands; otherwise the file is appended. */
  function AddFile(files: seq<ProjectFile>, file: ProjectFile): (r: seq<ProjectFile>)
    ensures |files| <= |r| <= |files| + 1
    ensures file in r
    ensures forall i :: 0 <= i < |files| && files[i].path != file.path ==> r[i] == files[i]
    ensures (forall i :: 0 <= i < |files| ==> files[i].path != file.path) ==> r == files + [file]
    ensures forall i :: 0 <= i < |files| && files[i].path == file.path ==>
      ((forall j :: 0 <= j < i ==> files[j].path != file.path) ==> r == files[i := file])
  {
    match Storage.FirstWithPath(files, file.path)
    case Some(i) =>
      var r := files[i := file];
      assert r[i] == file;
      r
    case None => files + [file]
  }

  /** The paths of a list of files, in order. */
  function Paths(files: seq<ProjectFile>): (r: seq<string>)
    ensures |r| == |files| && forall i :: 0 <= i < |files| ==> r[i] == files[i].path
  {
    if files == [] then [] else [files[0].path] + Paths(files[1..])
  }

  /** Adding a file that is already there again changes nothing. */
  lemma AddFileIdempotent(files: seq<ProjectFile>, file: ProjectFile)
    ensures AddFile(AddFile(files, file), file) == AddFile(files, file)
  {
    var once := AddFile(files, file);
    match Storage.FirstWithPath(files, file.path)
    case Some(i) =>
      assert once[i].path == file.path;
      assert forall j :: 0 <= j < i ==> once[j] == files[j];
      assert Storage.FirstWithPath(once, file.path) == Some(i);
    case None =>
      assert Storage.FirstWithPath(once, file.path) == Some(|files|);
  }

  /** `updateFile`: every file with the path gets the new content and time; every other file is kept. */
  function UpdateFile(files: seq<ProjectFile>, path: string, content: string, now: Time): (r: seq<ProjectFile>)
    ensures |r| == |files|
    ensures forall i :: 0 <= i < |files| && files[i].path != path ==> r[i] == files[i]
    ensures forall i :: 0 <= i < |files| && files[i].path == path ==>
      r[i] == files[i].(content := content, updatedAt := now)
  {
    if files == [] then []
    else
      var head := if files[0].path == path then files[0].(content := content, updatedAt := now) else files[0];
      [head] + UpdateFile(files[1..], path, content, now)
  }

  /** An update moves no file: the paths stay as they were, in order. */
  lemma UpdateKeepsPaths(files: seq<ProjectFile>, path: string, content: string, now: Time)
    ensures Paths(UpdateFile(files, path, content, now)) == Paths(files)
  {
    var r := UpdateFile(files, path, content, now);
    assert forall i :: 0 <= i < |files| ==> Paths(r)[i] == Paths(files)[i];
  }

  /** `removeFile`: every file with the path goes; the others keep their order. */
  function RemoveFile(files: seq<ProjectFile>, path: string): (r: seq<ProjectFile>)
    ensures |r| <= |files|
    ensures forall f :: f in r <==> f in files && f.path != path
    ensures (forall i :: 0 <= i < |files| ==> files[i].path != path) ==> r == files
  {
    if files == [] then []
    else (if files[0].path == path then [] else [files[0]]) + RemoveFile(files[1..], path)
  }

  /** Removal distributes over a list built in two parts, so the order of the survivors is the input's. */
  lemma {:induction false} RemoveFileAppend(files: seq<ProjectFile>, more: seq<ProjectFile>, path: string)
    ensures RemoveFile(files + more, path) == RemoveFile(files, path) + RemoveFile(more, path)
    decreases |files|
  {
    if files == [] {
      assert files + more == more;
    } else {
      assert (files + more)[1..] == files[1..] + more;
      RemoveFileAppend(files[1..], more, path);
    }
  }

  /** Removing the path of a file just added leaves what removing it from the old list leaves. */
  lemma RemoveUndoesAdd(files: seq<ProjectFile>, file: ProjectFile)
    ensures RemoveFile(AddFile(files, file), file.path) == RemoveFile(files, file.path)
  {
    match Storage.FirstWithPath(files, file.path)
    case Some(i) =>
      var before, after := files[..i], files[i + 1..];
      assert files == before + [files[i]] + after;
      assert AddFile(files, file) == before + [file] + after;
      RemoveOneOfPath(before, files[i], after, file.path);
      RemoveOneOfPath(before, file, after, file.path);
    case None =>
      RemoveFileAppend(files, [file], file.path);
  }

  /** A file with the removed path, between two parts of a list, goes. */
  lemma RemoveOneOfPath(before: seq<ProjectFile>, x: ProjectFile, after: seq<ProjectFile>, path: string)
    requires x.path == path
    ensures RemoveFile(before + [x] + after, path) == RemoveFile(before, path) + RemoveFile(after, path)
  {
    assert [x][1..] == [];
    assert RemoveFile([x], path) == [];
    RemoveFileAppend(before, [x], path);
    RemoveFileAppend(before + [x], after, path);
    assert RemoveFile(before, path) + [] == RemoveFile(before, path);
  }

  /** `addLog`: the entry goes at the end. */
  function AddLog(logs: seq<AILog>, log: AILog): (r: seq<AILog>)
    ensures |r| == |logs| + 1 && r[..|logs|] == logs && r[|logs|] == log
  {
    logs + [log]
  }

  /** `clearLogs`. */
  function ClearLogs(logs: seq<AILog>): (r: seq<AILog>)
    ensures r == []
  {
    []
  }
}
