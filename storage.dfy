/**
 * The in-memory project store (src/lib/storage.ts): projects, their file
 * lists and version lists, and a global list of agent logs.
 *
 * Identifiers and the clock are parameters of every operation that creates
 * or touches a record.
 */
module Storage {
  import opened Wrappers
  import opened JsText
  import opened Types

  /** The caller's part of a new project (`Omit<Project, 'id' | 'createdAt' | 'updatedAt'>`). */
  datatype ProjectData = ProjectData(name: string, description: Option<string>)

  /**
   * A `Partial<Project>`: `None` is an absent key. `description` is doubly
   * optional because the key may be present with the value `undefined`.
   * An `updatedAt` in the patch is always overwritten, so it is not a field.
   */
  datatype ProjectPatch = ProjectPatch(
    id: Option<string>,
    name: Option<string>,
    description: Option<Option<string>>,
    createdAt: Option<Time>)

  /** The caller's part of a new file. */
  datatype FileData = FileData(path: string, content: string, fileType: string)

  /** The caller's part of a new version. */
  datatype VersionData = VersionData(versionNumber: int, snapshot: Snapshot, description: Option<string>)

  /** A stored log entry; its level is free text here. */
  datatype StoredLog = StoredLog(agent: string, level: string, message: string, context: Option<string>)

  /** `{ ...project, ...data, updatedAt: now }`. */
  function ApplyPatch(p: Project, patch: ProjectPatch, now: Time): (r: Project)
    ensures r.id == patch.id.GetOr(p.id)
    ensures r.name == patch.name.GetOr(p.name)
    ensures r.description == patch.description.GetOr(p.description)
    ensures r.createdAt == patch.createdAt.GetOr(p.createdAt)
    ensures r.updatedAt == now
  {
    Project(
      patch.id.GetOr(p.id),
      patch.name.GetOr(p.name),
      patch.description.GetOr(p.description),
      patch.createdAt.GetOr(p.createdAt),
      now)
  }

  /** An empty patch only refreshes the modification time. */
  lemma EmptyPatchTouchesOnly(p: Project, now: Time)
    ensures ApplyPatch(p, ProjectPatch(None, None, None, None), now) == p.(updatedAt := now)
  {
  }

  /** `files.findIndex(f => f.path === path)`, as an option. */
  function FirstWithPath(files: seq<ProjectFile>, path: string): (r: Option<nat>)
    ensures r.Some? ==> r.value < |files| && files[r.value].path == path
    ensures r.Some? ==> forall j :: 0 <= j < r.value ==> files[j].path != path
    ensures r.None? <==> forall j :: 0 <= j < |files| ==> files[j].path != path
  {
    if files == [] then None
    else if files[0].path == path then Some(0)
    else
      match FirstWithPath(files[1..], path)
      case None => None
      case Some(i) => Some(i + 1)
  }

  /** `files.find(f => f.path === path) || null`. */
  function FindByPath(files: seq<ProjectFile>, path: string): (r: Option<ProjectFile>)
    ensures r.Some? <==> exists j :: 0 <= j < |files| && files[j].path == path
    ensures r.Some? ==> r.value.path == path && r.value in files
  {
    match FirstWithPath(files, path)
    case None => None
    case Some(i) => Some(files[i])
  }

  /** `splice(index, 1)` at the first file with the path; nothing when there is none. */
  function WithoutFirst(files: seq<ProjectFile>, path: string): (r: seq<ProjectFile>)
    ensures FirstWithPath(files, path).None? ==> r == files
    ensures FirstWithPath(files, path).Some? ==>
      var i := FirstWithPath(files, path).value;
      |r| == |files| - 1 &&
      (forall j :: 0 <= j < i ==> r[j] == files[j]) &&
      (forall j :: i <= j < |r| ==> r[j] == files[j + 1])
  {
    match FirstWithPath(files, path)
    case None => files
    case Some(i) => files[..i] + files[i + 1..]
  }

  /** The first file with the path gets the new content and modification time. */
  function WithFirstUpdated(files: seq<ProjectFile>, path: string, content: string, now: Time): (r: seq<ProjectFile>)
    ensures |r| == |files|
    ensures FirstWithPath(files, path).None? ==> r == files
    ensures FirstWithPath(files, path).Some? ==>
      var i := FirstWithPath(files, path).value;
      r[i] == files[i].(content := content, updatedAt := now) &&
      forall j :: 0 <= j < |files| && j != i ==> r[j] == files[j]
  {
    match FirstWithPath(files, path)
    case None => files
    case Some(i) => files[i := files[i].(content := content, updatedAt := now)]
  }

  /** Deleting the path of a file just appended, when no earlier file had it, undoes the append. */
  lemma DeleteUndoesCreate(files: seq<ProjectFile>, f: ProjectFile)
    requires forall j :: 0 <= j < |files| ==> files[j].path != f.path
    ensures WithoutFirst(files + [f], f.path) == files
  {
    var all := files + [f];
    assert all[|files|].path == f.path;
    assert forall j :: 0 <= j < |files| ==> all[j] == files[j];
    assert all[..|files|] == files;
  }

  /** After an update the same file is found first, now holding the new content. */
  lemma GetAfterUpdate(files: seq<ProjectFile>, path: string, content: string, now: Time)
    requires FirstWithPath(files, path).Some?
    ensures var r := WithFirstUpdated(files, path, content, now);
      FirstWithPath(r, path) == FirstWithPath(files, path) &&
      FindByPath(r, path).value.content == content
  {
    var i := FirstWithPath(files, path).value;
    var r := WithFirstUpdated(files, path, content, now);
    assert r[i].path == path;
    assert forall j :: 0 <= j < i ==> r[j].path != path;
  }

  /** Deleting takes out exactly one entry, the first file with the path, and nothing else. */
  lemma {:induction false} DeleteKeepsOthers(files: seq<ProjectFile>, path: string)
    ensures multiset(WithoutFirst(files, path)) <= multiset(files)
    ensures FirstWithPath(files, path).Some? ==>
      multiset(WithoutFirst(files, path)) + multiset{files[FirstWithPath(files, path).value]} == multiset(files)
  {
    match FirstWithPath(files, path)
    case None =>
    case Some(i) =>
      assert files == files[..i] + [files[i]] + files[i + 1..];
  }

  /** The files of a project, `filesMap.get(projectId) || []`. */
  function FilesOf(files: map<string, seq<ProjectFile>>, projectId: string): seq<ProjectFile>
  {
    if projectId in files then files[projectId] else []
  }

  function VersionsOf(versions: map<string, seq<ProjectVersion>>, projectId: string): seq<ProjectVersion>
  {
    if projectId in versions then versions[projectId] else []
  }

  /** `s` without the element `x` (an id occurs at most once in the insertion order). */
  function Remove(s: seq<string>, x: string): (r: seq<string>)
    ensures forall y :: y in r <==> y in s && y != x
    ensures |r| <= |s|
  {
    if s == [] then []
    else if s[0] == x then Remove(s[1..], x)
    else [s[0]] + Remove(s[1..], x)
  }

  /** Removing an element keeps a list free of duplicates. */
  lemma {:induction false} RemoveKeepsDistinct(s: seq<string>, x: string)
    requires Distinct(s)
    ensures Distinct(Remove(s, x))
  {
    if s != [] {
      assert Distinct(s[1..]) by {
        forall i, j | 0 <= i < j < |s[1..]| ensures s[1..][i] != s[1..][j] {
          assert s[1..][i] == s[i + 1] && s[1..][j] == s[j + 1];
        }
      }
      RemoveKeepsDistinct(s[1..], x);
      if s[0] != x {
        var rest := Remove(s[1..], x);
        assert s[0] !in s[1..] by {
          forall j | 0 <= j < |s[1..]| ensures s[1..][j] != s[0] {
            assert s[1..][j] == s[j + 1];
          }
        }
        assert s[0] !in rest;
        forall i, j | 0 <= i < j < |[s[0]] + rest| ensures ([s[0]] + rest)[i] != ([s[0]] + rest)[j] {
          if i == 0 {
            assert ([s[0]] + rest)[j] == rest[j - 1];
            assert rest[j - 1] in rest;
          } else {
            assert ([s[0]] + rest)[i] == rest[i - 1];
            assert ([s[0]] + rest)[j] == rest[j - 1];
          }
        }
      }
    }
  }

  predicate Distinct(s: seq<string>)
  {
    forall i, j :: 0 <= i < j < |s| ==> s[i] != s[j]
  }

  /** `class InMemoryStorage`. */
  class InMemoryStorage {
    var projects: map<string, Project>
    /** The insertion order of `projectsMap`'s keys, which `list` follows. */
    var order: seq<string>
    var files: map<string, seq<ProjectFile>>
    var versions: map<string, seq<ProjectVersion>>
    var logs: seq<StoredLog>

    /**
     * The insertion order lists every project exactly once, and every project
     * has a file list and a version list.
     */
    ghost predicate Valid()
      reads this
    {
      Distinct(order) &&
      (forall id :: id in order <==> id in projects) &&
      projects.Keys <= files.Keys &&
      projects.Keys <= versions.Keys
    }

    constructor()
      ensures Valid()
      ensures projects == map[] && order == [] && files == map[] && versions == map[] && logs == []
    {
      projects, order, files, versions, logs := map[], [], map[], map[], [];
    }

    /**
     * `projects.create`: stores the project under `id` with empty file and
     * version lists. An id already in use keeps its place in the order and
     * loses its files and versions.
     */
    method CreateProject(id: string, data: ProjectData, now: Time) returns (p: Project)
      requires Valid()
      modifies this
      ensures Valid()
      ensures p == Project(id, data.name, data.description, now, now)
      ensures projects == old(projects)[id := p]
      ensures files == old(files)[id := []] && versions == old(versions)[id := []]
      ensures order == if id in old(order) then old(order) else old(order) + [id]
      ensures logs == old(logs)
    {
      p := Project(id, data.name, data.description, now, now);
      if id !in order {
        order := order + [id];
      }
      projects := projects[id := p];
      files := files[id := []];
      versions := versions[id := []];
    }

    /** `projects.list`: every project, in insertion order. */
    method ListProjects() returns (r: seq<Project>)
      requires Valid()
      ensures |r| == |order|
      ensures forall i :: 0 <= i < |r| ==> r[i] == projects[order[i]]
      ensures forall p :: p in r <==> exists id :: id in projects && projects[id] == p
    {
      r := seq(|order|, i requires 0 <= i < |order| && order[i] in projects reads this => projects[order[i]]);
      forall p | p in projects.Values ensures p in r {
        var id :| id in projects && projects[id] == p;
        var i :| 0 <= i < |order| && order[i] == id;
        assert r[i] == p;
      }
    }

    /** `projects.get`. */
    method GetProject(id: string) returns (r: Option<Project>)
      ensures r.Some? <==> id in projects
      ensures r.Some? ==> r.value == projects[id]
    {
      r := if id in projects then Some(projects[id]) else None;
    }

    /**
     * `projects.update`: 'Project not found' and no change for an unknown id;
     * otherwise the patched project is stored under the same key.
     */
    method UpdateProject(id: string, patch: ProjectPatch, now: Time) returns (r: Result<Project, string>)
      requires Valid()
      modifies this
      ensures Valid()
      ensures id !in old(projects) ==> r == Err("Project not found") && projects == old(projects)
      ensures id in old(projects) ==>
        r == Ok(ApplyPatch(old(projects)[id], patch, now)) && projects == old(projects)[id := r.value]
      ensures order == old(order) && files == old(files) && versions == old(versions) && logs == old(logs)
    {
      if id !in projects {
        return Err("Project not found");
      }
      var updated := ApplyPatch(projects[id], patch, now);
      projects := projects[id := updated];
      r := Ok(updated);
    }

    /** `projects.delete`: removes the project with its files and versions; nothing for an unknown id. */
    method DeleteProject(id: string)
      requires Valid()
      modifies this
      ensures Valid()
      ensures projects == old(projects) - {id}
      ensures files == old(files) - {id} && versions == old(versions) - {id}
      ensures order == Remove(old(order), id)
      ensures logs == old(logs)
    {
      RemoveKeepsDistinct(order, id);
      order := Remove(order, id);
      projects := projects - {id};
      files := files - {id};
      versions := versions - {id};
    }

    /** `files.create`: always appends, with no check on the path or on the project. */
    method CreateFile(projectId: string, fileId: string, data: FileData, now: Time) returns (f: ProjectFile)
      requires Valid()
      modifies this
      ensures Valid()
      ensures f == ProjectFile(fileId, projectId, data.path, data.content, data.fileType, now, now)
      ensures files == old(files)[projectId := FilesOf(old(files), projectId) + [f]]
      ensures projects == old(projects) && order == old(order) && versions == old(versions) && logs == old(logs)
    {
      f := ProjectFile(fileId, projectId, data.path, data.content, data.fileType, now, now);
      var projectFiles := FilesOf(files, projectId);
      files := files[projectId := projectFiles + [f]];
    }

    /** `files.list`: the files in creation order. */
    method ListFiles(projectId: string) returns (r: seq<ProjectFile>)
      ensures r == FilesOf(files, projectId)
    {
      r := FilesOf(files, projectId);
    }

    /** `files.get`: the first file with the path. */
    method GetFile(projectId: string, path: string) returns (r: Option<ProjectFile>)
      ensures r == FindByPath(FilesOf(files, projectId), path)
    {
      r := FindByPath(FilesOf(files, projectId), path);
    }

    /**
     * `files.update`: changes the content and modification time of the first
     * file with the path; 'File not found' when there is none.
     */
    method UpdateFile(projectId: string, path: string, content: string, now: Time) returns (r: Result<ProjectFile, string>)
      requires Valid()
      modifies this
      ensures Valid()
      ensures FindByPath(FilesOf(old(files), projectId), path).None? ==>
        r == Err("File not found") && files == old(files)
      ensures FindByPath(FilesOf(old(files), projectId), path).Some? ==>
        r == Ok(FindByPath(FilesOf(old(files), projectId), path).value.(content := content, updatedAt := now)) &&
        files == old(files)[projectId := WithFirstUpdated(old(files)[projectId], path, content, now)]
      ensures projects == old(projects) && order == old(order) && versions == old(versions) && logs == old(logs)
    {
      var projectFiles := FilesOf(files, projectId);
      match FirstWithPath(projectFiles, path)
      case None =>
        r := Err("File not found");
      case Some(i) =>
        var file := projectFiles[i].(content := content, updatedAt := now);
        files := files[projectId := projectFiles[i := file]];
        r := Ok(file);
    }

    /** `files.delete`: removes the first file with the path, if any. */
    method DeleteFile(projectId: string, path: string)
      requires Valid()
      modifies this
      ensures Valid()
      ensures projectId in old(files) ==> files == old(files)[projectId := WithoutFirst(old(files)[projectId], path)]
      ensures projectId !in old(files) ==> files == old(files)
      ensures projects == old(projects) && order == old(order) && versions == old(versions) && logs == old(logs)
    {
      if projectId in files {
        files := files[projectId := WithoutFirst(files[projectId], path)];
      }
    }

    /** `versions.create`: appends a version carrying the caller's number, snapshot and description. */
    method CreateVersion(projectId: string, versionId: string, data: VersionData, now: Time) returns (v: ProjectVersion)
      requires Valid()
      modifies this
      ensures Valid()
      ensures v == ProjectVersion(versionId, projectId, data.versionNumber, data.snapshot, data.description, now)
      ensures versions == old(versions)[projectId := VersionsOf(old(versions), projectId) + [v]]
      ensures projects == old(projects) && order == old(order) && files == old(files) && logs == old(logs)
    {
      v := ProjectVersion(versionId, projectId, data.versionNumber, data.snapshot, data.description, now);
      versions := versions[projectId := VersionsOf(versions, projectId) + [v]];
    }

    /** `versions.list`. */
    method ListVersions(projectId: string) returns (r: seq<ProjectVersion>)
      ensures r == VersionsOf(versions, projectId)
    {
      r := VersionsOf(versions, projectId);
    }

    /** `logs.add`. */
    method AddLog(agent: string, level: string, message: string, context: Option<string>)
      modifies this
      ensures logs == old(logs) + [StoredLog(agent, level, message, context)]
      ensures projects == old(projects) && order == old(order) && files == old(files) && versions == old(versions)
    {
      logs := logs + [StoredLog(agent, level, message, context)];
    }

    /** `logs.list(limit = 100)`: `logsList.slice(-limit)`. */
    method ListLogs(limit: Option<int>) returns (r: seq<StoredLog>)
      ensures r == TakeLast(logs, limit.GetOr(100))
      ensures limit.None? ==> |r| == if |logs| < 100 then |logs| else 100
    {
      r := TakeLast(logs, limit.GetOr(100));
    }

    /** `logs.clear`. */
    method ClearLogs()
      modifies this
      ensures logs == []
      ensures projects == old(projects) && order == old(order) && files == old(files) && versions == old(versions)
    {
      logs := [];
    }
  }
}
