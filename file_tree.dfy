/**
 * The file tree of a project's files (src/lib/utils.ts, `buildFileStructure`).
 *
 * The source builds folder objects that are shared between its lookup map and
 * the tree, and keeps a reference to the children list it is filling. Here
 * every node lives at a position of one node list, a folder's children are
 * positions in that list, the top level is a list of positions, and the map
 * sends a folder path to the position of its node: sharing is explicit.
 */
module FileTree {
  import opened Wrappers
  import opened JsText
  import opened Types

  datatype Kind = FileKind | FolderKind

  /** A `FileStructure` object; `children` are the positions of a folder's entries. */
  datatype Node = Node(path: string, name: string, kind: Kind, children: seq<nat>)

  /** `file.path.split('/')`. */
  function Parts(f: ProjectFile): seq<string>
  {
    Split(f.path, '/')
  }

  /** `path ? `${path}/${part}` : part`: an empty path so far is falsy, so nothing is put before the part. */
  function PathStep(path: string, part: string): string
  {
    if path == "" then part else path + "/" + part
  }

  /** The path after the first `n` parts. */
  function PrefixPath(parts: seq<string>, n: nat): string
    requires n <= |parts|
  {
    if n == 0 then "" else PathStep(PrefixPath(parts, n - 1), parts[n - 1])
  }

  /** The path of the first `m` parts of file `f`: the key of a folder. */
  function FolderKey(files: seq<ProjectFile>, f: nat, m: nat): string
    requires f < |files| && m <= |Parts(files[f])|
  {
    PrefixPath(Parts(files[f]), m)
  }

  /** A position in the input: a file and one of its parts. */
  type Pos = (nat, nat)

  /** Input order: by file, then by part. */
  predicate Before(a: Pos, b: Pos)
  {
    a.0 < b.0 || (a.0 == b.0 && a.1 < b.1)
  }

  predicate Increasing(s: seq<nat>)
  {
    forall t, u :: 0 <= t < u < |s| ==> s[t] < s[u]
  }

  /**
   * The node created at part `o.1` of file `o.0`: named after that part; a
   * file node, carrying the file's own path, exactly at the last part;
   * otherwise a folder with the path of the parts so far.
   */
  ghost predicate Made(files: seq<ProjectFile>, node: Node, o: Pos)
  {
    o.0 < |files| && o.1 < |Parts(files[o.0])| &&
    var parts := Parts(files[o.0]);
    node.name == parts[o.1] &&
    (node.kind == FileKind <==> o.1 == |parts| - 1) &&
    node.path == (if o.1 == |parts| - 1 then files[o.0].path else FolderKey(files, o.0, o.1 + 1))
  }

  /**
   * Every node was made at an input position before `(k, j)`, and the nodes
   * are listed in the order of those positions (so at most one per position).
   */
  ghost predicate Records(files: seq<ProjectFile>, nodes: seq<Node>, origin: seq<Pos>, k: nat, j: nat)
  {
    |origin| == |nodes| &&
    (forall i {:trigger origin[i]} :: 0 <= i < |nodes| ==> Made(files, nodes[i], origin[i]) && Before(origin[i], (k, j))) &&
    (forall i, i' {:trigger origin[i], origin[i']} :: 0 <= i < i' < |nodes| ==> Before(origin[i], origin[i']))
  }

  /**
   * The map sends each folder path to the one folder node with that path,
   * and every folder prefix of the input before `(k, j)` has its folder.
   */
  ghost predicate Keys(files: seq<ProjectFile>, nodes: seq<Node>, folders: map<string, nat>, k: nat, j: nat)
  {
    (forall key :: key in folders ==>
      folders[key] < |nodes| && nodes[folders[key]].kind == FolderKind && nodes[folders[key]].path == key) &&
    (forall i :: 0 <= i < |nodes| && nodes[i].kind == FolderKind ==>
      nodes[i].path in folders && folders[nodes[i].path] == i) &&
    (forall f, m {:trigger FolderKey(files, f, m)} ::
      0 <= f < |files| && 1 <= m < |Parts(files[f])| && Before((f, m - 1), (k, j)) ==>
      FolderKey(files, f, m) in folders)
  }

  /**
   * `holder[i]` is where node `i` sits: the top level (`None`) or the
   * children of an earlier folder. Each list holds exactly the nodes that
   * sit in it, in creation order; a file node has no children.
   */
  ghost predicate Placed(nodes: seq<Node>, top: seq<nat>, holder: seq<Option<nat>>)
  {
    |holder| == |nodes| &&
    (forall t :: 0 <= t < |top| ==> top[t] < |nodes| && holder[top[t]] == None) &&
    (forall p, t :: 0 <= p < |nodes| && 0 <= t < |nodes[p].children| ==>
      nodes[p].children[t] < |nodes| && holder[nodes[p].children[t]] == Some(p)) &&
    (forall i :: 0 <= i < |nodes| && holder[i].None? ==> i in top) &&
    (forall i :: 0 <= i < |nodes| && holder[i].Some? ==>
      holder[i].value < i && i in nodes[holder[i].value].children) &&
    Increasing(top) && (forall p :: 0 <= p < |nodes| ==> Increasing(nodes[p].children)) &&
    (forall p :: 0 <= p < |nodes| && nodes[p].kind == FileKind ==> nodes[p].children == [])
  }

  /**
   * A node made at the first part of a file sits at the top level; any
   * other sits in the folder whose path is that of the parts before it.
   */
  ghost predicate Parents(files: seq<ProjectFile>, nodes: seq<Node>, origin: seq<Pos>, holder: seq<Option<nat>>)
  {
    forall i {:trigger holder[i]} :: 0 <= i < |nodes| && i < |origin| && i < |holder| && Made(files, nodes[i], origin[i]) ==>
      (holder[i].None? <==> origin[i].1 == 0) &&
      (holder[i].Some? ==>
        holder[i].value < |nodes| && nodes[holder[i].value].kind == FolderKind &&
        nodes[holder[i].value].path == FolderKey(files, origin[i].0, origin[i].1))
  }

  /** The position of the last part of file `f`, where its file node is made. */
  function FileEnd(files: seq<ProjectFile>, f: nat): Pos
    requires f < |files|
  {
    (f, |Parts(files[f])| - 1)
  }

  /** Every file whose last part comes before `(k, j)` has its file node. */
  ghost predicate Covered(files: seq<ProjectFile>, origin: seq<Pos>, k: nat, j: nat)
  {
    forall f {:trigger FileEnd(files, f)} :: 0 <= f < |files| && Before(FileEnd(files, f), (k, j)) ==>
      exists i :: 0 <= i < |origin| && origin[i] == FileEnd(files, f)
  }

  /** What a file node shows of a file: its path, and the last part of it as its name. */
  function Leaf(f: ProjectFile): (string, string)
  {
    (f.path, Parts(f)[|Parts(f)| - 1])
  }

  function Leaves(files: seq<ProjectFile>): seq<(string, string)>
  {
    if files == [] then [] else Leaves(files[..|files| - 1]) + [Leaf(files[|files| - 1])]
  }

  /** The path and name of each file node, in list order. */
  function FileLeaves(nodes: seq<Node>): seq<(string, string)>
  {
    if nodes == [] then []
    else
      var n := nodes[|nodes| - 1];
      FileLeaves(nodes[..|nodes| - 1]) + (if n.kind == FileKind then [(n.path, n.name)] else [])
  }

  /** The file nodes so far stand for the files whose last part comes before `(k, j)`, in order. */
  ghost predicate Listed(files: seq<ProjectFile>, nodes: seq<Node>, k: nat, j: nat)
  {
    k <= |files| &&
    FileLeaves(nodes) == Leaves(files[..k]) + (if k < |files| && j == |Parts(files[k])| then [Leaf(files[k])] else [])
  }

  /** What the nodes record of the input positions before `(k, j)`, whatever their children. */
  ghost predicate Recorded(files: seq<ProjectFile>, nodes: seq<Node>, folders: map<string, nat>,
                           origin: seq<Pos>, holder: seq<Option<nat>>, k: nat, j: nat)
  {
    Records(files, nodes, origin, k, j) && Keys(files, nodes, folders, k, j) &&
    Parents(files, nodes, origin, holder) && Covered(files, origin, k, j) && Listed(files, nodes, k, j)
  }

  /** The whole state of the builder after the input positions before `(k, j)`. */
  ghost predicate Built(files: seq<ProjectFile>, nodes: seq<Node>, top: seq<nat>, folders: map<string, nat>,
                        origin: seq<Pos>, holder: seq<Option<nat>>, k: nat, j: nat)
  {
    Recorded(files, nodes, folders, origin, holder, k, j) && Placed(nodes, top, holder)
  }

  /** `current.push(idx)`: the entry goes to the top level or to the current folder's children. */
  function Attach(nodes: seq<Node>, top: seq<nat>, current: Option<nat>, idx: nat): (seq<Node>, seq<nat>)
    requires current.Some? ==> current.value < |nodes|
  {
    if current.None? then (nodes, top + [idx])
    else (nodes[current.value := nodes[current.value].(children := nodes[current.value].children + [idx])], top)
  }

  /** The list the walk is filling after the parts before `j` of `parts`: the top level, or the folder of those parts. */
  ghost predicate Current(parts: seq<string>, j: nat, folders: map<string, nat>, current: Option<nat>)
    requires j <= |parts|
  {
    (j == 0 ==> current == None) &&
    (j > 0 ==> PrefixPath(parts, j) in folders && current == Some(folders[PrefixPath(parts, j)]))
  }

  /** Two node lists that differ at most in children. */
  predicate SameShape(nodes: seq<Node>, nodes': seq<Node>)
  {
    |nodes'| == |nodes| &&
    forall i :: 0 <= i < |nodes| ==>
      nodes'[i].path == nodes[i].path && nodes'[i].name == nodes[i].name && nodes'[i].kind == nodes[i].kind
  }

  lemma AppendRecords(files: seq<ProjectFile>, nodes: seq<Node>, origin: seq<Pos>, k: nat, j: nat, node: Node)
    requires Records(files, nodes, origin, k, j) && Made(files, node, (k, j))
    ensures Records(files, nodes + [node], origin + [(k, j)], k, j + 1)
  {
    var nodes', origin' := nodes + [node], origin + [(k, j)];
    forall i | 0 <= i < |nodes'|
      ensures Made(files, nodes'[i], origin'[i]) && Before(origin'[i], (k, j + 1))
    {
      if i < |nodes| {
        assert nodes'[i] == nodes[i] && origin'[i] == origin[i];
      }
    }
    forall i, i' | 0 <= i < i' < |nodes'|
      ensures Before(origin'[i], origin'[i'])
    {
      assert origin'[i] == origin[i];
      if i' < |nodes| {
        assert origin'[i'] == origin[i'];
      }
    }
  }

  lemma AppendKeys(files: seq<ProjectFile>, nodes: seq<Node>, folders: map<string, nat>, k: nat, j: nat,
                   node: Node, folders': map<string, nat>)
    requires Keys(files, nodes, folders, k, j) && Made(files, node, (k, j))
    requires node.kind == FileKind ==> folders' == folders
    requires node.kind == FolderKind ==> node.path !in folders && folders' == folders[node.path := |nodes|]
    ensures Keys(files, nodes + [node], folders', k, j + 1)
  {
    var nodes' := nodes + [node];
    forall key | key in folders'
      ensures folders'[key] < |nodes'| && nodes'[folders'[key]].kind == FolderKind && nodes'[folders'[key]].path == key
    {
      if key in folders && (node.kind == FileKind || key != node.path) {
        assert nodes'[folders[key]] == nodes[folders[key]];
      }
    }
    forall i | 0 <= i < |nodes'| && nodes'[i].kind == FolderKind
      ensures nodes'[i].path in folders' && folders'[nodes'[i].path] == i
    {
      if i < |nodes| {
        assert nodes'[i] == nodes[i];
      }
    }
    forall f, m | 0 <= f < |files| && 1 <= m < |Parts(files[f])| && Before((f, m - 1), (k, j + 1))
      ensures FolderKey(files, f, m) in folders'
    {
      if !Before((f, m - 1), (k, j)) {
        assert f == k && m == j + 1;
      }
    }
  }

  lemma AppendParents(files: seq<ProjectFile>, nodes: seq<Node>, folders: map<string, nat>, origin: seq<Pos>,
                      holder: seq<Option<nat>>, k: nat, j: nat, node: Node, current: Option<nat>)
    requires Records(files, nodes, origin, k, j) && Keys(files, nodes, folders, k, j) && |holder| == |nodes|
    requires Parents(files, nodes, origin, holder)
    requires k < |files| && j < |Parts(files[k])| && Made(files, node, (k, j))
    requires Current(Parts(files[k]), j, folders, current)
    ensures Parents(files, nodes + [node], origin + [(k, j)], holder + [current])
  {
    var nodes', origin', holder' := nodes + [node], origin + [(k, j)], holder + [current];
    forall i {:trigger holder'[i]} | 0 <= i < |nodes'| && i < |origin'| && i < |holder'| && Made(files, nodes'[i], origin'[i])
      ensures (holder'[i].None? <==> origin'[i].1 == 0)
      ensures holder'[i].Some? ==>
        holder'[i].value < |nodes'| && nodes'[holder'[i].value].kind == FolderKind &&
        nodes'[holder'[i].value].path == FolderKey(files, origin'[i].0, origin'[i].1)
    {
      if i < |nodes| {
        assert nodes'[i] == nodes[i] && origin'[i] == origin[i] && holder'[i] == holder[i];
        assert Made(files, nodes[i], origin[i]);
        if holder[i].Some? {
          assert nodes'[holder[i].value] == nodes[holder[i].value];
        }
      } else if j > 0 {
        var key := PrefixPath(Parts(files[k]), j);
        assert nodes'[folders[key]] == nodes[folders[key]];
      }
    }
  }

  lemma AppendCovered(files: seq<ProjectFile>, origin: seq<Pos>, k: nat, j: nat)
    requires Covered(files, origin, k, j)
    ensures Covered(files, origin + [(k, j)], k, j + 1)
  {
    var origin' := origin + [(k, j)];
    forall f {:trigger FileEnd(files, f)} | 0 <= f < |files| && Before(FileEnd(files, f), (k, j + 1))
      ensures exists i :: 0 <= i < |origin'| && origin'[i] == FileEnd(files, f)
    {
      if FileEnd(files, f) == (k, j) {
        assert origin'[|origin|] == FileEnd(files, f);
      } else {
        var i :| 0 <= i < |origin| && origin[i] == FileEnd(files, f);
        assert origin'[i] == FileEnd(files, f);
      }
    }
  }

  lemma FileLeavesAppend(nodes: seq<Node>, node: Node)
    ensures FileLeaves(nodes + [node]) ==
      FileLeaves(nodes) + (if node.kind == FileKind then [(node.path, node.name)] else [])
  {
    assert (nodes + [node])[..|nodes|] == nodes;
  }

  lemma {:induction false} FileLeavesShape(nodes: seq<Node>, nodes': seq<Node>)
    requires SameShape(nodes, nodes')
    ensures FileLeaves(nodes') == FileLeaves(nodes)
    decreases |nodes|
  {
    if nodes != [] {
      FileLeavesShape(nodes[..|nodes| - 1], nodes'[..|nodes| - 1]);
    }
  }

  lemma AppendListed(files: seq<ProjectFile>, nodes: seq<Node>, k: nat, j: nat, node: Node)
    requires Listed(files, nodes, k, j)
    requires k < |files| && j < |Parts(files[k])| && Made(files, node, (k, j))
    ensures Listed(files, nodes + [node], k, j + 1)
  {
    FileLeavesAppend(nodes, node);
  }

  /** Filling a children list changes no path, name or kind. */
  lemma ShapeKept(files: seq<ProjectFile>, nodes: seq<Node>, nodes': seq<Node>, folders: map<string, nat>,
                  origin: seq<Pos>, holder: seq<Option<nat>>, k: nat, j: nat)
    requires SameShape(nodes, nodes') && |holder| == |nodes|
    requires Recorded(files, nodes, folders, origin, holder, k, j)
    ensures Recorded(files, nodes', folders, origin, holder, k, j)
  {
    FileLeavesShape(nodes, nodes');
    forall i {:trigger holder[i]} | 0 <= i < |nodes'| && i < |origin| && i < |holder| && Made(files, nodes'[i], origin[i])
      ensures Made(files, nodes[i], origin[i])
    {
    }
  }

  /** `current.push(idx)` for the new node: it sits in the list it was added to. */
  lemma AttachPlaced(nodes: seq<Node>, top: seq<nat>, holder: seq<Option<nat>>, node: Node, current: Option<nat>)
    requires Placed(nodes, top, holder) && node.children == []
    requires current.Some? ==> current.value < |nodes| && nodes[current.value].kind == FolderKind
    ensures Placed(Attach(nodes + [node], top, current, |nodes|).0, Attach(nodes + [node], top, current, |nodes|).1,
                   holder + [current])
    ensures SameShape(nodes + [node], Attach(nodes + [node], top, current, |nodes|).0)
  {
    var (nodes', top') := Attach(nodes + [node], top, current, |nodes|);
    AttachLists(nodes, top, holder, node, current);
    AttachHolders(nodes, top, holder, node, current);
    assert Increasing(top') by {
      if current.None? {
        forall t | 0 <= t < |top| ensures top[t] < |nodes| { }
      }
    }
    forall p | 0 <= p < |nodes'|
      ensures Increasing(nodes'[p].children)
    {
      if current.Some? && p == current.value {
        forall t | 0 <= t < |nodes[p].children| ensures nodes[p].children[t] < |nodes| { }
      } else if p < |nodes| {
        assert nodes'[p] == nodes[p];
      }
    }
  }

  /** After the push, every entry of a list sits in that list. */
  lemma AttachLists(nodes: seq<Node>, top: seq<nat>, holder: seq<Option<nat>>, node: Node, current: Option<nat>)
    requires Placed(nodes, top, holder) && node.children == []
    requires current.Some? ==> current.value < |nodes| && nodes[current.value].kind == FolderKind
    ensures var (nodes', top') := Attach(nodes + [node], top, current, |nodes|);
      var holder' := holder + [current];
      (forall t :: 0 <= t < |top'| ==> top'[t] < |nodes'| && holder'[top'[t]] == None) &&
      (forall p, t :: 0 <= p < |nodes'| && 0 <= t < |nodes'[p].children| ==>
        nodes'[p].children[t] < |nodes'| && holder'[nodes'[p].children[t]] == Some(p)) &&
      (forall p :: 0 <= p < |nodes'| && nodes'[p].kind == FileKind ==> nodes'[p].children == [])
  {
    var n := |nodes|;
    var (nodes', top') := Attach(nodes + [node], top, current, n);
    var holder' := holder + [current];
    forall t | 0 <= t < |top'|
      ensures top'[t] < |nodes'| && holder'[top'[t]] == None
    {
      if t < |top| {
        assert top'[t] == top[t];
      }
    }
    forall p, t | 0 <= p < |nodes'| && 0 <= t < |nodes'[p].children|
      ensures nodes'[p].children[t] < |nodes'| && holder'[nodes'[p].children[t]] == Some(p)
    {
      if p < n && t < |nodes[p].children| {
        assert nodes'[p].children[t] == nodes[p].children[t];
      }
    }
  }

  /** After the push, every node sits in the list its holder names. */
  lemma AttachHolders(nodes: seq<Node>, top: seq<nat>, holder: seq<Option<nat>>, node: Node, current: Option<nat>)
    requires Placed(nodes, top, holder) && node.children == []
    requires current.Some? ==> current.value < |nodes| && nodes[current.value].kind == FolderKind
    ensures var (nodes', top') := Attach(nodes + [node], top, current, |nodes|);
      var holder' := holder + [current];
      |holder'| == |nodes'| && SameShape(nodes + [node], nodes') &&
      (forall i :: 0 <= i < |nodes'| && holder'[i].None? ==> i in top') &&
      (forall i :: 0 <= i < |nodes'| && holder'[i].Some? ==>
        holder'[i].value < i && i in nodes'[holder'[i].value].children)
  {
    var n := |nodes|;
    var (nodes', top') := Attach(nodes + [node], top, current, n);
    var holder' := holder + [current];
    forall i | 0 <= i < |nodes'| && holder'[i].None?
      ensures i in top'
    {
      if i < n {
        assert holder'[i] == holder[i];
        var t :| 0 <= t < |top| && top[t] == i;
        assert top'[t] == i;
      } else {
        assert top'[|top'| - 1] == i;
      }
    }
    forall i | 0 <= i < |nodes'| && holder'[i].Some?
      ensures holder'[i].value < i && i in nodes'[holder'[i].value].children
    {
      if i < n {
        assert holder'[i] == holder[i];
        var p := holder[i].value;
        var t :| 0 <= t < |nodes[p].children| && nodes[p].children[t] == i;
        assert nodes'[p].children[t] == i;
      } else {
        var c := current.value;
        assert nodes'[c].children[|nodes'[c].children| - 1] == i;
      }
    }
  }

  /** The new node, before it is pushed: what the nodes record goes one position further. */
  lemma AppendRecorded(files: seq<ProjectFile>, nodes: seq<Node>, folders: map<string, nat>,
                       origin: seq<Pos>, holder: seq<Option<nat>>, k: nat, j: nat,
                       node: Node, current: Option<nat>, folders': map<string, nat>)
    requires Recorded(files, nodes, folders, origin, holder, k, j) == true && |holder| == |nodes|
    requires k < |files| && j < |Parts(files[k])| && Made(files, node, (k, j)) == true
    requires Current(Parts(files[k]), j, folders, current) == true
    requires node.kind == FileKind ==> folders' == folders
    requires node.kind == FolderKind ==> node.path !in folders && folders' == folders[node.path := |nodes|]
    ensures Recorded(files, nodes + [node], folders', origin + [(k, j)], holder + [current], k, j + 1)
    ensures current.Some? ==> current.value < |nodes| && nodes[current.value].kind == FolderKind
  {
    AppendRecords(files, nodes, origin, k, j, node);
    AppendKeys(files, nodes, folders, k, j, node, folders');
    AppendParents(files, nodes, folders, origin, holder, k, j, node, current);
    AppendCovered(files, origin, k, j);
    AppendListed(files, nodes, k, j, node);
  }

  /** Pushing the new node in the current list keeps the state, one position further. */
  lemma AddNode(files: seq<ProjectFile>, nodes: seq<Node>, top: seq<nat>, folders': map<string, nat>,
                origin: seq<Pos>, holder: seq<Option<nat>>, k: nat, j: nat, node: Node, current: Option<nat>)
    requires Recorded(files, nodes + [node], folders', origin, holder + [current], k, j) == true && |holder| == |nodes|
    requires Placed(nodes, top, holder) == true && node.children == []
    requires current.Some? ==> current.value < |nodes| && nodes[current.value].kind == FolderKind
    ensures Built(files, Attach(nodes + [node], top, current, |nodes|).0, Attach(nodes + [node], top, current, |nodes|).1,
                  folders', origin, holder + [current], k, j)
  {
    AttachPlaced(nodes, top, holder, node, current);
    ShapeKept(files, nodes + [node], Attach(nodes + [node], top, current, |nodes|).0, folders', origin, holder + [current], k, j);
  }

  /** Meeting a folder prefix that already has its node changes nothing but the position. */
  lemma ReuseFolder(files: seq<ProjectFile>, nodes: seq<Node>, top: seq<nat>, folders: map<string, nat>,
                    origin: seq<Pos>, holder: seq<Option<nat>>, k: nat, j: nat)
    requires Built(files, nodes, top, folders, origin, holder, k, j)
    requires k < |files| && j < |Parts(files[k])| - 1 && FolderKey(files, k, j + 1) in folders
    ensures Built(files, nodes, top, folders, origin, holder, k, j + 1)
  {
  }

  /** After the last part of a file, the next file starts. */
  lemma NextFile(files: seq<ProjectFile>, nodes: seq<Node>, top: seq<nat>, folders: map<string, nat>,
                 origin: seq<Pos>, holder: seq<Option<nat>>, k: nat)
    requires k < |files| && Built(files, nodes, top, folders, origin, holder, k, |Parts(files[k])|)
    ensures Built(files, nodes, top, folders, origin, holder, k + 1, 0)
  {
    assert files[..k + 1][..k] == files[..k];
  }

  /** Some folder node has this path. */
  ghost predicate HasFolder(nodes: seq<Node>, path: string)
  {
    exists i :: 0 <= i < |nodes| && nodes[i].kind == FolderKind && nodes[i].path == path
  }

  /** Before the first file, nothing is recorded. */
  lemma NothingBuilt(files: seq<ProjectFile>)
    ensures Built(files, [], [], map[], [], [], 0, 0)
  {
    assert files[..0] == [];
  }

  /** Once every file is walked, every node was made in input order and sits where its parent path says. */
  lemma AllNodes(files: seq<ProjectFile>, nodes: seq<Node>, top: seq<nat>, folders: map<string, nat>,
                 origin: seq<Pos>, holder: seq<Option<nat>>)
    requires Built(files, nodes, top, folders, origin, holder, |files|, 0) == true
    ensures |origin| == |holder| == |nodes|
    ensures forall i :: 0 <= i < |nodes| ==> Made(files, nodes[i], origin[i])
    ensures forall i, i' :: 0 <= i < i' < |nodes| ==> Before(origin[i], origin[i'])
    ensures Placed(nodes, top, holder) && Parents(files, nodes, origin, holder)
  {
  }

  /** Once every file is walked, the file nodes are the files, in order. */
  lemma AllFiles(files: seq<ProjectFile>, nodes: seq<Node>, top: seq<nat>, folders: map<string, nat>,
                 origin: seq<Pos>, holder: seq<Option<nat>>)
    requires Built(files, nodes, top, folders, origin, holder, |files|, 0) == true
    ensures FileLeaves(nodes) == Leaves(files)
  {
    assert files[..|files|] == files;
  }

  /** Once every file is walked, each directory prefix has exactly one folder node. */
  lemma AllFolders(files: seq<ProjectFile>, nodes: seq<Node>, top: seq<nat>, folders: map<string, nat>,
                   origin: seq<Pos>, holder: seq<Option<nat>>)
    requires Built(files, nodes, top, folders, origin, holder, |files|, 0) == true
    ensures forall i, i' ::
      (0 <= i < |nodes| && 0 <= i' < |nodes| && nodes[i].kind == FolderKind &&
       nodes[i'].kind == FolderKind && nodes[i].path == nodes[i'].path) ==> i == i'
    ensures forall f, m :: 0 <= f < |files| && 1 <= m < |Parts(files[f])| ==>
      HasFolder(nodes, FolderKey(files, f, m))
  {
    forall f, m | 0 <= f < |files| && 1 <= m < |Parts(files[f])|
      ensures HasFolder(nodes, FolderKey(files, f, m))
    {
      var key := FolderKey(files, f, m);
      assert Before((f, m - 1), (|files|, 0));
      assert key in folders;
      var i := folders[key];
      assert 0 <= i < |nodes| && nodes[i].kind == FolderKind && nodes[i].path == key;
    }
  }

  /**
   * `buildFileStructure`: for each file in turn, walks its parts, reusing
   * the folder of each directory prefix met before and creating the missing
   * ones, and puts a file node in the innermost folder. `origin` and
   * `holder` tell, for each node, where in the input it was made and where
   * it sits.
   */
  method BuildFileStructure(files: seq<ProjectFile>)
    returns (nodes: seq<Node>, top: seq<nat>, ghost origin: seq<Pos>, ghost holder: seq<Option<nat>>)
    ensures FileLeaves(nodes) == Leaves(files)
    ensures |origin| == |holder| == |nodes|
    ensures forall i :: 0 <= i < |nodes| ==> Made(files, nodes[i], origin[i])
    ensures forall i, i' :: 0 <= i < i' < |nodes| ==> Before(origin[i], origin[i'])
    ensures forall i, i' ::
      (0 <= i < |nodes| && 0 <= i' < |nodes| && nodes[i].kind == FolderKind &&
       nodes[i'].kind == FolderKind && nodes[i].path == nodes[i'].path) ==> i == i'
    ensures forall f, m :: 0 <= f < |files| && 1 <= m < |Parts(files[f])| ==>
      HasFolder(nodes, FolderKey(files, f, m))
    ensures Placed(nodes, top, holder) && Parents(files, nodes, origin, holder)
  {
    nodes, top, origin, holder := [], [], [], [];
    var folders: map<string, nat> := map[];
    NothingBuilt(files);
    var k := 0;
    while k < |files|
      invariant k <= |files|
      invariant Built(files, nodes, top, folders, origin, holder, k, 0) == true
    {
      nodes, top, folders, origin, holder := AddPath(files, k, nodes, top, folders, origin, holder);
      k := k + 1;
    }
    AllFiles(files, nodes, top, folders, origin, holder);
    AllFolders(files, nodes, top, folders, origin, holder);
    AllNodes(files, nodes, top, folders, origin, holder);
  }

  /** The walk over file `k` after its first `j` parts: the state, the path so far and the list being filled. */
  ghost predicate Walk(files: seq<ProjectFile>, k: nat, j: nat, path: string, current: Option<nat>,
                       nodes: seq<Node>, top: seq<nat>, folders: map<string, nat>,
                       origin: seq<Pos>, holder: seq<Option<nat>>)
  {
    k < |files| && j <= |Parts(files[k])| &&
    Built(files, nodes, top, folders, origin, holder, k, j) &&
    path == PrefixPath(Parts(files[k]), j) &&
    (j < |Parts(files[k])| ==> Current(Parts(files[k]), j, folders, current))
  }

  /** The walk over the parts of file `k`. */
  method AddPath(files: seq<ProjectFile>, k: nat, nodes0: seq<Node>, top0: seq<nat>, folders0: map<string, nat>,
                 ghost origin0: seq<Pos>, ghost holder0: seq<Option<nat>>)
    returns (nodes: seq<Node>, top: seq<nat>, folders: map<string, nat>,
             ghost origin: seq<Pos>, ghost holder: seq<Option<nat>>)
    requires k < |files| && Built(files, nodes0, top0, folders0, origin0, holder0, k, 0) == true
    ensures Built(files, nodes, top, folders, origin, holder, k + 1, 0)
  {
    nodes, top, folders, origin, holder := nodes0, top0, folders0, origin0, holder0;
    var parts := Split(files[k].path, '/');
    var current: Option<nat> := None;
    var path := "";
    var j := 0;
    while j < |parts|
      invariant j <= |parts| && parts == Parts(files[k])
      invariant Walk(files, k, j, path, current, nodes, top, folders, origin, holder) == true
    {
      nodes, top, folders, origin, holder, current, path := AddPart(files, k, j, path, current, nodes, top, folders, origin, holder);
      j := j + 1;
    }
    NextFile(files, nodes, top, folders, origin, holder, k);
  }

  /**
   * One part of file `k`: its file node at the last part; otherwise the
   * folder of the path so far, found in the map or created and added.
   */
  method AddPart(files: seq<ProjectFile>, k: nat, j: nat, path0: string, current0: Option<nat>,
                 nodes0: seq<Node>, top0: seq<nat>, folders0: map<string, nat>,
                 ghost origin0: seq<Pos>, ghost holder0: seq<Option<nat>>)
    returns (nodes: seq<Node>, top: seq<nat>, folders: map<string, nat>,
             ghost origin: seq<Pos>, ghost holder: seq<Option<nat>>, current: Option<nat>, path: string)
    requires k < |files| && j < |Parts(files[k])|
    requires Walk(files, k, j, path0, current0, nodes0, top0, folders0, origin0, holder0) == true
    ensures Walk(files, k, j + 1, path, current, nodes, top, folders, origin, holder)
  {
    nodes, top, folders, origin, holder, current := nodes0, top0, folders0, origin0, holder0, current0;
    var parts := Parts(files[k]);
    var part := parts[j];
    path := PathStep(path0, part);
    if j == |parts| - 1 {
      var node := Node(files[k].path, part, FileKind, []);
      nodes, top, origin, holder := AddEntry(files, k, j, node, current, nodes, top, folders, folders, origin, holder);
    } else {
      if path !in folders {
        var node := Node(path, part, FolderKind, []);
        var folders' := folders[path := |nodes|];
        nodes, top, origin, holder := AddEntry(files, k, j, node, current, nodes, top, folders, folders', origin, holder);
        folders := folders';
      } else {
        ReuseFolder(files, nodes, top, folders, origin, holder, k, j);
      }
      current := Some(folders[path]);
    }
  }

  /** A new node at the end of the list, pushed in the current list (`current.push(...)`). */
  method AddEntry(files: seq<ProjectFile>, k: nat, j: nat, node: Node, current: Option<nat>,
                  nodes0: seq<Node>, top0: seq<nat>, folders0: map<string, nat>, folders: map<string, nat>,
                  ghost origin0: seq<Pos>, ghost holder0: seq<Option<nat>>)
    returns (nodes: seq<Node>, top: seq<nat>, ghost origin: seq<Pos>, ghost holder: seq<Option<nat>>)
    requires k < |files| && j < |Parts(files[k])| && Made(files, node, (k, j)) == true && node.children == []
    requires Built(files, nodes0, top0, folders0, origin0, holder0, k, j) == true
    requires Current(Parts(files[k]), j, folders0, current) == true
    requires node.kind == FileKind ==> folders == folders0
    requires node.kind == FolderKind ==> node.path !in folders0 && folders == folders0[node.path := |nodes0|]
    ensures Built(files, nodes, top, folders, origin, holder, k, j + 1) == true
    ensures |nodes| == |nodes0| + 1
  {
    AppendRecorded(files, nodes0, folders0, origin0, holder0, k, j, node, current, folders);
    AddNode(files, nodes0, top0, folders, origin0 + [(k, j)], holder0, k, j + 1, node, current);
    var attached := Attach(nodes0 + [node], top0, current, |nodes0|);
    nodes, top := attached.0, attached.1;
    origin, holder := origin0 + [(k, j)], holder0 + [current];
  }
}
