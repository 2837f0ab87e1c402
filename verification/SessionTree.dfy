/** src/sessionTree.ts, with the root matching of src/sessionRoots.ts: the session panel's
    tree. Canonical paths and the rewriting relative to the home directory are parameters. */
module SessionTree {
  import opened Collections
  import opened Grouping

  type Path = string

  /** A session's row; `path` is its directory key, unless the host reports no directory. */
  datatype Row = Row(name: string, path: Option<Path>, activity: nat, attached: bool)

  /** A root, registered or derived. */
  datatype Root = Root(key: Path, caption: string)

  /** The panel's setting: `derive` is the root of a path when none is registered, and
      `sanitise` the form a directory name takes inside a session name. */
  datatype Setup = Setup(configured: seq<Root>, derive: Path -> Option<Root>, sanitise: string -> string)

  // ----- registered roots -----

  /** How stored roots are read on one host: cleaned, or refused; folded to one key; captioned. */
  datatype Reading = Reading(normalise: string -> Option<Path>, keyOf: Path -> Path, captionOf: Path -> string)

  predicate HasRoot(roots: seq<Root>, key: Path) {
    exists i :: 0 <= i < |roots| && roots[i].key == key
  }

  /** The first of each key, in registered order. */
  function Resolved(reading: Reading, sources: seq<string>): seq<Root> {
    if sources == [] then []
    else
      var before, canonical := Resolved(reading, sources[..|sources| - 1]), reading.normalise(sources[|sources| - 1]);
      if canonical.None? || HasRoot(before, reading.keyOf(canonical.value)) then before
      else before + [Root(reading.keyOf(canonical.value), reading.captionOf(reading.keyOf(canonical.value)))]
  }

  function Bearing(roots: seq<Root>, caption: string): nat {
    if roots == [] then 0
    else Bearing(roots[..|roots| - 1], caption) + if roots[|roots| - 1].caption == caption then 1 else 0
  }

  function FullCaption(key: Path): string {
    if "~/" <= key then key[2..] else key
  }

  /** Roots that share a caption get their whole key instead. */
  function Apart(roots: seq<Root>): (r: seq<Root>)
    ensures |r| == |roots| && forall i | 0 <= i < |roots| :: r[i].key == roots[i].key
  {
    seq(|roots|, i requires 0 <= i < |roots| =>
      if Bearing(roots, roots[i].caption) < 2 then roots[i] else roots[i].(caption := FullCaption(roots[i].key)))
  }

  method ResolveRoots(reading: Reading, sources: seq<string>) returns (roots: seq<Root>)
    ensures roots == Apart(Resolved(reading, sources))
  {
    var resolved: seq<Root> := [];
    var seen: set<Path> := {};
    for i := 0 to |sources|
      invariant resolved == Resolved(reading, sources[..i])
      invariant forall key :: key in seen <==> HasRoot(resolved, key)
    {
      assert sources[..i + 1][..i] == sources[..i];
      var canonical := reading.normalise(sources[i]);
      if canonical.Some? {
        var key := reading.keyOf(canonical.value);
        if key !in seen {
          seen := seen + {key};
          ghost var before := resolved;
          resolved := resolved + [Root(key, reading.captionOf(key))];
          assert forall k :: HasRoot(resolved, k) <==> HasRoot(before, k) || k == key by {
            assert resolved[|before|].key == key;
            assert forall j | 0 <= j < |before| :: resolved[j] == before[j];
          }
        }
      }
    }
    assert sources[..|sources|] == sources;
    roots := LabelRootsApart(resolved);
  }

  method LabelRootsApart(resolved: seq<Root>) returns (roots: seq<Root>)
    ensures roots == Apart(resolved)
  {
    roots := [];
    for i := 0 to |resolved|
      invariant roots == Apart(resolved)[..i]
    {
      var root := resolved[i];
      roots := roots + [if Bearing(resolved, root.caption) < 2 then root else root.(caption := FullCaption(root.key))];
    }
  }

  // ----- which root -----

  predicate EndsWithSlash(path: Path) {
    path != "" && path[|path| - 1] == '/'
  }

  /** `startsWith`, at a path boundary. */
  predicate PathWithinRoot(path: Path, root: Path) {
    path == root || (if EndsWithSlash(root) then root <= path else root + "/" <= path)
  }

  /** The registered root that claims a path: the longest that contains it. */
  ghost predicate IsBest(path: Path, roots: seq<Root>, best: Option<Root>) {
    match best
    case None => forall i | 0 <= i < |roots| :: !PathWithinRoot(path, roots[i].key)
    case Some(root) =>
      && root in roots && PathWithinRoot(path, root.key)
      && forall i | 0 <= i < |roots| && PathWithinRoot(path, roots[i].key) :: |roots[i].key| <= |root.key|
  }

  function Best(path: Path, roots: seq<Root>): (best: Option<Root>)
    ensures IsBest(path, roots, best)
  {
    if roots == [] then None
    else
      var before, root := Best(path, roots[..|roots| - 1]), roots[|roots| - 1];
      if PathWithinRoot(path, root.key) && (before.None? || |root.key| > |before.value.key|) then Some(root) else before
  }

  method BestRootForPath(path: Path, roots: seq<Root>) returns (best: Option<Root>)
    ensures best == Best(path, roots)
  {
    best := None;
    for i := 0 to |roots|
      invariant best == Best(path, roots[..i])
    {
      assert roots[..i + 1][..i] == roots[..i];
      if PathWithinRoot(path, roots[i].key) && (best.None? || |roots[i].key| > |best.value.key|) {
        best := Some(roots[i]);
      }
    }
    assert roots[..|roots|] == roots;
  }

  /** No two roots of one length contain the same path: the longest is one root. */
  lemma LongestIsOne(path: Path, a: Path, b: Path)
    requires PathWithinRoot(path, a) && PathWithinRoot(path, b) && |a| == |b|
    ensures a == b
  {
    assert a == path[..|a|] && b == path[..|b|];
  }

  /** The first non-empty part of a session name. */
  function FirstPart(name: string): string {
    if name == "" then ""
    else if name[0] == '-' then FirstPart(name[1..])
    else Leading(name)
  }

  function Leading(name: string): string {
    if name == "" || name[0] == '-' then "" else [name[0]] + Leading(name[1..])
  }

  /** The root a session's name points at, for a session without a path: the labels are
      compared in turn, and a label stands for the last root that bears it. */
  function FromName(setup: Setup, name: string, known: seq<Root>): (key: Option<Path>)
    ensures key.Some? ==> exists i :: 0 <= i < |known| && known[i].key == key.value
  {
    var first := FirstPart(name);
    if first == "" then None
    else
      var caption := FirstLabel(setup, known, first);
      if caption.None? then None else LastBearing(known, caption.value)
  }

  function FirstLabel(setup: Setup, known: seq<Root>, first: string): Option<string> {
    if known == [] then None
    else if setup.sanitise(known[0].caption) == first then Some(known[0].caption)
    else FirstLabel(setup, known[1..], first)
  }

  function LastBearing(known: seq<Root>, caption: string): (key: Option<Path>)
    ensures key.Some? ==> exists i :: 0 <= i < |known| && known[i].key == key.value
  {
    if known == [] then None
    else if known[|known| - 1].caption == caption then Some(known[|known| - 1].key)
    else LastBearing(known[..|known| - 1], caption)
  }

  /** The roots derived from the rows that have a path. */
  function Derived(setup: Setup, rows: seq<Row>): seq<Root> {
    if rows == [] then []
    else
      var last := rows[|rows| - 1];
      Derived(setup, rows[..|rows| - 1])
      + if last.path.Some? && setup.derive(last.path.value).Some? then [setup.derive(last.path.value).value] else []
  }

  function KnownRoots(setup: Setup, rows: seq<Row>): seq<Root> {
    if setup.configured != [] then setup.configured else Derived(setup, rows)
  }

  function KeyOf(root: Option<Root>): Option<Path> {
    if root.None? then None else Some(root.value.key)
  }

  /** The root of a row; None is the bucket of the others. */
  function Place(setup: Setup, known: seq<Root>, row: Row): Option<Path> {
    match row.path
    case None => FromName(setup, row.name, known)
    case Some(path) => KeyOf(if setup.configured != [] then Best(path, setup.configured) else setup.derive(path))
  }

  function PlaceIn(setup: Setup, known: seq<Root>): Row -> Option<Path> {
    row => Place(setup, known, row)
  }

  // ----- which directory -----

  datatype DirectoryKey = Tracked(path: Path) | Untracked(name: string)

  function DirectoryKeyOf(row: Row): DirectoryKey {
    if row.path.Some? then Tracked(row.path.value) else Untracked(row.name)
  }

  datatype Directory = Directory(key: DirectoryKey, rows: seq<Row>, mostRecentActivity: nat, active: bool, inferredRoot: bool)

  /** A folder of the panel; `key` None is the bucket of the others. */
  datatype Folder = Folder(
    key: Option<Path>, directories: seq<Directory>, sessionCount: nat, mostRecentActivity: nat, active: bool, configured: bool)

  function Newest(rows: seq<Row>): nat {
    if rows == [] then 0
    else
      var before, last := Newest(rows[..|rows| - 1]), rows[|rows| - 1].activity;
      if last > before then last else before
  }

  predicate AnyAttached(rows: seq<Row>) {
    exists i :: 0 <= i < |rows| && rows[i].attached
  }

  function DirectoryOf(root: Option<Path>, group: Group<DirectoryKey, Row>): Directory {
    Directory(group.key, group.rows, Newest(group.rows), AnyAttached(group.rows), group.key.Untracked? && root.Some?)
  }

  function ToDirectory(root: Option<Path>): Group<DirectoryKey, Row> -> Directory {
    group => DirectoryOf(root, group)
  }

  function BuildDirectories(root: Option<Path>, rows: seq<Row>): seq<Directory> {
    Map(GroupAll([], rows, DirectoryKeyOf), ToDirectory(root))
  }

  function NewestOf(directories: seq<Directory>): nat {
    if directories == [] then 0
    else
      var before, last := NewestOf(directories[..|directories| - 1]), directories[|directories| - 1].mostRecentActivity;
      if last > before then last else before
  }

  function FolderOf(setup: Setup, group: Group<Option<Path>, Row>): Folder {
    var directories := BuildDirectories(group.key, group.rows);
    Folder(group.key, directories, |group.rows|, NewestOf(directories),
           exists i :: 0 <= i < |directories| && directories[i].active,
           exists i :: 0 <= i < |setup.configured| && group.key == Some(setup.configured[i].key))
  }

  /** Registered roots first, empty as yet, in registered order. */
  function Seed(setup: Setup): seq<Group<Option<Path>, Row>> {
    Map(setup.configured, (root: Root) => Group(Some(root.key), []))
  }

  function ByRoot(setup: Setup, rows: seq<Row>): seq<Group<Option<Path>, Row>> {
    var known := KnownRoots(setup, rows);
    GroupAll(Seed(setup), rows, PlaceIn(setup, known))
  }

  /** The bucket of the others goes last. */
  function OtherLast(groups: seq<Group<Option<Path>, Row>>): seq<Group<Option<Path>, Row>> {
    Filter(groups, IsRoot) + Filter(groups, IsOther)
  }

  predicate IsRoot(group: Group<Option<Path>, Row>) {
    group.key.Some?
  }

  predicate IsOther(group: Group<Option<Path>, Row>) {
    group.key.None?
  }

  function ToFolder(setup: Setup): Group<Option<Path>, Row> -> Folder {
    group => FolderOf(setup, group)
  }

  /** The folders, the others last. The source then sorts the registered ones by rank, which
      changes nothing: they already are in that order (`SessionTreeFacts.RegisteredOrder`). */
  function Tree(setup: Setup, rows: seq<Row>): seq<Folder> {
    Map(OtherLast(ByRoot(setup, rows)), ToFolder(setup))
  }

  /** `groupSessionsIntoRoots`, after the roots are resolved and the rows built. */
  method GroupSessionsIntoRoots(setup: Setup, rows: seq<Row>) returns (tree: seq<Folder>)
    ensures tree == Tree(setup, rows)
  {
    hide FolderOf, OtherLast, GroupAll, Place;
    var known := KnownRoots(setup, rows);
    var byRoot := FillGroups(Seed(setup), rows, PlaceIn(setup, known));
    assert byRoot == ByRoot(setup, rows);
    var ordered := OtherLast(byRoot);
    tree := [];
    for i := 0 to |ordered|
      invariant tree == Tree(setup, rows)[..i]
    {
      var folder := MakeFolder(setup, ordered[i]);
      tree := tree + [folder];
    }
  }

  method MakeFolder(setup: Setup, group: Group<Option<Path>, Row>) returns (folder: Folder)
    ensures folder == FolderOf(setup, group)
  {
    var directories := DirectoriesOf(group.key, group.rows);
    var newest, active := Summarise(directories);
    var configured := exists i :: 0 <= i < |setup.configured| && group.key == Some(setup.configured[i].key);
    folder := Folder(group.key, directories, |group.rows|, newest, active, configured);
  }

  /** The newest activity of all directories, and whether one is active. */
  method Summarise(directories: seq<Directory>) returns (newest: nat, active: bool)
    ensures newest == NewestOf(directories)
    ensures active <==> exists i :: 0 <= i < |directories| && directories[i].active
  {
    newest, active := 0, false;
    for i := 0 to |directories|
      invariant newest == NewestOf(directories[..i])
      invariant active <==> exists j :: 0 <= j < i && directories[j].active
    {
      assert directories[..i + 1][..i] == directories[..i];
      if directories[i].mostRecentActivity > newest {
        newest := directories[i].mostRecentActivity;
      }
      active := active || directories[i].active;
    }
    assert directories[..|directories|] == directories;
  }

  method DirectoriesOf(root: Option<Path>, rows: seq<Row>) returns (directories: seq<Directory>)
    ensures directories == BuildDirectories(root, rows)
  {
    var groups := FillGroups([], rows, DirectoryKeyOf);
    directories := Map(groups, ToDirectory(root));
  }
}
