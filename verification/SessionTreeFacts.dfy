/** src/sessionTree.ts: what the tree keeps of the sessions. */
module SessionTreeFacts {
  import opened Collections
  import opened Grouping
  import opened SessionTree

  // ----- every session, once -----

  function RowsIn(directories: seq<Directory>): seq<Row> {
    if directories == [] then [] else directories[0].rows + RowsIn(directories[1..])
  }

  function AllRows(tree: seq<Folder>): seq<Row> {
    if tree == [] then [] else RowsIn(tree[0].directories) + AllRows(tree[1..])
  }

  function Counted(tree: seq<Folder>): nat {
    if tree == [] then 0 else tree[0].sessionCount + Counted(tree[1..])
  }

  lemma {:induction false} RowsOfDirectories(root: Option<Path>, groups: seq<Group<DirectoryKey, Row>>)
    ensures RowsIn(Map(groups, ToDirectory(root))) == Flatten(groups)
  {
    if groups != [] {
      RowsOfDirectories(root, groups[1..]);
      var all := Map(groups, ToDirectory(root));
      assert all[1..] == Map(groups[1..], ToDirectory(root));
    }
  }

  lemma DirectoriesConserve(root: Option<Path>, rows: seq<Row>)
    ensures multiset(RowsIn(BuildDirectories(root, rows))) == multiset(rows)
  {
    var groups := GroupAll([], rows, DirectoryKeyOf);
    RowsOfDirectories(root, groups);
    GroupsConserve([], rows, DirectoryKeyOf);
    assert Flatten<DirectoryKey, Row>([]) == [];
  }

  lemma {:induction false} FoldersConserve(setup: Setup, groups: seq<Group<Option<Path>, Row>>)
    ensures var tree := Map(groups, ToFolder(setup));
            multiset(AllRows(tree)) == multiset(Flatten(groups)) && Counted(tree) == |Flatten(groups)|
  {
    if groups != [] {
      var tree := Map(groups, ToFolder(setup));
      assert tree[1..] == Map(groups[1..], ToFolder(setup));
      FoldersConserve(setup, groups[1..]);
      DirectoriesConserve(groups[0].key, groups[0].rows);
    }
  }

  lemma Regrouped(a: seq<Row>, b: seq<Row>, c: seq<Row>)
    ensures multiset(a + c + b) == multiset(a + b) + multiset(c) && multiset(a + (b + c)) == multiset(a + b) + multiset(c)
  {
  }

  /** Moving the bucket of the others to the end loses none. */
  lemma {:induction false} PartsConserve(groups: seq<Group<Option<Path>, Row>>)
    ensures multiset(Flatten(OtherLast(groups))) == multiset(Flatten(groups))
  {
    if groups == [] {
      assert OtherLast(groups) == [];
    } else {
      hide Flatten, OtherLast, IsRoot, IsOther, Filter;
      var init, last := groups[..|groups| - 1], groups[|groups| - 1];
      PartsConserve(init);
      assert groups == init + [last];
      PartedSnoc(init, last);
      FlattenAppend(init, [last]);
      PartedFlat(init);
      FlattenOne(last);
      Regrouped(Flatten(Filter(init, IsRoot)), Flatten(Filter(init, IsOther)), last.rows);
      Joined(Flatten(init), last.rows);
    }
  }

  lemma PartedFlat(groups: seq<Group<Option<Path>, Row>>)
    ensures Flatten(OtherLast(groups)) == Flatten(Filter(groups, IsRoot)) + Flatten(Filter(groups, IsOther))
  {
    hide Flatten, Filter, IsRoot, IsOther;
    FlattenAppend(Filter(groups, IsRoot), Filter(groups, IsOther));
  }

  lemma Joined(a: seq<Row>, b: seq<Row>)
    ensures multiset(a + b) == multiset(a) + multiset(b)
  {
  }

  lemma PartedSnoc(init: seq<Group<Option<Path>, Row>>, last: Group<Option<Path>, Row>)
    ensures var a, b := Flatten(Filter(init, IsRoot)), Flatten(Filter(init, IsOther));
            Flatten(OtherLast(init + [last])) == if IsRoot(last) then a + last.rows + b else a + (b + last.rows)
  {
    var a, b := Filter(init, IsRoot), Filter(init, IsOther);
    FlattenOne(last);
    if IsRoot(last) {
      assert b + [] == b;
      FlattenAppend(a + [last], b);
      FlattenAppend(a, [last]);
    } else {
      assert a + [] == a;
      FlattenAppend(a, b + [last]);
      FlattenAppend(b, [last]);
    }
  }

  lemma FlattenOne(group: Group<Option<Path>, Row>)
    ensures Flatten([group]) == group.rows
  {
    assert Flatten([group][1..]) == [];
  }

  lemma FlattenAppend<K, R>(a: seq<Group<K, R>>, b: seq<Group<K, R>>)
    ensures Flatten(a + b) == Flatten(a) + Flatten(b)
  {
    if a == [] {
      assert a + b == b;
    } else {
      assert (a + b)[1..] == a[1..] + b;
      FlattenAppend(a[1..], b);
    }
  }

  lemma SeedIsEmpty(setup: Setup, seed: seq<Group<Option<Path>, Row>>)
    requires forall i | 0 <= i < |seed| :: seed[i].rows == []
    ensures Flatten(seed) == []
  {
  }

  /** Every session is in exactly one directory of one folder, and the counts add up. */
  lemma SessionsConserved(setup: Setup, rows: seq<Row>)
    ensures multiset(AllRows(Tree(setup, rows))) == multiset(rows) && Counted(Tree(setup, rows)) == |rows|
  {
    var known := KnownRoots(setup, rows);
    var groups := ByRoot(setup, rows);
    FoldersConserve(setup, OtherLast(groups));
    PartsConserve(groups);
    GroupsConserve(Seed(setup), rows, PlaceIn(setup, known));
    SeedIsEmpty(setup, Seed(setup));
    assert |multiset(Flatten(OtherLast(groups)))| == |multiset(rows)|;
  }

  // ----- the host's order -----

  lemma {:induction false} FilterTwice<T>(s: seq<T>, p: T -> bool, q: T -> bool, both: T -> bool)
    requires forall i | 0 <= i < |s| :: both(s[i]) <==> p(s[i]) && q(s[i])
    ensures Filter(Filter(s, p), q) == Filter(s, both)
  {
    if s != [] {
      var init, last := s[..|s| - 1], s[|s| - 1];
      FilterTwice(init, p, q, both);
      assert forall i | 0 <= i < |init| :: init[i] == s[i];
      assert Filter(init, p) + [] == Filter(init, p);
    }
  }

  ghost predicate DistinctRoots(roots: seq<Root>) {
    forall i, j | 0 <= i < j < |roots| :: roots[i].key != roots[j].key
  }

  function InRoot(setup: Setup, known: seq<Root>, key: Option<Path>): Row -> bool {
    HasKey(PlaceIn(setup, known), key)
  }

  /** The groups by root: their keys differ, and each has its rows in the host's order. */
  lemma RootGroups(setup: Setup, rows: seq<Row>, i: nat)
    requires DistinctRoots(setup.configured) && i < |ByRoot(setup, rows)|
    ensures var g := ByRoot(setup, rows)[i]; g.rows == Filter(rows, InRoot(setup, KnownRoots(setup, rows), g.key))
  {
    var known, groups := KnownRoots(setup, rows), ByRoot(setup, rows);
    RootKeys(setup, rows);
    RowsAt(groups, i);
    RowsInOrder(Seed(setup), rows, PlaceIn(setup, known), groups[i].key);
    NoRows(Seed(setup), groups[i].key);
  }

  lemma RootKeys(setup: Setup, rows: seq<Row>)
    requires DistinctRoots(setup.configured)
    ensures var place := PlaceIn(setup, KnownRoots(setup, rows));
            Keys(ByRoot(setup, rows)) == Appearing(Keys(Seed(setup)), rows, place) && Distinct(ByRoot(setup, rows))
  {
    var place := PlaceIn(setup, KnownRoots(setup, rows));
    KeysAppear(Seed(setup), rows, place);
    AppearingExact(Keys(Seed(setup)), rows, place);
  }

  lemma NoRows(seed: seq<Group<Option<Path>, Row>>, key: Option<Path>)
    requires forall i | 0 <= i < |seed| :: seed[i].rows == []
    ensures RowsOf(seed, key) == []
  {
  }

  lemma DirectoryGroups(rows: seq<Row>, j: nat)
    requires j < |GroupAll([], rows, DirectoryKeyOf)|
    ensures var g := GroupAll([], rows, DirectoryKeyOf)[j]; g.rows == Filter(rows, HasKey(DirectoryKeyOf, g.key))
  {
    var groups := GroupAll([], rows, DirectoryKeyOf);
    var none: seq<Group<DirectoryKey, Row>> := [];
    KeysAppear(none, rows, DirectoryKeyOf);
    assert Keys(none) == [];
    AppearingExact([], rows, DirectoryKeyOf);
    RowsAt(groups, j);
    RowsInOrder(none, rows, DirectoryKeyOf, groups[j].key);
    assert RowsOf(none, groups[j].key) == [];
  }

  /** The sessions of one root and one directory. */
  function InDirectory(setup: Setup, known: seq<Root>, root: Option<Path>, key: DirectoryKey): Row -> bool {
    row => Place(setup, known, row) == root && DirectoryKeyOf(row) == key
  }

  /** A directory holds exactly the sessions of its root and directory, in the host's order. */
  lemma DirectoryIsExact(setup: Setup, rows: seq<Row>, i: nat, j: nat)
    requires DistinctRoots(setup.configured)
    requires i < |Tree(setup, rows)| && j < |Tree(setup, rows)[i].directories|
    ensures var folder := Tree(setup, rows)[i];
            var directory := folder.directories[j];
            directory.rows == Filter(rows, InDirectory(setup, KnownRoots(setup, rows), folder.key, directory.key))
  {
    var known := KnownRoots(setup, rows);
    var group := OtherLast(ByRoot(setup, rows))[i];
    var k := FromParts(ByRoot(setup, rows), i);
    RootGroups(setup, rows, k);
    DirectoryGroups(group.rows, j);
    var key := GroupAll([], group.rows, DirectoryKeyOf)[j].key;
    FilterTwice(rows, InRoot(setup, known, group.key), HasKey(DirectoryKeyOf, key), InDirectory(setup, known, group.key, key));
  }

  lemma FromParts(groups: seq<Group<Option<Path>, Row>>, i: nat) returns (k: nat)
    requires i < |OtherLast(groups)|
    ensures k < |groups| && groups[k] == OtherLast(groups)[i]
  {
    FilterMembers(groups, IsRoot);
    FilterMembers(groups, IsOther);
    var g := OtherLast(groups)[i];
    if i < |Filter(groups, IsRoot)| {
      assert g in Filter(groups, IsRoot);
    } else {
      assert g == Filter(groups, IsOther)[i - |Filter(groups, IsRoot)|];
      assert g in Filter(groups, IsOther);
    }
    k :| 0 <= k < |groups| && groups[k] == g;
  }

  // ----- the order of the folders -----

  function RootOf(folder: Folder): Option<Path> {
    folder.key
  }

  function RegisteredKeys(roots: seq<Root>): (keys: seq<Option<Path>>)
    ensures |keys| == |roots| && forall i | 0 <= i < |roots| :: keys[i] == Some(roots[i].key)
  {
    seq(|roots|, i requires 0 <= i < |roots| => Some(roots[i].key))
  }

  lemma {:induction false} FilterKeeps<T>(s: seq<T>, keep: T -> bool)
    requires forall i | 0 <= i < |s| :: keep(s[i])
    ensures Filter(s, keep) == s
  {
    if s != [] {
      assert forall i | 0 <= i < |s| - 1 :: s[..|s| - 1][i] == s[i];
      FilterKeeps(s[..|s| - 1], keep);
    }
  }

  lemma {:induction false} FilterDrops<T>(s: seq<T>, keep: T -> bool)
    requires forall i | 0 <= i < |s| :: !keep(s[i])
    ensures Filter(s, keep) == []
  {
    if s != [] {
      assert forall i | 0 <= i < |s| - 1 :: s[..|s| - 1][i] == s[i];
      FilterDrops(s[..|s| - 1], keep);
    }
  }

  /** A row is placed under a registered root or among the others. */
  lemma PlacesAreRegistered(setup: Setup, rows: seq<Row>, row: Row)
    requires setup.configured != []
    ensures var key := Place(setup, KnownRoots(setup, rows), row); key.None? || key in RegisteredKeys(setup.configured)
  {
    var key := Place(setup, KnownRoots(setup, rows), row);
    if key.Some? {
      if row.path.Some? {
        var best := Best(row.path.value, setup.configured).value;
        assert best in setup.configured;
      }
      var i :| 0 <= i < |setup.configured| && setup.configured[i].key == key.value;
      assert RegisteredKeys(setup.configured)[i] == key;
    }
  }

  lemma {:induction false} AppearingRegistered(setup: Setup, all: seq<Row>, rows: seq<Row>)
    requires setup.configured != []
    ensures var keys := RegisteredKeys(setup.configured);
            var place := PlaceIn(setup, KnownRoots(setup, all));
            Appearing(keys, rows, place) == keys || Appearing(keys, rows, place) == keys + [None]
  {
    if rows != [] {
      AppearingRegistered(setup, all, rows[..|rows| - 1]);
      PlacesAreRegistered(setup, all, rows[|rows| - 1]);
    }
  }

  /** Groups whose roots all come first stay as they are. */
  lemma AlreadyLast(groups: seq<Group<Option<Path>, Row>>, n: nat)
    requires n <= |groups| <= n + 1 && (forall i | 0 <= i < n :: IsRoot(groups[i])) && (|groups| > n ==> IsOther(groups[n]))
    ensures OtherLast(groups) == groups
  {
    var roots := groups[..n];
    FilterKeeps(roots, IsRoot);
    FilterDrops(roots, IsOther);
    if |groups| > n {
      assert groups == roots + [groups[n]];
    } else {
      assert groups == roots;
    }
  }

  /** Each registered root appears once, in registered order, and the others last, if any. */
  lemma RegisteredOrder(setup: Setup, rows: seq<Row>)
    requires setup.configured != [] && DistinctRoots(setup.configured)
    ensures var keys := RegisteredKeys(setup.configured);
            var listed := Map(Tree(setup, rows), RootOf);
            listed == keys || listed == keys + [None]
  {
    var groups, keys := ByRoot(setup, rows), RegisteredKeys(setup.configured);
    RootKeys(setup, rows);
    AppearingRegistered(setup, rows, rows);
    assert Keys(Seed(setup)) == keys;
    hide ByRoot, Appearing, FolderOf;
    assert Keys(groups) == keys || Keys(groups) == keys + [None];
    forall i | 0 <= i < |groups|
      ensures groups[i].key == Keys(groups)[i]
    {
    }
    AlreadyLast(groups, |keys|);
    assert Map(Tree(setup, rows), RootOf) == Keys(groups);
  }

  /** A session with a path sits under the longest registered root that contains it. */
  lemma LongestRootClaims(setup: Setup, rows: seq<Row>, row: Row)
    requires setup.configured != [] && row.path.Some?
    ensures var key := Place(setup, KnownRoots(setup, rows), row);
            match key
            case None => forall i | 0 <= i < |setup.configured| :: !PathWithinRoot(row.path.value, setup.configured[i].key)
            case Some(root) =>
              && PathWithinRoot(row.path.value, root)
              && forall i | 0 <= i < |setup.configured| && PathWithinRoot(row.path.value, setup.configured[i].key)
                            && setup.configured[i].key != root :: |setup.configured[i].key| < |root|
  {
    var path := row.path.value;
    var best := Best(path, setup.configured);
    if best.Some? {
      forall i | 0 <= i < |setup.configured| && PathWithinRoot(path, setup.configured[i].key) && setup.configured[i].key != best.value.key
        ensures |setup.configured[i].key| < |best.value.key|
      {
        if |setup.configured[i].key| == |best.value.key| {
          LongestIsOne(path, setup.configured[i].key, best.value.key);
        }
      }
    }
  }

  /** No registered root is resolved twice, however it was spelled: no two resolved roots have
      one key. That spellings of one directory have one key is up to `keyOf`. */
  lemma {:induction false} ResolvedOnce(reading: Reading, sources: seq<string>)
    ensures DistinctRoots(Resolved(reading, sources)) && DistinctRoots(Apart(Resolved(reading, sources)))
  {
    if sources != [] {
      ResolvedOnce(reading, sources[..|sources| - 1]);
    }
  }

  /** Directories come in the order their first sessions come in. */
  lemma DirectoriesInOrder(root: Option<Path>, rows: seq<Row>)
    ensures var directories := BuildDirectories(root, rows);
            && |directories| == |Appearing([], rows, DirectoryKeyOf)|
            && forall j | 0 <= j < |directories| :: directories[j].key == Appearing([], rows, DirectoryKeyOf)[j]
  {
    var none: seq<Group<DirectoryKey, Row>> := [];
    KeysAppear(none, rows, DirectoryKeyOf);
    assert Keys(none) == [];
    var keys := Keys(GroupAll([], rows, DirectoryKeyOf));
    assert forall j | 0 <= j < |keys| :: keys[j] == GroupAll([], rows, DirectoryKeyOf)[j].key;
  }
}
