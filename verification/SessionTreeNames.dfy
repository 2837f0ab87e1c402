/** src/sessionTree.ts: where a session without a directory goes, and what the headers of the
    tree say. */
module SessionTreeNames {
  import opened Collections
  import opened Grouping
  import opened SessionTree
  import opened SessionTreeFacts

  // ----- the name of a session -----

  lemma {:induction false} LeadingReads(name: string)
    ensures '-' !in Leading(name) && Leading(name) <= name
    ensures |Leading(name)| < |name| ==> name[|Leading(name)|] == '-'
  {
    if name != "" && name[0] != '-' {
      LeadingReads(name[1..]);
      assert name == [name[0]] + name[1..];
    }
  }

  /** The first part of a name stands between its leading dashes and the next dash, or its end;
      a name of dashes has none. */
  lemma {:induction false} FirstPartReads(name: string) returns (dashes: nat)
    ensures dashes <= |name| && (forall i | 0 <= i < dashes :: name[i] == '-')
    ensures FirstPart(name) == "" <==> dashes == |name|
    ensures var part := FirstPart(name);
            && '-' !in part && part <= name[dashes..]
            && (dashes + |part| < |name| ==> name[dashes + |part|] == '-')
  {
    dashes := 0;
    if name != "" && name[0] == '-' {
      var n := FirstPartReads(name[1..]);
      dashes := n + 1;
      assert name[1..][n..] == name[dashes..];
    } else {
      LeadingReads(name);
      assert name[0..] == name;
    }
  }

  lemma {:induction false} FirstLabelIs(setup: Setup, known: seq<Root>, first: string)
    ensures var caption := FirstLabel(setup, known, first);
            if caption.None? then forall i | 0 <= i < |known| :: setup.sanitise(known[i].caption) != first
            else exists i :: 0 <= i < |known| && known[i].caption == caption.value && setup.sanitise(known[i].caption) == first
                             && forall j | 0 <= j < i :: setup.sanitise(known[j].caption) != first
  {
    if known != [] && setup.sanitise(known[0].caption) != first {
      FirstLabelIs(setup, known[1..], first);
      var caption := FirstLabel(setup, known[1..], first);
      if caption.None? {
        assert forall i | 0 < i < |known| :: known[i] == known[1..][i - 1];
      } else {
        var i :| 0 <= i < |known[1..]| && known[1..][i].caption == caption.value && setup.sanitise(known[1..][i].caption) == first
                 && forall j | 0 <= j < i :: setup.sanitise(known[1..][j].caption) != first;
        assert known[i + 1] == known[1..][i];
        assert forall j | 0 < j < i + 1 :: known[j] == known[1..][j - 1];
      }
    }
  }

  lemma {:induction false} LastBearingIs(known: seq<Root>, caption: string)
    ensures var key := LastBearing(known, caption);
            if key.None? then forall i | 0 <= i < |known| :: known[i].caption != caption
            else exists i :: 0 <= i < |known| && known[i].caption == caption && known[i].key == key.value
                             && forall j | i < j < |known| :: known[j].caption != caption
  {
    if known != [] && known[|known| - 1].caption != caption {
      LastBearingIs(known[..|known| - 1], caption);
    }
  }

  /** Root `i` is the last of those that bear the caption which the name's first part stands for. */
  predicate IsNamed(setup: Setup, known: seq<Root>, first: string, i: int) {
    && 0 <= i < |known| && setup.sanitise(known[i].caption) == first
    && (forall j | i < j < |known| :: known[j].caption != known[i].caption)
    && exists k :: 0 <= k <= i && known[k].caption == known[i].caption && forall j | 0 <= j < k :: setup.sanitise(known[j].caption) != first
  }

  /** A session without a directory goes under a root exactly if the first part of its name is
      some root's caption as it reads in names: the caption is the first such, the root the last
      that bears it. */
  lemma NameDecides(setup: Setup, known: seq<Root>, row: Row)
    requires row.path.None?
    ensures var first := FirstPart(row.name);
            match Place(setup, known, row)
            case None => first == "" || forall i | 0 <= i < |known| :: setup.sanitise(known[i].caption) != first
            case Some(key) => first != "" && exists i :: IsNamed(setup, known, first, i) && known[i].key == key
  {
    var first := FirstPart(row.name);
    if first != "" {
      FirstLabelIs(setup, known, first);
      var caption := FirstLabel(setup, known, first);
      if caption.Some? {
        LastBearingIs(known, caption.value);
        var k :| 0 <= k < |known| && known[k].caption == caption.value && setup.sanitise(known[k].caption) == first
                 && forall j | 0 <= j < k :: setup.sanitise(known[j].caption) != first;
        assert LastBearing(known, caption.value).Some?;
        var i :| 0 <= i < |known| && known[i].caption == caption.value && known[i].key == LastBearing(known, caption.value).value
                 && forall j | i < j < |known| :: known[j].caption != caption.value;
        assert IsNamed(setup, known, first, i);
      }
    }
  }

  /** A root contains itself and what follows it after a slash. */
  lemma WithinExactly(path: Path, root: Path)
    ensures PathWithinRoot(path, root) <==> path == root || (root < path && ('/' == path[|root|] || (root != "" && root[|root| - 1] == '/')))
  {
    if root < path && path[|root|] == '/' {
      assert path[..|root| + 1] == root + "/";
    }
    if root + "/" <= path {
      assert path[..|root|] == root && path[|root|] == (root + "/")[|root|];
    }
  }

  // ----- the headers -----

  lemma {:induction false} NewestIsMax(rows: seq<Row>)
    ensures forall i | 0 <= i < |rows| :: rows[i].activity <= Newest(rows)
    ensures Newest(rows) == 0 || exists i :: 0 <= i < |rows| && rows[i].activity == Newest(rows)
  {
    if rows != [] {
      NewestIsMax(rows[..|rows| - 1]);
      if Newest(rows) == rows[|rows| - 1].activity {
      } else {
        var i :| 0 <= i < |rows| - 1 && rows[..|rows| - 1][i].activity == Newest(rows);
        assert rows[i].activity == Newest(rows);
      }
    }
  }

  lemma {:induction false} NewestOfIsMax(directories: seq<Directory>)
    ensures forall i | 0 <= i < |directories| :: directories[i].mostRecentActivity <= NewestOf(directories)
    ensures NewestOf(directories) == 0 || exists i :: 0 <= i < |directories| && directories[i].mostRecentActivity == NewestOf(directories)
  {
    if directories != [] {
      NewestOfIsMax(directories[..|directories| - 1]);
      if NewestOf(directories) == directories[|directories| - 1].mostRecentActivity {
      } else {
        var i :| 0 <= i < |directories| - 1 && directories[..|directories| - 1][i].mostRecentActivity == NewestOf(directories);
        assert directories[i].mostRecentActivity == NewestOf(directories);
      }
    }
  }

  /** The header of a directory: the newest activity in it, active if some session is attached,
      and a guessed root exactly for a session without a directory under a root. */
  lemma DirectoryHeader(setup: Setup, rows: seq<Row>, i: nat, j: nat)
    requires i < |Tree(setup, rows)| && j < |Tree(setup, rows)[i].directories|
    ensures var folder := Tree(setup, rows)[i];
            var directory := folder.directories[j];
            && (forall k | 0 <= k < |directory.rows| :: directory.rows[k].activity <= directory.mostRecentActivity)
            && (directory.mostRecentActivity == 0
                || exists k :: 0 <= k < |directory.rows| && directory.rows[k].activity == directory.mostRecentActivity)
            && (directory.active <==> exists k :: 0 <= k < |directory.rows| && directory.rows[k].attached)
            && (directory.inferredRoot <==> directory.key.Untracked? && folder.key.Some?)
  {
    var group := OtherLast(ByRoot(setup, rows))[i];
    var part := GroupAll([], group.rows, DirectoryKeyOf)[j];
    NewestIsMax(part.rows);
    assert Tree(setup, rows)[i].directories[j] == DirectoryOf(group.key, part);
    hide ByRoot, OtherLast, GroupAll, Newest;
  }

  /** The header of a folder: as many sessions as its directories hold, the newest activity of
      them all, active if one of them is; configured exactly if its root is registered. */
  lemma FolderHeader(setup: Setup, rows: seq<Row>, i: nat)
    requires i < |Tree(setup, rows)|
    ensures var folder := Tree(setup, rows)[i];
            && (forall j | 0 <= j < |folder.directories| :: folder.directories[j].mostRecentActivity <= folder.mostRecentActivity)
            && (folder.mostRecentActivity == 0
                || exists j :: 0 <= j < |folder.directories| && folder.directories[j].mostRecentActivity == folder.mostRecentActivity)
            && (folder.active <==> exists j :: 0 <= j < |folder.directories| && folder.directories[j].active)
            && (folder.configured <==> folder.key.Some? && exists j :: 0 <= j < |setup.configured| && setup.configured[j].key == folder.key.value)
  {
    var group := OtherLast(ByRoot(setup, rows))[i];
    NewestOfIsMax(BuildDirectories(group.key, group.rows));
    assert Tree(setup, rows)[i] == FolderOf(setup, group);
    hide ByRoot, OtherLast, BuildDirectories, NewestOf;
  }

  /** Two sessions of one folder are in the same directory exactly if they have the same path,
      or neither has one and they bear the same name. */
  lemma SharesDirectory(setup: Setup, rows: seq<Row>, i: nat, j: nat, a: Row, b: Row)
    requires DistinctRoots(setup.configured)
    requires i < |Tree(setup, rows)| && j < |Tree(setup, rows)[i].directories|
    requires a in Tree(setup, rows)[i].directories[j].rows
    requires b in rows && Place(setup, KnownRoots(setup, rows), b) == Tree(setup, rows)[i].key
    ensures var directory := Tree(setup, rows)[i].directories[j];
            && (b in directory.rows <==> b.path == a.path && (a.path.None? ==> b.name == a.name))
            && (match directory.key
                case Tracked(path) => a.path == Some(path)
                case Untracked(name) => a.path == None && a.name == name)
  {
    var folder := Tree(setup, rows)[i];
    var directory := folder.directories[j];
    DirectoryIsExact(setup, rows, i, j);
    FilterMembers(rows, InDirectory(setup, KnownRoots(setup, rows), folder.key, directory.key));
    hide Tree, Place, KnownRoots;
  }

  lemma {:induction false} BearingCounts(roots: seq<Root>, caption: string)
    ensures Bearing(roots, caption) == 0 <==> forall i | 0 <= i < |roots| :: roots[i].caption != caption
    ensures Bearing(roots, caption) >= 2
            <==> exists i, j :: 0 <= i < j < |roots| && roots[i].caption == caption && roots[j].caption == caption
  {
    if roots != [] {
      var front, n := roots[..|roots| - 1], |roots| - 1;
      BearingCounts(front, caption);
      assert forall i | 0 <= i < n :: front[i] == roots[i];
      if Bearing(front, caption) >= 2 {
        var i, j :| 0 <= i < j < n && front[i].caption == caption && front[j].caption == caption;
        assert roots[i].caption == caption && roots[j].caption == caption;
      } else if Bearing(front, caption) == 1 && roots[n].caption == caption {
        var i :| 0 <= i < n && front[i].caption == caption;
        assert roots[i].caption == caption;
      }
    }
  }

  /** A root keeps its caption exactly if no other root bears it; otherwise the caption is its
      whole key, without the mark of the home directory. */
  lemma CaptionDecides(roots: seq<Root>, i: nat)
    requires i < |roots|
    ensures var caption, key := Apart(roots)[i].caption, roots[i].key;
            if exists j :: 0 <= j < |roots| && j != i && roots[j].caption == roots[i].caption
            then if "~/" <= key then "~/" + caption == key else caption == key
            else caption == roots[i].caption
  {
    BearingCounts(roots, roots[i].caption);
    hide Bearing;
    assert "~/" <= roots[i].key ==> "~/" + roots[i].key[2..] == roots[i].key;
  }
}
