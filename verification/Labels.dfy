/** src/sessionGrouping.ts: labels that collide grow by parent segments until they differ. */
module Labels {
  import opened Collections

  /** What the session list and the tree's directories both show under a label. */
  datatype Item = Item(caption: string, untracked: bool, path: string)

  // ----- segments -----

  predicate IsSegment(part: string) {
    part != "" && '/' !in part
  }

  predicate AreSegments(parts: seq<string>) {
    forall i | 0 <= i < |parts| :: IsSegment(parts[i])
  }

  function Ended(word: string): seq<string> {
    if word == "" then [] else [word]
  }

  /** `split('/')` without the empty parts; `word` is the part being read. */
  function Parts(path: string, word: string): seq<string> {
    if path == "" then Ended(word)
    else if path[0] == '/' then Ended(word) + Parts(path[1..], "")
    else Parts(path[1..], word + [path[0]])
  }

  function Segments(path: string): seq<string> {
    Parts(path, "")
  }

  function Join(parts: seq<string>): string {
    if parts == [] then "" else if |parts| == 1 then parts[0] else parts[0] + "/" + Join(parts[1..])
  }

  function LastOf(parts: seq<string>, count: nat): seq<string> {
    if |parts| <= count then parts else parts[|parts| - count..]
  }

  /** `tailSegments`. */
  function TailSegments(path: string, count: nat): string {
    Join(LastOf(Segments(path), count))
  }

  lemma {:induction false} PartsAreSegments(path: string, word: string)
    requires '/' !in word
    ensures AreSegments(Parts(path, word))
    decreases |path|
  {
    if path != "" {
      PartsAreSegments(path[1..], if path[0] == '/' then "" else word + [path[0]]);
    }
  }

  lemma {:induction false} PartsWord(part: string, rest: string, word: string)
    requires '/' !in part
    ensures Parts(part + rest, word) == Parts(rest, word + part)
    decreases |part|
  {
    if part == "" {
      assert part + rest == rest && word + part == word;
    } else {
      assert (part + rest)[1..] == part[1..] + rest && (part + rest)[0] == part[0];
      assert part[0] in part;
      PartsWord(part[1..], rest, word + [part[0]]);
      assert word + [part[0]] + part[1..] == word + part;
    }
  }

  /** Joined segments are split into the same segments. */
  lemma {:induction false} JoinReads(parts: seq<string>)
    requires AreSegments(parts)
    ensures Segments(Join(parts)) == parts
  {
    if parts == [] {
    } else {
      var part := parts[0];
      assert IsSegment(part);
      if |parts| == 1 {
        assert part + "" == part && "" + part == part;
        PartsWord(part, "", "");
      } else {
        var rest := Join(parts[1..]);
        JoinReads(parts[1..]);
        assert part + "/" + rest == part + ("/" + rest) && "" + part == part && ("/" + rest)[1..] == rest;
        PartsWord(part, "/" + rest, "");
      }
    }
  }

  /** Two tails read alike exactly when they are the same segments. */
  lemma TailsDiffer(p: string, q: string, count: nat)
    ensures TailSegments(p, count) == TailSegments(q, count) <==> LastOf(Segments(p), count) == LastOf(Segments(q), count)
  {
    PartsAreSegments(p, "");
    PartsAreSegments(q, "");
    JoinReads(LastOf(Segments(p), count));
    JoinReads(LastOf(Segments(q), count));
  }

  // ----- how far the labels of a group grow -----

  function Deepest(paths: seq<string>): nat {
    if paths == [] then 0
    else
      var before, here := Deepest(paths[..|paths| - 1]), |Segments(paths[|paths| - 1])|;
      if here > before then here else before
  }

  predicate Separates(paths: seq<string>, depth: nat) {
    forall i, j | 0 <= i < j < |paths| :: TailSegments(paths[i], depth) != TailSegments(paths[j], depth)
  }

  function DepthFrom(paths: seq<string>, depth: nat): nat
    decreases Deepest(paths) - depth
  {
    if depth >= Deepest(paths) || Separates(paths, depth) then depth else DepthFrom(paths, depth + 1)
  }

  lemma {:induction false} DeepestIsMost(paths: seq<string>)
    ensures forall i | 0 <= i < |paths| :: |Segments(paths[i])| <= Deepest(paths)
  {
    if paths != [] {
      DeepestIsMost(paths[..|paths| - 1]);
      assert forall i | 0 <= i < |paths| - 1 :: paths[i] == paths[..|paths| - 1][i];
    }
  }

  lemma {:induction false} DepthFromIsLeast(paths: seq<string>, depth: nat)
    ensures var d := DepthFrom(paths, depth);
            && d >= depth && (Separates(paths, d) || d >= Deepest(paths))
            && forall k | depth <= k < d :: !Separates(paths, k) && k < Deepest(paths)
    decreases Deepest(paths) - depth
  {
    hide Separates, Deepest;
    if !(depth >= Deepest(paths) || Separates(paths, depth)) {
      DepthFromIsLeast(paths, depth + 1);
    }
  }

  predicate SegmentsDiffer(paths: seq<string>) {
    forall i, j | 0 <= i < j < |paths| :: Segments(paths[i]) != Segments(paths[j])
  }

  /** The depth of a group is the least, from two on, at which its tails differ, unless the
      group runs out of segments; and there they differ exactly when any depth would do it. */
  lemma DepthSeparates(paths: seq<string>)
    ensures var d := DepthFrom(paths, 2);
            && d >= 2 && (Separates(paths, d) <==> SegmentsDiffer(paths))
            && forall k | 2 <= k < d :: !Separates(paths, k)
  {
    var d := DepthFrom(paths, 2);
    DepthFromIsLeast(paths, 2);
    DeepestIsMost(paths);
    forall i, j | 0 <= i < j < |paths|
      ensures Segments(paths[i]) == Segments(paths[j]) ==> TailSegments(paths[i], d) == TailSegments(paths[j], d)
      ensures d >= Deepest(paths) && TailSegments(paths[i], d) == TailSegments(paths[j], d) ==> Segments(paths[i]) == Segments(paths[j])
    {
      TailsDiffer(paths[i], paths[j], d);
    }
    hide TailSegments, Segments;
  }

  // ----- the labels -----

  function TrackedLabels(items: seq<Item>): seq<string> {
    if items == [] then []
    else
      var last := items[|items| - 1];
      TrackedLabels(items[..|items| - 1]) + if last.untracked then [] else [last.caption]
  }

  function TrackedPaths(items: seq<Item>, caption: string): seq<string> {
    if items == [] then []
    else
      var last := items[|items| - 1];
      TrackedPaths(items[..|items| - 1], caption) + if !last.untracked && last.caption == caption then [last.path] else []
  }

  /** The different paths that share a label. */
  function PathsOf(items: seq<Item>, caption: string): seq<string> {
    Dedup(TrackedPaths(items, caption))
  }

  function Grown(item: Item, depth: nat): Item {
    var tail := TailSegments(item.path, depth);
    if tail == "" then item else item.(caption := tail)
  }

  function Regrown(item: Item, caption: string, depth: nat): Item {
    if item.untracked || item.caption != caption then item else Grown(item, depth)
  }

  function Relabel(items: seq<Item>, caption: string, depth: nat): (r: seq<Item>)
    ensures |r| == |items| && forall i | 0 <= i < |items| :: r[i] == Regrown(items[i], caption, depth)
  {
    seq(|items|, i requires 0 <= i < |items| => Regrown(items[i], caption, depth))
  }

  /** One entry of the map, in the order the labels were first met. */
  function Separate(items: seq<Item>, original: seq<Item>, caption: string): seq<Item> {
    var paths := PathsOf(original, caption);
    if |paths| < 2 then items else Relabel(items, caption, DepthFrom(paths, 2))
  }

  function SeparateAll(original: seq<Item>, labels: seq<string>): seq<Item> {
    if labels == [] then original
    else Separate(SeparateAll(original, labels[..|labels| - 1]), original, labels[|labels| - 1])
  }

  function Disambiguated(items: seq<Item>): seq<Item> {
    SeparateAll(items, Dedup(TrackedLabels(items)))
  }

  // ----- in place -----

  method DeepestOf(paths: seq<string>) returns (deepest: nat)
    ensures deepest == Deepest(paths)
  {
    deepest := 0;
    for i := 0 to |paths|
      invariant deepest == Deepest(paths[..i])
    {
      assert paths[..i + 1][..i] == paths[..i];
      var here := |Segments(paths[i])|;
      if here > deepest {
        deepest := here;
      }
    }
    assert paths[..|paths|] == paths;
  }

  function Tails(paths: seq<string>, depth: nat): (r: set<string>)
  {
    if paths == [] then {} else Tails(paths[..|paths| - 1], depth) + {TailSegments(paths[|paths| - 1], depth)}
  }

  lemma {:induction false} TailsExact(paths: seq<string>, depth: nat)
    ensures forall tail :: tail in Tails(paths, depth) <==> exists j :: 0 <= j < |paths| && TailSegments(paths[j], depth) == tail
  {
    hide TailSegments;
    if paths != [] {
      var before := paths[..|paths| - 1];
      TailsExact(before, depth);
      assert forall j | 0 <= j < |before| :: before[j] == paths[j];
    }
  }

  lemma NewTail(paths: seq<string>, depth: nat)
    requires paths != []
    ensures var before, last := paths[..|paths| - 1], paths[|paths| - 1];
            TailSegments(last, depth) !in Tails(before, depth) <==>
            (forall i | 0 <= i < |before| :: TailSegments(paths[i], depth) != TailSegments(last, depth))
  {
    var before := paths[..|paths| - 1];
    TailsExact(before, depth);
    hide TailSegments, Tails;
    assert forall j | 0 <= j < |before| :: before[j] == paths[j];
  }

  lemma SeparatesStep(paths: seq<string>, depth: nat)
    requires paths != []
    ensures var before := paths[..|paths| - 1];
            Separates(paths, depth) <==> Separates(before, depth) && TailSegments(paths[|paths| - 1], depth) !in Tails(before, depth)
  {
    NewTail(paths, depth);
    hide TailSegments, Tails;
    var before := paths[..|paths| - 1];
    assert forall j | 0 <= j < |before| :: before[j] == paths[j];
  }

  /** There are as many tails as paths exactly when they differ. */
  lemma {:induction false} TailsCount(paths: seq<string>, depth: nat)
    ensures |Tails(paths, depth)| <= |paths|
    ensures |Tails(paths, depth)| == |paths| <==> Separates(paths, depth)
  {
    hide TailSegments, Separates;
    if paths == [] {
      assert Separates(paths, depth) by { NoneToSeparate(depth); }
    } else {
      var before := paths[..|paths| - 1];
      TailsCount(before, depth);
      SeparatesStep(paths, depth);
      var tail := TailSegments(paths[|paths| - 1], depth);
      assert tail in Tails(before, depth) ==> Tails(before, depth) + {tail} == Tails(before, depth);
    }
  }

  lemma NoneToSeparate(depth: nat)
    ensures Separates([], depth)
  {
  }

  /** Whether the set of tails has as many members as there are paths. */
  method AreSeparate(paths: seq<string>, depth: nat) returns (separate: bool)
    ensures separate <==> Separates(paths, depth)
  {
    hide TailSegments, Separates;
    var expanded: set<string> := {};
    for i := 0 to |paths|
      invariant expanded == Tails(paths[..i], depth)
    {
      assert paths[..i + 1][..i] == paths[..i];
      expanded := expanded + {TailSegments(paths[i], depth)};
    }
    assert paths[..|paths|] == paths;
    TailsCount(paths, depth);
    separate := |expanded| == |paths|;
  }

  method DepthOf(paths: seq<string>) returns (depth: nat)
    ensures depth == DepthFrom(paths, 2)
  {
    var deepest := DeepestOf(paths);
    depth := 2;
    while depth < deepest
      invariant DepthFrom(paths, 2) == DepthFrom(paths, depth)
    {
      var separate := AreSeparate(paths, depth);
      if separate {
        break;
      }
      depth := depth + 1;
    }
  }

  /** The map holds the paths of each caption met, and its keys in order. */
  ghost predicate IsMap(items: seq<Item>, captions: seq<string>, paths: map<string, seq<string>>) {
    && captions == Dedup(TrackedLabels(items))
    && (forall caption :: caption in captions <==> caption in paths)
    && (forall caption :: PathsOf(items, caption) == if caption in paths then paths[caption] else [])
  }

  function PutCaption(captions: seq<string>, item: Item): seq<string> {
    if item.untracked || item.caption in captions then captions else captions + [item.caption]
  }

  function PutPath(paths: map<string, seq<string>>, item: Item): map<string, seq<string>> {
    if item.untracked then paths
    else if item.caption !in paths then paths[item.caption := [item.path]]
    else if item.path in paths[item.caption] then paths
    else paths[item.caption := paths[item.caption] + [item.path]]
  }

  lemma PutIsMap(items: seq<Item>, item: Item, captions: seq<string>, paths: map<string, seq<string>>)
    requires IsMap(items, captions, paths)
    ensures IsMap(items + [item], PutCaption(captions, item), PutPath(paths, item))
  {
    PathsStep(items, item);
    LabelsStep(items, item);
    hide PathsOf, TrackedLabels, Dedup;
  }

  lemma NothingMapped()
    ensures IsMap([], [], map[])
  {
  }

  /** `pathsByLabel`, filled item by item. */
  method PathsByLabel(items: seq<Item>) returns (captions: seq<string>, paths: map<string, seq<string>>)
    ensures IsMap(items, captions, paths)
  {
    captions, paths := [], map[];
    NothingMapped();
    assert items[..0] == [];
    for i := 0 to |items|
      invariant IsMap(items[..i], captions, paths)
    {
      var item := items[i];
      assert items[..i + 1] == items[..i] + [item];
      PutIsMap(items[..i], item, captions, paths);
      assert item.caption in captions <==> item.caption in paths;
      hide IsMap;
      if !item.untracked {
        if item.caption in paths {
          if item.path !in paths[item.caption] {
            paths := paths[item.caption := paths[item.caption] + [item.path]];
          }
        } else {
          captions := captions + [item.caption];
          paths := paths[item.caption := [item.path]];
        }
      }
    }
    assert items[..|items|] == items;
  }

  lemma DedupStep(s: seq<string>, x: string)
    ensures Dedup(s + [x]) == if x in Dedup(s) then Dedup(s) else Dedup(s) + [x]
  {
    DedupExact(s);
    assert (s + [x])[..|s|] == s;
  }

  lemma PathsStep(items: seq<Item>, item: Item)
    ensures forall caption :: PathsOf(items + [item], caption)
              == if item.untracked || item.caption != caption || item.path in PathsOf(items, caption) then PathsOf(items, caption)
                 else PathsOf(items, caption) + [item.path]
  {
    assert (items + [item])[..|items|] == items;
    forall caption
      ensures PathsOf(items + [item], caption)
              == if item.untracked || item.caption != caption || item.path in PathsOf(items, caption) then PathsOf(items, caption)
                 else PathsOf(items, caption) + [item.path]
    {
      DedupStep(TrackedPaths(items, caption), item.path);
      assert TrackedPaths(items, caption) + [] == TrackedPaths(items, caption);
      hide Dedup;
    }
  }

  lemma LabelsStep(items: seq<Item>, item: Item)
    ensures var labels := Dedup(TrackedLabels(items));
            Dedup(TrackedLabels(items + [item])) == if item.untracked || item.caption in labels then labels else labels + [item.caption]
  {
    assert (items + [item])[..|items|] == items;
    DedupStep(TrackedLabels(items), item.caption);
    assert TrackedLabels(items) + [] == TrackedLabels(items);
    hide Dedup;
  }

  /** `disambiguateLabels`: the labels are rewritten in place, one colliding set at a time. */
  method DisambiguateLabels(items: array<Item>)
    modifies items
    ensures items[..] == Disambiguated(old(items[..]))
  {
    hide *;
    ghost var original := items[..];
    var captions, pathsByLabel := PathsByLabel(items[..]);
    MapFacts(original, captions, pathsByLabel);
    assert captions[..0] == [];
    for n := 0 to |captions|
      invariant items[..] == SeparateAll(original, captions[..n])
    {
      var caption := captions[n];
      assert captions[..n + 1][..n] == captions[..n] && caption in captions;
      SeparateStep(original, captions[..n + 1]);
      SeparateInPlace(items, original, caption, pathsByLabel[caption]);
    }
    assert captions[..|captions|] == captions;
  }

  method SeparateInPlace(items: array<Item>, ghost original: seq<Item>, caption: string, paths: seq<string>)
    requires paths == PathsOf(original, caption)
    modifies items
    ensures items[..] == Separate(old(items[..]), original, caption)
  {
    hide *;
    SeparateIs(items[..], original, caption);
    if |paths| >= 2 {
      var depth := DepthOf(paths);
      RelabelInPlace(items, caption, depth);
    }
  }

  lemma MapFacts(items: seq<Item>, captions: seq<string>, paths: map<string, seq<string>>)
    requires IsMap(items, captions, paths)
    ensures Disambiguated(items) == SeparateAll(items, captions) && SeparateAll(items, []) == items
    ensures forall caption | caption in captions :: caption in paths && paths[caption] == PathsOf(items, caption)
  {
    hide Separate, PathsOf, Dedup, TrackedLabels;
  }

  lemma SeparateStep(original: seq<Item>, captions: seq<string>)
    requires captions != []
    ensures SeparateAll(original, captions)
              == Separate(SeparateAll(original, captions[..|captions| - 1]), original, captions[|captions| - 1])
  {
  }

  lemma SeparateIs(items: seq<Item>, original: seq<Item>, caption: string)
    ensures |PathsOf(original, caption)| < 2 ==> Separate(items, original, caption) == items
    ensures |PathsOf(original, caption)| >= 2 ==>
              Separate(items, original, caption) == Relabel(items, caption, DepthFrom(PathsOf(original, caption), 2))
  {
  }

  method RelabelInPlace(items: array<Item>, caption: string, depth: nat)
    modifies items
    ensures items[..] == Relabel(old(items[..]), caption, depth)
  {
    for i := 0 to items.Length
      invariant forall k | 0 <= k < i :: items[k] == Regrown(old(items[k]), caption, depth)
      invariant forall k | i <= k < items.Length :: items[k] == old(items[k])
    {
      items[i] := Regrown(items[i], caption, depth);
    }
  }

  // ----- what the captions are like afterwards -----

  predicate Collides(items: seq<Item>, caption: string) {
    |PathsOf(items, caption)| >= 2
  }

  /** The caption of an item in the end. */
  function Final(items: seq<Item>, item: Item): Item {
    if item.untracked || !Collides(items, item.caption) then item
    else Grown(item, DepthFrom(PathsOf(items, item.caption), 2))
  }

  /** A caption taken from the path's own last segment. */
  predicate IsLastSegment(item: Item) {
    var parts := Segments(item.path);
    parts != [] && item.caption == parts[|parts| - 1]
  }

  /** The home directory: one segment, and a caption that is not that segment. */
  predicate IsHome(item: Item, home: string) {
    item.caption == home && |Segments(item.path)| == 1 && Segments(item.path)[0] != home
  }

  /** The root directory: no segment, and a caption that starts with a slash. */
  predicate IsRootDirectory(item: Item) {
    Segments(item.path) == [] && item.caption != "" && item.caption[0] == '/'
  }

  /** The captions the source gives to directories of names without outer white space, which it
      would trim: the last segment, except to the home and the root. */
  ghost predicate FromPaths(items: seq<Item>, home: string) {
    && IsSegment(home)
    && forall i | 0 <= i < |items| && !items[i].untracked ::
         IsLastSegment(items[i]) || IsHome(items[i], home) || IsRootDirectory(items[i])
  }

  lemma {:induction false} TrackedIn(items: seq<Item>, k: nat)
    requires k < |items| && !items[k].untracked
    ensures items[k].caption in TrackedLabels(items) && items[k].path in TrackedPaths(items, items[k].caption)
  {
    var before := items[..|items| - 1];
    if k < |before| {
      assert before[k] == items[k];
      TrackedIn(before, k);
    }
  }

  lemma PathIsOne(items: seq<Item>, k: nat)
    requires k < |items| && !items[k].untracked
    ensures items[k].path in PathsOf(items, items[k].caption)
  {
    TrackedIn(items, k);
    DedupExact(TrackedPaths(items, items[k].caption));
  }

  /** Two items of one caption and different paths collide. */
  lemma TwoCollide(items: seq<Item>, a: nat, b: nat)
    requires a < |items| && b < |items| && !items[a].untracked && !items[b].untracked
    requires items[a].caption == items[b].caption && items[a].path != items[b].path
    ensures Collides(items, items[a].caption)
  {
    PathIsOne(items, a);
    PathIsOne(items, b);
    hide PathsOf;
  }

  lemma JoinHead(parts: seq<string>)
    requires AreSegments(parts)
    ensures parts == [] <==> Join(parts) == ""
    ensures parts != [] ==> Join(parts)[0] != '/'
    ensures |parts| >= 2 ==> '/' in Join(parts)
  {
    if parts != [] {
      assert IsSegment(parts[0]) && parts[0][0] in parts[0];
      if |parts| >= 2 {
        assert Join(parts)[|parts[0]|] == '/';
      }
    }
  }

  /** The kinds of tracked items, and the segment their grown captions end in, if any. */
  predicate Known(item: Item, home: string) {
    !item.untracked && IsSegment(home) && (IsLastSegment(item) || IsHome(item, home) || IsRootDirectory(item))
  }

  function LastPart(item: Item): string {
    var parts := Segments(item.path);
    if parts == [] then "" else parts[|parts| - 1]
  }

  /** What growing does: nothing to the root, back to its segment for the home, and the last
      segments, two if there are, for the others. */
  lemma GrownIs(item: Item, home: string, depth: nat)
    requires Known(item, home) && depth >= 2
    ensures IsRootDirectory(item) ==> Grown(item, depth) == item
    ensures !IsRootDirectory(item) ==> Grown(item, depth).caption == TailSegments(item.path, depth) != ""
    ensures !IsRootDirectory(item) ==> TailSegments(item.path, depth)[0] != '/' && '/' !in LastPart(item)
    ensures !IsRootDirectory(item) && '/' !in TailSegments(item.path, depth) ==>
              TailSegments(item.path, depth) == LastPart(item) && |Segments(item.path)| == 1
    ensures |Segments(item.path)| == 1 ==> TailSegments(item.path, depth) == LastPart(item)
  {
    var parts := Segments(item.path);
    PartsAreSegments(item.path, "");
    JoinHead(LastOf(parts, depth));
    hide Segments;
    if |parts| == 1 {
      assert LastOf(parts, depth) == parts;
    }
    if parts != [] {
      assert IsSegment(parts[|parts| - 1]);
    }
  }

  /** Two grown captions are alike only with the same last segment. */
  lemma TailsEndAlike(p: string, q: string, m: nat, n: nat)
    requires Segments(p) != [] && Segments(q) != [] && m > 0 && n > 0
    requires TailSegments(p, m) == TailSegments(q, n)
    ensures Segments(p)[|Segments(p)| - 1] == Segments(q)[|Segments(q)| - 1]
    ensures |Segments(p)| == 1 && n >= 2 ==> |Segments(q)| == 1
  {
    PartsAreSegments(p, "");
    PartsAreSegments(q, "");
    var s, t := LastOf(Segments(p), m), LastOf(Segments(q), n);
    JoinReads(s);
    JoinReads(t);
    assert s[|s| - 1] == Segments(p)[|Segments(p)| - 1] && t[|t| - 1] == Segments(q)[|Segments(q)| - 1];
  }

  // ----- every caption gets its final form -----

  /** An item once some colliding sets were separated. */
  function Settled(items: seq<Item>, captions: seq<string>, item: Item): Item {
    if !item.untracked && item.caption in captions then Final(items, item) else item
  }

  /** A grown caption that is another set's caption is the home's, and stays. */
  lemma GrownStays(item: Item, home: string, m: nat, n: nat, other: Item)
    requires Known(item, home) && Known(other, home) && m >= 2 && n >= 2 && other.caption != item.caption
    ensures Regrown(Grown(item, m), other.caption, n) == Grown(item, m)
  {
    GrownIs(item, home, m);
    GrownIs(item, home, n);
    GrownIs(other, home, n);
    hide TailSegments, Segments;
  }

  lemma {:induction false} EachIsFinal(items: seq<Item>, home: string, captions: seq<string>, k: nat)
    requires FromPaths(items, home) && k < |items|
    requires NoDuplicates(captions) && forall n | 0 <= n < |captions| :: captions[n] in TrackedLabels(items)
    ensures |SeparateAll(items, captions)| == |items|
    ensures SeparateAll(items, captions)[k] == Settled(items, captions, items[k])
    decreases |captions|
  {
    hide FromPaths, TrackedLabels, Settled, Separate;
    if captions == [] {
      NoneSettled(items, items[k]);
    } else {
      var before, caption := captions[..|captions| - 1], captions[|captions| - 1];
      assert captions == before + [caption];
      assert caption !in before && caption in TrackedLabels(items);
      EachIsFinal(items, home, before, k);
      SeparateStep(items, captions);
      hide SeparateAll, NoDuplicates;
      SettleStep(items, home, before, caption, SeparateAll(items, before), k);
    }
  }

  lemma NoneSettled(items: seq<Item>, item: Item)
    ensures Settled(items, [], item) == item
  {
  }

  lemma SettleStep(items: seq<Item>, home: string, before: seq<string>, caption: string, now: seq<Item>, k: nat)
    requires FromPaths(items, home) && k < |items| && caption !in before && caption in TrackedLabels(items)
    requires |now| == |items| && now[k] == Settled(items, before, items[k])
    ensures |Separate(now, items, caption)| == |items|
    ensures Separate(now, items, caption)[k] == Settled(items, before + [caption], items[k])
  {
    SeparateIs(now, items, caption);
    hide Separate, PathsOf, FromPaths, Grown, DepthFrom;
    if Collides(items, caption) {
      StepIsFinal(items, home, before, caption, k);
    }
  }

  lemma {:induction false} LabelOfSome(items: seq<Item>, caption: string) returns (k: nat)
    requires caption in TrackedLabels(items)
    ensures k < |items| && !items[k].untracked && items[k].caption == caption
  {
    var before := items[..|items| - 1];
    if caption in TrackedLabels(before) {
      k := LabelOfSome(before, caption);
      assert before[k] == items[k];
    } else {
      k := |before|;
    }
  }

  lemma StepIsFinal(items: seq<Item>, home: string, before: seq<string>, caption: string, k: nat)
    requires FromPaths(items, home) && k < |items| && caption !in before && caption in TrackedLabels(items)
    requires Collides(items, caption)
    ensures Regrown(Settled(items, before, items[k]), caption, DepthFrom(PathsOf(items, caption), 2))
              == Settled(items, before + [caption], items[k])
  {
    var item := items[k];
    hide Grown, DepthFrom, PathsOf, IsLastSegment, IsHome, IsRootDirectory, Segments;
    DepthFromIsLeast(PathsOf(items, caption), 2);
    if !item.untracked && item.caption in before && Collides(items, item.caption) {
      DepthFromIsLeast(PathsOf(items, item.caption), 2);
      var other := LabelOfSome(items, caption);
      GrownStays(item, home, DepthFrom(PathsOf(items, item.caption), 2), DepthFrom(PathsOf(items, caption), 2), items[other]);
      assert item.caption in before + [caption];
    } else if !item.untracked && item.caption in before {
      assert Final(items, item) == item && item.caption in before + [caption] && item.caption != caption;
    } else {
      assert item.caption in before + [caption] <==> item.caption in before || item.caption == caption;
    }
  }

  /** Every caption ends in its final form: only colliding ones change, and all of one set
      grow to the same depth. */
  lemma AllFinal(items: seq<Item>, home: string)
    requires FromPaths(items, home)
    ensures |Disambiguated(items)| == |items|
    ensures forall k | 0 <= k < |items| :: Disambiguated(items)[k] == Final(items, items[k])
  {
    var captions := Dedup(TrackedLabels(items));
    DedupExact(TrackedLabels(items));
    NoneFinal(items, captions);
    assert forall n | 0 <= n < |captions| :: captions[n] in captions;
    forall k | 0 <= k < |items|
      ensures Disambiguated(items)[k] == Final(items, items[k])
    {
      EachIsFinal(items, home, captions, k);
      if !items[k].untracked { TrackedIn(items, k); }
      hide Final, TrackedLabels, Dedup, SeparateAll, FromPaths;
    }
    hide Final, TrackedLabels, Dedup, FromPaths;
  }

  lemma NoneFinal(items: seq<Item>, captions: seq<string>)
    ensures |SeparateAll(items, captions)| == |items|
  {
    if captions != [] {
      NoneFinal(items, captions[..|captions| - 1]);
      SeparateIs(SeparateAll(items, captions[..|captions| - 1]), items, captions[|captions| - 1]);
    }
  }

  // ----- exactly when two end alike -----

  /** In one colliding set two captions end alike exactly when the paths have the same segments. */
  lemma SetIsSeparated(items: seq<Item>, a: Item, b: Item)
    requires a.caption == b.caption && a.path in PathsOf(items, a.caption) && b.path in PathsOf(items, a.caption) && a.path != b.path
    ensures var d := DepthFrom(PathsOf(items, a.caption), 2);
            TailSegments(a.path, d) == TailSegments(b.path, d) <==> Segments(a.path) == Segments(b.path)
  {
    var paths := PathsOf(items, a.caption);
    var d := DepthFrom(paths, 2);
    DepthFromIsLeast(paths, 2);
    DeepestIsMost(paths);
    TailsDiffer(a.path, b.path, d);
    hide PathsOf, TailSegments, Segments, DepthFrom, Deepest;
    var i :| 0 <= i < |paths| && paths[i] == a.path;
    var j :| 0 <= j < |paths| && paths[j] == b.path;
    assert i < j || j < i;
  }

  /** The home's caption collides, and `other` ends in the home's own segment: its set does not
      collide, or it has no more segments to grow by. */
  predicate MeetsHome(items: seq<Item>, home: string, item: Item, other: Item) {
    && IsHome(item, home) && Collides(items, home) && other.caption == Segments(item.path)[0]
    && (!Collides(items, other.caption) || |Segments(other.path)| == 1)
  }

  /** Two different paths end with one caption exactly when they had one caption and have the
      same segments, or when one is the home and meets the other. */
  lemma AlikeExactly(items: seq<Item>, home: string, a: nat, b: nat)
    requires FromPaths(items, home)
    requires a < |items| && b < |items| && !items[a].untracked && !items[b].untracked && items[a].path != items[b].path
    ensures |Disambiguated(items)| == |items|
    ensures Disambiguated(items)[a].caption == Disambiguated(items)[b].caption
       <==> (items[a].caption == items[b].caption && Segments(items[a].path) == Segments(items[b].path))
            || MeetsHome(items, home, items[a], items[b]) || MeetsHome(items, home, items[b], items[a])
  {
    AllFinal(items, home);
    PathIsOne(items, a);
    PathIsOne(items, b);
    assert Known(items[a], home) && Known(items[b], home);
    hide Disambiguated, FromPaths, Final, PathsOf, Collides, Known;
    if items[a].caption == items[b].caption {
      TwoCollide(items, a, b);
      OneSetAlike(items, home, items[a], items[b]);
    } else {
      TwoSetsAlike(items, home, items[a], items[b]);
    }
  }

  lemma OneSetAlike(items: seq<Item>, home: string, a: Item, b: Item)
    requires Known(a, home) && Known(b, home) && a.caption == b.caption && a.path != b.path && Collides(items, a.caption)
    requires a.path in PathsOf(items, a.caption) && b.path in PathsOf(items, a.caption)
    ensures Final(items, a).caption == Final(items, b).caption <==> Segments(a.path) == Segments(b.path)
    ensures !MeetsHome(items, home, a, b) && !MeetsHome(items, home, b, a)
  {
    var d := DepthFrom(PathsOf(items, a.caption), 2);
    DepthFromIsLeast(PathsOf(items, a.caption), 2);
    SetIsSeparated(items, a, b);
    GrownIs(a, home, d);
    GrownIs(b, home, d);
    hide TailSegments, Segments, PathsOf, Collides, DepthFrom, Grown;
  }

  /** Where the final caption of an item comes from. */
  lemma FinalIs(items: seq<Item>, home: string, item: Item) returns (depth: nat)
    requires Known(item, home)
    ensures depth >= 2
    ensures Final(items, item).caption
              == if Collides(items, item.caption) && !IsRootDirectory(item) then TailSegments(item.path, depth) else item.caption
  {
    depth := DepthFrom(PathsOf(items, item.caption), 2);
    DepthFromIsLeast(PathsOf(items, item.caption), 2);
    GrownIs(item, home, depth);
    hide TailSegments, Segments, PathsOf, Collides, DepthFrom;
  }

  lemma TwoSetsAlike(items: seq<Item>, home: string, a: Item, b: Item)
    requires Known(a, home) && Known(b, home) && a.caption != b.caption
    ensures Final(items, a).caption == Final(items, b).caption <==> MeetsHome(items, home, a, b) || MeetsHome(items, home, b, a)
  {
    var m := FinalIs(items, home, a);
    var n := FinalIs(items, home, b);
    GrownIs(a, home, m);
    GrownIs(b, home, n);
    if !IsRootDirectory(a) && !IsRootDirectory(b) {
      if TailSegments(a.path, m) == TailSegments(b.path, n) {
        TailsEndAlike(a.path, b.path, m, n);
        TailsEndAlike(b.path, a.path, n, m);
      }
    }
    hide TailSegments, Segments, Collides, Final;
  }

  // ----- and that it happens -----

  /** The home directory, a directory called like its caption, and one called like the home's
      own segment. */
  function HomeItems(home: string): seq<Item> {
    [Item(home, false, "~"), Item(home, false, "/x/" + home), Item("~", false, "/~")]
  }

  lemma LeadingSlash(path: string)
    ensures Segments("/" + path) == Segments(path)
  {
    assert ("/" + path)[1..] == path;
  }

  lemma HomeSegments(home: string)
    requires IsSegment(home)
    ensures Segments("~") == ["~"] && Segments("/~") == ["~"] && Segments("/x/" + home) == ["x", home]
  {
    hide Segments;
    var parts := ["x", home];
    assert parts[1..] == [home] && "x" + "/" + home == "x/" + home;
    assert Join(["~"]) == "~" && Join(parts) == "x/" + home && "/" + ("x/" + home) == "/x/" + home && "/" + "~" == "/~";
    JoinReads(["~"]);
    JoinReads(parts);
    LeadingSlash("x/" + home);
    LeadingSlash("~");
  }

  /** Growing the home's caption, which is no segment of its path, can clash: two different
      directories then do share a caption. */
  lemma HomeClashes(home: string)
    requires IsSegment(home) && home != "~"
    ensures var r := Disambiguated(HomeItems(home));
            |r| == 3 && r[0].caption == r[2].caption && HomeItems(home)[0].path != HomeItems(home)[2].path
  {
    HomeSegments(home);
    hide Segments;
    var items := HomeItems(home);
    assert |"/x/" + home| > 1;
    TwoCollide(items, 0, 1);
    hide Collides;
    AlikeExactly(items, home, 0, 2);
  }
}
