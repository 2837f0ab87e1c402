/** Insertion-ordered maps of lists, as src/sessionTree.ts fills them: a row is pushed to the
    list of its key, and a new key goes to the end. */
module Grouping {
  import opened Collections

  datatype Group<K, R> = Group(key: K, rows: seq<R>)

  function Keys<K, R>(groups: seq<Group<K, R>>): (keys: seq<K>)
    ensures |keys| == |groups| && forall i | 0 <= i < |groups| :: keys[i] == groups[i].key
  {
    seq(|groups|, i requires 0 <= i < |groups| => groups[i].key)
  }

  function Map<A, B>(s: seq<A>, f: A -> B): (r: seq<B>)
    ensures |r| == |s| && forall i | 0 <= i < |s| :: r[i] == f(s[i])
  {
    seq(|s|, i requires 0 <= i < |s| => f(s[i]))
  }

  function Push<K(==), R>(groups: seq<Group<K, R>>, key: K, row: R): seq<Group<K, R>> {
    if groups == [] then [Group(key, [row])]
    else if groups[0].key == key then [Group(key, groups[0].rows + [row])] + groups[1..]
    else [groups[0]] + Push(groups[1..], key, row)
  }

  function GroupAll<K(==), R>(seed: seq<Group<K, R>>, rows: seq<R>, keyOf: R -> K): seq<Group<K, R>> {
    if rows == [] then seed
    else Push(GroupAll(seed, rows[..|rows| - 1], keyOf), keyOf(rows[|rows| - 1]), rows[|rows| - 1])
  }

  /** The list of a key; a missing key has none. */
  function RowsOf<K(==), R>(groups: seq<Group<K, R>>, key: K): seq<R> {
    if groups == [] then []
    else if groups[0].key == key then groups[0].rows
    else RowsOf(groups[1..], key)
  }

  /** The loop that fills the map. */
  method FillGroups<K(==), R>(seed: seq<Group<K, R>>, rows: seq<R>, keyOf: R -> K) returns (groups: seq<Group<K, R>>)
    ensures groups == GroupAll(seed, rows, keyOf)
  {
    groups := seed;
    for i := 0 to |rows|
      invariant groups == GroupAll(seed, rows[..i], keyOf)
    {
      assert rows[..i + 1][..i] == rows[..i];
      groups := PushRow(groups, keyOf(rows[i]), rows[i]);
    }
    assert rows[..|rows|] == rows;
  }

  /** Groups of other keys are passed over. */
  lemma {:induction false} PushSkips<K, R>(groups: seq<Group<K, R>>, key: K, row: R, i: nat)
    requires i <= |groups| && forall j | 0 <= j < i :: groups[j].key != key
    ensures Push(groups, key, row) == groups[..i] + Push(groups[i..], key, row)
  {
    if i > 0 {
      var tail := groups[1..];
      PushSkips(tail, key, row, i - 1);
      assert tail[i - 1..] == groups[i..] && [groups[0]] + tail[..i - 1] == groups[..i];
    }
  }

  method PushRow<K(==), R>(groups: seq<Group<K, R>>, key: K, row: R) returns (r: seq<Group<K, R>>)
    ensures r == Push(groups, key, row)
  {
    var i := 0;
    while i < |groups| && groups[i].key != key
      invariant i <= |groups| && forall j | 0 <= j < i :: groups[j].key != key
    {
      i := i + 1;
    }
    PushSkips(groups, key, row, i);
    if i < |groups| {
      r := groups[i := Group(key, groups[i].rows + [row])];
      assert groups[i..][1..] == groups[i + 1..];
      assert r == groups[..i] + ([Group(key, groups[i].rows + [row])] + groups[i + 1..]);
    } else {
      r := groups + [Group(key, [row])];
      assert groups[..i] == groups;
    }
  }

  // ----- what grouping keeps -----

  lemma PushKeys<K, R>(groups: seq<Group<K, R>>, key: K, row: R)
    ensures Keys(Push(groups, key, row)) == if key in Keys(groups) then Keys(groups) else Keys(groups) + [key]
  {
    if groups != [] && groups[0].key != key {
      PushKeys(groups[1..], key, row);
      assert Keys(groups) == [groups[0].key] + Keys(groups[1..]);
    }
  }

  lemma PushRows<K, R>(groups: seq<Group<K, R>>, key: K, row: R, k: K)
    ensures RowsOf(Push(groups, key, row), k) == RowsOf(groups, k) + if k == key then [row] else []
  {
    if groups != [] && groups[0].key != key {
      PushRows(groups[1..], key, row, k);
    }
  }

  function HasKey<K(==), R>(keyOf: R -> K, k: K): R -> bool {
    r => keyOf(r) == k
  }

  /** Rows keep their order: the list of a key is the input, filtered. */
  lemma {:induction false} RowsInOrder<K(!new), R(!new)>(seed: seq<Group<K, R>>, rows: seq<R>, keyOf: R -> K, k: K)
    ensures RowsOf(GroupAll(seed, rows, keyOf), k) == RowsOf(seed, k) + Filter(rows, HasKey(keyOf, k))
  {
    if rows != [] {
      var init, last := rows[..|rows| - 1], rows[|rows| - 1];
      RowsInOrder(seed, init, keyOf, k);
      PushRows(GroupAll(seed, init, keyOf), keyOf(last), last, k);
    }
  }

  /** The keys in order of first appearance. */
  function Appearing<K(==), R>(known: seq<K>, rows: seq<R>, keyOf: R -> K): seq<K> {
    if rows == [] then known
    else
      var before := Appearing(known, rows[..|rows| - 1], keyOf);
      var key := keyOf(rows[|rows| - 1]);
      if key in before then before else before + [key]
  }

  lemma {:induction false} KeysAppear<K(!new), R(!new)>(seed: seq<Group<K, R>>, rows: seq<R>, keyOf: R -> K)
    ensures Keys(GroupAll(seed, rows, keyOf)) == Appearing(Keys(seed), rows, keyOf)
  {
    if rows != [] {
      var init, last := rows[..|rows| - 1], rows[|rows| - 1];
      KeysAppear(seed, init, keyOf);
      PushKeys(GroupAll(seed, init, keyOf), keyOf(last), last);
    }
  }

  lemma {:induction false} AppearingExact<K(!new), R(!new)>(known: seq<K>, rows: seq<R>, keyOf: R -> K)
    requires NoDuplicates(known)
    ensures var keys := Appearing(known, rows, keyOf);
            && known <= keys && NoDuplicates(keys)
            && forall k :: k in keys <==> k in known || exists i :: 0 <= i < |rows| && keyOf(rows[i]) == k
  {
    if rows != [] {
      var init, last := rows[..|rows| - 1], rows[|rows| - 1];
      AppearingExact(known, init, keyOf);
      var before := Appearing(known, init, keyOf);
      assert keyOf(rows[|rows| - 1]) == keyOf(last);
      assert forall i | 0 <= i < |init| :: rows[i] == init[i];
    }
  }

  /** All rows, group after group. */
  function Flatten<K, R>(groups: seq<Group<K, R>>): seq<R> {
    if groups == [] then [] else groups[0].rows + Flatten(groups[1..])
  }

  lemma PushFlattens<K(!new), R(!new)>(groups: seq<Group<K, R>>, key: K, row: R)
    ensures multiset(Flatten(Push(groups, key, row))) == multiset(Flatten(groups)) + multiset{row}
  {
    if groups == [] {
      assert Flatten([Group(key, [row])]) == [row] + Flatten<K, R>([]);
    } else if groups[0].key == key {
      var pushed := [Group(key, groups[0].rows + [row])] + groups[1..];
      assert pushed[1..] == groups[1..];
      assert Flatten(pushed) == groups[0].rows + [row] + Flatten(groups[1..]);
    } else {
      PushFlattens(groups[1..], key, row);
      var pushed := [groups[0]] + Push(groups[1..], key, row);
      assert pushed[1..] == Push(groups[1..], key, row);
      assert Flatten(pushed) == groups[0].rows + Flatten(Push(groups[1..], key, row));
    }
  }

  lemma Associates<R>(a: multiset<R>, b: multiset<R>, c: multiset<R>)
    ensures a + b + c == a + (b + c)
  {
  }

  /** Nothing is lost and nothing doubled. */
  lemma {:induction false} GroupsConserve<K(!new), R(!new)>(seed: seq<Group<K, R>>, rows: seq<R>, keyOf: R -> K)
    ensures multiset(Flatten(GroupAll(seed, rows, keyOf))) == multiset(Flatten(seed)) + multiset(rows)
  {
    if rows != [] {
      var init, last := rows[..|rows| - 1], rows[|rows| - 1];
      GroupsConserve(seed, init, keyOf);
      PushFlattens(GroupAll(seed, init, keyOf), keyOf(last), last);
      hide Flatten, Push;
      Snoc(rows);
      Associates(multiset(Flatten(seed)), multiset(init), multiset{last});
    }
  }

  /** The keys are pairwise different. */
  ghost predicate Distinct<K, R>(groups: seq<Group<K, R>>) {
    forall i, j | 0 <= i < j < |groups| :: groups[i].key != groups[j].key
  }

  lemma RowsAt<K, R>(groups: seq<Group<K, R>>, i: nat)
    requires i < |groups| && Distinct(groups)
    ensures RowsOf(groups, groups[i].key) == groups[i].rows
  {
    if i > 0 {
      assert groups[0].key != groups[i].key;
      var tail := groups[1..];
      assert forall j | 0 <= j < |tail| :: tail[j] == groups[j + 1];
      RowsAt(tail, i - 1);
    }
  }
}
