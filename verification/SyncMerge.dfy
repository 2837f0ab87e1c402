/** src/syncMerge.ts: which host entries one sync writes.

    Each loop of the source is a method proved against a function of its inputs;
    the lemmas below say what those functions mean. */
module SyncMerge {
  import opened Collections

  /** A host property: JSON has no `undefined`, but a client's own entry may. */
  datatype Field = Undefined | Defined(text: string)

  /** A host entry: its alias, and its other properties by name. */
  datatype HostEntry = HostEntry(name: string, fields: map<string, Field>)

  datatype Selection = Selection(checked: seq<string>, unticked: seq<string>)

  function Names(hosts: seq<HostEntry>): (r: seq<string>)
    ensures |r| == |hosts| && forall i | 0 <= i < |r| :: r[i] == hosts[i].name
  {
    seq(|hosts|, i requires 0 <= i < |hosts| => hosts[i].name)
  }

  /** The entry a name lookup answers: the last one carrying the name. */
  function LastNamed(hosts: seq<HostEntry>, alias: string): (r: Option<HostEntry>)
    ensures r.Some? <==> alias in Names(hosts)
    ensures r.Some? ==> r.value in hosts && r.value.name == alias
  {
    if hosts == [] then None
    else
      var last := hosts[|hosts| - 1];
      if last.name == alias then Some(last)
      else
        var r := LastNamed(hosts[..|hosts| - 1], alias);
        assert Names(hosts) == Names(hosts[..|hosts| - 1]) + [last.name];
        r
  }

  method ByName(hosts: seq<HostEntry>) returns (byName: map<string, HostEntry>)
    ensures forall alias ::
              (alias in byName <==> LastNamed(hosts, alias).Some?)
              && (alias in byName ==> byName[alias] == LastNamed(hosts, alias).value)
  {
    byName := map[];
    for i := 0 to |hosts|
      invariant forall alias ::
          (alias in byName <==> LastNamed(hosts[..i], alias).Some?)
          && (alias in byName ==> byName[alias] == LastNamed(hosts[..i], alias).value)
    {
      byName := byName[hosts[i].name := hosts[i]];
      assert hosts[..i + 1][..i] == hosts[..i];
    }
    assert hosts[..|hosts|] == hosts;
  }

  // ----- one entry -----

  function Explicit(local: HostEntry): set<string> {
    set key | key in local.fields && local.fields[key].Defined?
  }

  /** Explicit local values win; everything else the account holds survives. */
  function Overlay(local: HostEntry, remote: HostEntry): HostEntry {
    HostEntry(local.name,
              map key | key in remote.fields.Keys + Explicit(local) ::
                if key in Explicit(local) then local.fields[key] else remote.fields[key])
  }

  method MergeLocalOverRemote(local: HostEntry, remote: Option<HostEntry>) returns (merged: HostEntry)
    ensures merged == if remote.None? then local else Overlay(local, remote.value)
  {
    if remote.None? {
      return local;
    }
    var fields := remote.value.fields;
    var todo := local.fields.Keys;
    while todo != {}
      invariant todo <= local.fields.Keys
      invariant fields.Keys == remote.value.fields.Keys + (Explicit(local) - todo)
      invariant forall key | key in fields ::
          fields[key] == if key in Explicit(local) - todo then local.fields[key] else remote.value.fields[key]
      decreases todo
    {
      var key :| key in todo;
      todo := todo - {key};
      if local.fields[key] != Undefined {
        fields := fields[key := local.fields[key]];
      }
    }
    merged := HostEntry(local.name, fields);
    assert Explicit(local) - todo == Explicit(local);
  }

  // ----- the assembled set -----

  function EntryFor(local: seq<HostEntry>, remote: seq<HostEntry>, alias: string): (r: Option<HostEntry>)
    ensures r.Some? ==> r.value.name == alias
    ensures r.Some? <==> alias in Names(local) || alias in Names(remote)
  {
    match (LastNamed(local, alias), LastNamed(remote, alias))
    case (Some(mine), Some(theirs)) => Some(Overlay(mine, theirs))
    case (Some(mine), None) => Some(mine)
    case (None, theirs) => theirs
  }

  function Assemble(local: seq<HostEntry>, remote: seq<HostEntry>, checked: seq<string>): seq<HostEntry> {
    if checked == [] then []
    else
      var init, alias := checked[..|checked| - 1], checked[|checked| - 1];
      var entry := EntryFor(local, remote, alias);
      Assemble(local, remote, init) + if alias in init || entry.None? then [] else [entry.value]
  }

  method AssembleSyncSet(local: seq<HostEntry>, remote: seq<HostEntry>, checked: seq<string>)
    returns (hosts: seq<HostEntry>)
    ensures hosts == Assemble(local, remote, checked)
  {
    var localByName := ByName(local);
    var remoteByName := ByName(remote);
    hosts := [];
    var seen: set<string> := {};
    for i := 0 to |checked|
      invariant seen == ToSet(checked[..i])
      invariant hosts == Assemble(local, remote, checked[..i])
    {
      var alias := checked[i];
      assert checked[..i + 1][..i] == checked[..i];
      if alias !in seen {
        seen := seen + {alias};
        var theirs := if alias in remoteByName then Some(remoteByName[alias]) else None;
        if alias in localByName {
          var merged := MergeLocalOverRemote(localByName[alias], theirs);
          hosts := hosts + [merged];
        } else if theirs.Some? {
          hosts := hosts + [theirs.value];
        }
      }
    }
    assert checked[..|checked|] == checked;
  }

  /** The assembled set holds each ticked alias known on either side exactly once,
      with exactly the merged entry, and nothing else. */
  lemma {:induction false} AssembleExact(local: seq<HostEntry>, remote: seq<HostEntry>, checked: seq<string>)
    ensures var names := Names(Assemble(local, remote, checked));
            && NoDuplicates(names)
            && (forall alias :: alias in names <==> alias in checked && (alias in Names(local) || alias in Names(remote)))
            && forall host | host in Assemble(local, remote, checked) :: Some(host) == EntryFor(local, remote, host.name)
  {
    if checked != [] {
      var init, alias := checked[..|checked| - 1], checked[|checked| - 1];
      AssembleExact(local, remote, init);
      var before, entry := Assemble(local, remote, init), EntryFor(local, remote, alias);
      assert checked == init + [alias];
      if alias !in init && entry.Some? {
        assert Names(before + [entry.value]) == Names(before) + [alias];
        assert NoDuplicates(Names(before) + [alias]);
      } else {
        assert Assemble(local, remote, checked) == before;
      }
    }
  }

  /** Looking an alias up in the assembled set answers its merged entry. */
  lemma AssembleLookup(local: seq<HostEntry>, remote: seq<HostEntry>, checked: seq<string>, alias: string)
    ensures LastNamed(Assemble(local, remote, checked), alias)
         == if alias in checked then EntryFor(local, remote, alias) else None
  {
    AssembleExact(local, remote, checked);
    var found := LastNamed(Assemble(local, remote, checked), alias);
    assert found.Some? ==> found.value in Assemble(local, remote, checked);
  }

  // ----- the tick rule -----

  function AutoCheck(remote: seq<HostEntry>, checked: seq<string>, unticked: seq<string>): seq<string> {
    if remote == [] then []
    else
      var r := AutoCheck(remote[..|remote| - 1], checked, unticked);
      var name := remote[|remote| - 1].name;
      if name in checked || name in unticked || name in r then r else r + [name]
  }

  method AliasesToAutoCheck(remote: seq<HostEntry>, checked: seq<string>, unticked: seq<string>)
    returns (aliases: seq<string>)
    ensures aliases == AutoCheck(remote, checked, unticked)
  {
    var known := ToSet(checked);
    var off := ToSet(unticked);
    aliases := [];
    for i := 0 to |remote|
      invariant aliases == AutoCheck(remote[..i], checked, unticked)
      invariant known == ToSet(checked) + ToSet(aliases)
    {
      var name := remote[i].name;
      assert remote[..i + 1][..i] == remote[..i];
      if name !in known && name !in off {
        known := known + {name};
        aliases := aliases + [name];
      }
    }
    assert remote[..|remote|] == remote;
  }

  function Apply(remote: seq<HostEntry>, selection: Selection): Selection {
    var kept := Dedup(selection.checked);
    var checked := kept + AutoCheck(remote, kept, selection.unticked);
    Selection(checked, Filter(Dedup(selection.unticked), alias => alias in Names(remote) && alias !in checked))
  }

  method ApplyAccountToSelection(remote: seq<HostEntry>, selection: Selection) returns (next: Selection)
    ensures next == Apply(remote, selection)
  {
    var inAccount := ToSet(Names(remote));
    var checked := Unique(selection.checked);
    var auto := AliasesToAutoCheck(remote, checked, selection.unticked);
    checked := checked + auto;
    var pending := Unique(selection.unticked);
    var unticked := [];
    for i := 0 to |pending|
      invariant unticked == Filter(pending[..i], alias => alias in Names(remote) && alias !in checked)
    {
      assert pending[..i + 1][..i] == pending[..i];
      if pending[i] in inAccount && pending[i] !in checked {
        unticked := unticked + [pending[i]];
      }
    }
    assert pending[..|pending|] == pending;
    next := Selection(checked, unticked);
  }

  lemma {:induction false} AutoCheckExact(remote: seq<HostEntry>, checked: seq<string>, unticked: seq<string>)
    ensures NoDuplicates(AutoCheck(remote, checked, unticked))
    ensures forall alias ::
              alias in AutoCheck(remote, checked, unticked)
              <==> alias in Names(remote) && alias !in checked && alias !in unticked
  {
    if remote != [] {
      var init := remote[..|remote| - 1];
      AutoCheckExact(init, checked, unticked);
      assert Names(remote) == Names(init) + [remote[|remote| - 1].name];
    }
  }

  /** One clean read of the account: an account alias ends up ticked unless the user
      unticked it; an untick stays pending exactly while the account holds the alias
      and the alias is not ticked; and ticks keep their order, the new ones last. */
  lemma ApplyExact(remote: seq<HostEntry>, selection: Selection)
    ensures var next := Apply(remote, selection);
            && NoDuplicates(next.checked) && NoDuplicates(next.unticked)
            && Dedup(selection.checked) <= next.checked
            && (forall alias ::
                  alias in next.checked
                  <==> alias in selection.checked || (alias in Names(remote) && alias !in selection.unticked))
            && (forall alias ::
                  alias in next.unticked
                  <==> alias in selection.unticked && alias in Names(remote) && alias !in selection.checked)
  {
    var kept := Dedup(selection.checked);
    DedupExact(selection.checked);
    DedupExact(selection.unticked);
    AutoCheckExact(remote, kept, selection.unticked);
    var next := Apply(remote, selection);
    NoDuplicatesConcat(kept, AutoCheck(remote, kept, selection.unticked));
    FilterExact(Dedup(selection.unticked), alias => alias in Names(remote) && alias !in next.checked);
  }

  /** The removal rule: an account alias is missing from what a device uploads exactly
      when that device holds an explicit untick for it and no tick. */
  lemma RemovedIffUnticked(local: seq<HostEntry>, remote: seq<HostEntry>, selection: Selection, alias: string)
    requires alias in Names(remote)
    ensures alias !in Names(Assemble(local, remote, Apply(remote, selection).checked))
       <==> alias in selection.unticked && alias !in selection.checked
    ensures alias !in Names(Assemble(local, remote, Apply(remote, selection).checked))
       <==> alias in Apply(remote, selection).unticked
  {
    ApplyExact(remote, selection);
    AssembleExact(local, remote, Apply(remote, selection).checked);
  }

  /** A field the account holds is carried over, and changes only to a value this
      device states explicitly. */
  lemma FieldsSurvive(local: seq<HostEntry>, remote: seq<HostEntry>, checked: seq<string>, alias: string, key: string)
    requires alias in checked && LastNamed(remote, alias).Some?
    requires key in LastNamed(remote, alias).value.fields
    ensures var uploaded := LastNamed(Assemble(local, remote, checked), alias);
            var mine := LastNamed(local, alias);
            && uploaded.Some? && key in uploaded.value.fields
            && uploaded.value.fields[key]
               == if mine.Some? && key in Explicit(mine.value) then mine.value.fields[key]
                  else LastNamed(remote, alias).value.fields[key]
  {
    AssembleLookup(local, remote, checked, alias);
  }

  // ----- the wire -----

  /** What JSON keeps of an entry: `undefined` properties are not written. */
  function Serialized(host: HostEntry): HostEntry {
    HostEntry(host.name, map key | key in Explicit(host) :: host.fields[key])
  }

  function SerializeAll(hosts: seq<HostEntry>): (r: seq<HostEntry>)
    ensures |r| == |hosts| && forall i | 0 <= i < |r| :: r[i] == Serialized(hosts[i])
    ensures Names(r) == Names(hosts)
  {
    seq(|hosts|, i requires 0 <= i < |hosts| => Serialized(hosts[i]))
  }

  /** No property is `undefined`: what a parsed account copy looks like. */
  ghost predicate Wire(hosts: seq<HostEntry>) {
    forall host | host in hosts :: Explicit(host) == host.fields.Keys
  }

  lemma {:induction false} SerializeLookup(hosts: seq<HostEntry>, alias: string)
    ensures LastNamed(SerializeAll(hosts), alias)
         == match LastNamed(hosts, alias) case None => None case Some(host) => Some(Serialized(host))
  {
    if hosts != [] {
      var init, last, wire := hosts[..|hosts| - 1], hosts[|hosts| - 1], SerializeAll(hosts);
      assert wire[..|wire| - 1] == SerializeAll(init);
      assert wire[|wire| - 1] == Serialized(last);
      if last.name == alias {
        assert LastNamed(wire, alias) == Some(Serialized(last));
      } else {
        SerializeLookup(init, alias);
        assert LastNamed(wire, alias) == LastNamed(SerializeAll(init), alias);
        assert LastNamed(hosts, alias) == LastNamed(init, alias);
      }
    }
  }
}
