/** Why an untick can take an alias out twice: the device never saw its first upload accepted. */
module SyncLostAnswer {
  import opened Collections
  import opened SyncMerge
  import opened SyncRound
  import opened SyncAccount

  /** Some run ends like this. */
  ghost predicate Reaches(s: State, t: Tally, w: Watch) {
    exists events :: Exec(events) == s && ExecTally(events, w) == t
  }

  lemma Reach(s: State, t: Tally, w: Watch, e: Event)
    requires Reaches(s, t, w)
    ensures Reaches(Next(s, e), Score(s, t, w, e), w)
  {
    var events :| Exec(events) == s && ExecTally(events, w) == t;
    assert (events + [e])[..|events|] == events;
    assert Exec(events + [e]) == Next(s, e) && ExecTally(events + [e], w) == Score(s, t, w, e);
  }

  /** The upload a device sends when it pulls the current state. */
  function NextUpload(s: State, d: nat): Upload {
    var slot := Current(s);
    var selection := Apply(Hosts(slot), Begin(Dev(s, d).selection).selection);
    Upload(Base(slot), SerializeAll(Assemble(Dev(s, d).local, Hosts(slot), selection.checked)), Hosts(slot), selection)
  }

  /** The device pulls the current state and its upload is accepted, but not yet answered. */
  function Uploaded(s: State, d: nat, version: nat): State
    requires s.history != []
  {
    var upload := NextUpload(s, d);
    State(s.history + [Some(Slot(version, upload.hosts))],
          s.devices[d := Device(Dev(s, d).local, upload.selection, AwaitPush(1, upload), |s.wire|)],
          s.wire + [Request(d, upload, |s.history| - 1, Dev(s, d).local)])
  }

  function Scored(s: State, t: Tally, w: Watch, d: nat): Tally {
    if d == w.device && w.alias in Names(Hosts(Current(s))) && w.alias !in Names(NextUpload(s, d).hosts)
    then t.(removed := t.removed + {|s.wire|}) else t
  }

  lemma ReachUpload(s: State, t: Tally, w: Watch, d: nat, version: nat)
    requires Reaches(s, t, w) && Dev(s, d).round.Done? && s.history != [] && NextUpload(s, d).hosts != []
    requires Current(s).Some? ==> version > Current(s).value.version
    ensures Reaches(Uploaded(s, d, version), Scored(s, t, w, d), w)
  {
    hide Reaches, Apply, Assemble, SerializeAll;
    var device, moment, upload := Dev(s, d), |s.history| - 1, NextUpload(s, d);
    Reach(s, t, w, Start(d));
    var started := PutDev(s, d, device.(round := Begin(device.selection)));
    Reach(started, t, w, Pull(d, moment));
    var pulled := PutDev(s, d, Device(device.local, upload.selection, AwaitPush(1, upload), |s.wire|))
                  .(wire := s.wire + [Request(d, upload, moment, device.local)]);
    assert Next(started, Pull(d, moment)) == pulled;
    Reach(pulled, t, w, Serve(|s.wire|, version));
  }

  /** No answer comes: the round fails, and the device keeps its untick. */
  lemma ReachLoss(s: State, t: Tally, w: Watch, d: nat)
    requires Reaches(s, t, w) && Dev(s, d).round.AwaitPush?
    ensures Reaches(PutDev(s, d, Dev(s, d).(round := Done(Failed(PushStage)))), Score(s, t, w, Lose(d)), w)
  {
    Reach(s, t, w, Lose(d));
  }

  // ----- two entries, and what is made of them -----

  function Entry(alias: string): HostEntry {
    HostEntry(alias, map[])
  }

  lemma OneByOne(a: string, b: string)
    requires a != b
    ensures Dedup([a, b]) == [a, b] && Dedup([a]) == [a] && Dedup([b]) == [b]
    ensures Names([Entry(a), Entry(b)]) == [a, b] && Names([Entry(b)]) == [b]
    ensures SerializeAll([Entry(a), Entry(b)]) == [Entry(a), Entry(b)] && SerializeAll([Entry(b)]) == [Entry(b)]
  {
    assert [a, b][..1] == [a] && [a][..0] == [] && [b][..0] == [];
    assert Dedup([a]) == [] + [a] && Dedup([b]) == [] + [b] && Dedup([a, b]) == [a] + [b];
    assert Serialized(Entry(a)) == Entry(a) && Serialized(Entry(b)) == Entry(b);
  }

  lemma NoneAdded(remote: seq<HostEntry>, checked: seq<string>)
    requires forall name | name in Names(remote) :: name in checked
    ensures AutoCheck(remote, checked, []) == []
  {
    AutoCheckExact(remote, checked, []);
    assert forall name :: name !in AutoCheck(remote, checked, []);
  }

  lemma Lookups(a: string, b: string, remote: seq<HostEntry>)
    requires a != b && (remote == [] || remote == [Entry(b)])
    ensures EntryFor([Entry(a), Entry(b)], remote, a) == Some(Entry(a))
    ensures EntryFor([Entry(a), Entry(b)], remote, b) == Some(Entry(b))
  {
    var local := [Entry(a), Entry(b)];
    assert local[..1] == [Entry(a)] && Overlay(Entry(b), Entry(b)) == Entry(b);
    OneByOne(a, b);
    assert a !in Names(remote);
  }

  lemma BothApplied(a: string, b: string, remote: seq<HostEntry>)
    requires a != b && (remote == [] || remote == [Entry(b)])
    ensures Apply(remote, Selection([a, b], [])) == Selection([a, b], [])
  {
    OneByOne(a, b);
    NoneAdded(remote, [a, b]);
    hide AutoCheck, Names;
    assert [a, b] + [] == [a, b];
  }

  lemma BothAssembled(a: string, b: string, remote: seq<HostEntry>)
    requires a != b && (remote == [] || remote == [Entry(b)])
    ensures Assemble([Entry(a), Entry(b)], remote, [a, b]) == [Entry(a), Entry(b)]
  {
    Lookups(a, b, remote);
    hide EntryFor;
    assert [a, b][..1] == [a] && [a][..0] == [];
    assert Assemble([Entry(a), Entry(b)], remote, [a]) == [] + [Entry(a)];
  }

  /** A device that unticked the first takes it out of the account and keeps the second. */
  lemma FirstUnticked(a: string, b: string, checked: seq<string>)
    requires a != b && (checked == [] || checked == [b])
    ensures Apply([Entry(a), Entry(b)], Selection(checked, [a])) == Selection([b], [a])
    ensures Assemble([], [Entry(a), Entry(b)], [b]) == [Entry(b)]
  {
    OneByOne(a, b);
    var remote := [Entry(a), Entry(b)];
    assert remote[..1] == [Entry(a)] && [Entry(a)][..0] == [] && [b][..0] == [] && [a][..0] == [];
    assert AutoCheck([Entry(a)], checked, [a]) == [];
    assert checked + AutoCheck(remote, checked, [a]) == [b];
    assert Filter([a], alias => alias in Names(remote) && alias !in [b]) == [] + [a];
    assert LastNamed(remote, b) == Some(Entry(b)) && LastNamed([], b) == None;
    assert Assemble([], remote, [b]) == [] + [Entry(b)];
  }

  // ----- the run -----

  lemma BothUploaded(a: string, b: string, s: State)
    requires a != b && Dev(s, 1).local == [Entry(a), Entry(b)] && Dev(s, 1).selection == Selection([a, b], [])
    requires Hosts(Current(s)) in {[], [Entry(b)]}
    ensures NextUpload(s, 1) == Upload(Base(Current(s)), [Entry(a), Entry(b)], Hosts(Current(s)), Selection([a, b], []))
  {
    OneByOne(a, b);
    BothApplied(a, b, Hosts(Current(s)));
    BothAssembled(a, b, Hosts(Current(s)));
    hide Apply, Assemble, SerializeAll;
  }

  lemma OneUploaded(a: string, b: string, s: State)
    requires a != b && Dev(s, 0).local == [] && Hosts(Current(s)) == [Entry(a), Entry(b)]
    requires Dev(s, 0).selection in {Selection([], [a]), Selection([b], [a])}
    ensures NextUpload(s, 0) == Upload(Base(Current(s)), [Entry(b)], [Entry(a), Entry(b)], Selection([b], [a]))
  {
    OneByOne(a, b);
    FirstUnticked(a, b, Dev(s, 0).selection.checked);
    hide Apply, Assemble, SerializeAll;
  }

  /** Device 0 unticks an alias that device 1 keeps ticked. */
  predicate Ready(s: State, a: string, b: string) {
    && s.history == [None, Some(Slot(1, [Entry(a), Entry(b)]))] && |s.wire| == 1
    && Dev(s, 0).local == [] && Dev(s, 0).selection == Selection([], [a]) && Dev(s, 0).round.Done?
    && Dev(s, 1).local == [Entry(a), Entry(b)] && Dev(s, 1).selection == Selection([a, b], []) && Dev(s, 1).round.Done?
  }

  lemma ReachReady(a: string, b: string) returns (s: State)
    requires a != b
    ensures Reaches(s, Tally(1, {}, {}, {}), Watch(0, a)) && Ready(s, a, b)
  {
    hide Reaches;
    var w, t, h := Watch(0, a), Tally(0, {}, {}, {}), [Entry(a), Entry(b)];
    Begins(w);
    Reach(Init(), t, w, Edit(1, h));
    var s1 := PutDev(Init(), 1, Device(h, Selection([], []), Idle, 0));
    Reach(s1, t, w, Tick(1, a));
    var s2 := PutDev(s1, 1, Device(h, Selection([a], []), Idle, 0));
    assert [] + [a] == [a];
    Reach(s2, t, w, Tick(1, b));
    var s3 := PutDev(s2, 1, Device(h, Selection([a, b], []), Idle, 0));
    assert [a] + [b] == [a, b];
    BothUploaded(a, b, s3);
    hide NextUpload;
    ReachUpload(s3, t, w, 1, 1);
    var s4 := Uploaded(s3, 1, 1);
    ReachLoss(s4, t, w, 1);
    var s5 := PutDev(s4, 1, Dev(s4, 1).(round := Done(Failed(PushStage))));
    Reach(s5, t, w, Untick(0, a));
    s := PutDev(s5, 0, Device([], Selection([], [a]), Idle, 0));
    assert [] + [a] == [a];
  }

  lemma Begins(w: Watch)
    ensures Reaches(Init(), Tally(0, {}, {}, {}), w)
  {
    assert Exec([]) == Init() && ExecTally([], w) == Tally(0, {}, {}, {});
  }

  /** Device 0 takes the alias out. */
  lemma ReachTaken(s: State, t: Tally, a: string, b: string, version: nat)
    requires Reaches(s, t, Watch(0, a)) && a != b && s.history != [] && Dev(s, 0).round.Done? && Dev(s, 0).local == []
    requires Hosts(Current(s)) == [Entry(a), Entry(b)] && Dev(s, 0).selection in {Selection([], [a]), Selection([b], [a])}
    requires version > Current(s).value.version
    ensures Reaches(Uploaded(s, 0, version), t.(removed := t.removed + {|s.wire|}), Watch(0, a))
    ensures NextUpload(s, 0) == Upload(Base(Current(s)), [Entry(b)], [Entry(a), Entry(b)], Selection([b], [a]))
  {
    hide Reaches, NextUpload;
    OneUploaded(a, b, s);
    OneByOne(a, b);
    ReachUpload(s, t, Watch(0, a), 0, version);
    assert a in [a, b] && a !in [b];
  }

  /** A single untick takes an alias out twice: the first upload is accepted but its answer is
      lost, another device puts the alias back, and the next round carries the untick out again. */
  lemma UntickTwice(a: string, b: string)
    requires a != b
    ensures exists s :: Reaches(s, Tally(1, {1, 3}, {}, {1}), Watch(0, a))
  {
    hide Reaches, NextUpload;
    var w, t := Watch(0, a), Tally(1, {}, {}, {});
    var s := ReachReady(a, b);
    ReachTaken(s, t, a, b, 2);
    var s1, t1 := Uploaded(s, 0, 2), t.(removed := {} + {1});
    ReachLoss(s1, t1, w, 0);
    var s2, t2 := PutDev(s1, 0, Dev(s1, 0).(round := Done(Failed(PushStage)))), t1.(unseen := {} + {1});
    assert Score(s1, t1, w, Lose(0)) == t2;
    BothUploaded(a, b, s2);
    ReachUpload(s2, t2, w, 1, 3);
    ReachTaken(Uploaded(s2, 1, 3), t2, a, b, 4);
    assert t2.removed + {3} == {1, 3} && t2.unseen == {1};
  }
}
