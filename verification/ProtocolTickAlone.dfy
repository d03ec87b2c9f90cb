/** A tick of the machine whose steps nobody interrupts does what module Worker says of Tick. */
module ProtocolTickAlone {
  import opened OpsModel
  import opened Store
  import opened Audit
  import opened Service
  import opened Protocol
  import opened ProtocolAlone
  import Worker

  /** The sweep looks at the records picked in look, one after the other; each environment lasts
      for as many steps as its record takes. */
  function SweepEnvs(look: seq<Env>): seq<Env> {
    if look == [] then [] else
      seq(StepsFor(look[0]), i => look[0]) + SweepEnvs(look[1..])
  }

  /** The ids found due, in that order. */
  function DueIds(look: seq<Env>): seq<string> {
    if look == [] then [] else
      (if PickIsDue(look[0]) then [look[0].pick.id] else []) + DueIds(look[1..])
  }

  ghost function Picks(look: seq<Env>): set<OpsRecord> {
    set e | e in look :: e.pick
  }

  /** look turns to stored records, to each at most once. */
  predicate LooksAt(items: Items, look: seq<Env>) {
    && (forall i :: 0 <= i < |look| ==> look[i].pick.id in items && items[look[i].pick.id] == look[i].pick)
    && (forall i, j :: 0 <= i < j < |look| ==> look[i].pick.id != look[j].pick.id)
  }

  lemma {:induction false} DueIdsExactly(look: seq<Env>, id: string)
    ensures id in DueIds(look) <==> exists i :: 0 <= i < |look| && look[i].pick.id == id && PickIsDue(look[i])
  {
    if look != [] {
      DueIdsExactly(look[1..], id);
      if i :| 0 <= i < |look[1..]| && look[1..][i].pick.id == id && PickIsDue(look[1..][i]) {
        assert look[i + 1].pick.id == id && PickIsDue(look[i + 1]);
      }
      if i :| 0 <= i < |look| && look[i].pick.id == id && PickIsDue(look[i]) {
        assert i > 0 ==> look[1..][i - 1] == look[i];
      }
    }
  }

  lemma {:induction false} SweepUncancelled(look: seq<Env>)
    requires Uncancelled(look)
    ensures Uncancelled(SweepEnvs(look))
  {
    if look != [] { SweepUncancelled(look[1..]); }
  }

  lemma PicksShrink(items: Items, look: seq<Env>)
    requires look != [] && LooksAt(items, look)
    ensures Picks(look) - {look[0].pick} == Picks(look[1..]) && look[0].pick in Picks(look)
    ensures LooksAt(items, look[1..]) && look[0].pick.id !in DueIds(look[1..])
  {
    DueIdsExactly(look[1..], look[0].pick.id);
    assert look[0] in look;
    forall r | r in Picks(look) - {look[0].pick} ensures r in Picks(look[1..]) {
      var e :| e in look && e.pick == r;
      var i :| 0 <= i < |look| && look[i] == e;
      assert look[1..][i - 1] == e;
    }
    forall r | r in Picks(look[1..]) ensures r in Picks(look) - {look[0].pick} {
      var e :| e in look[1..] && e.pick == r;
      var i :| 0 <= i < |look[1..]| && look[1..][i] == e;
      assert look[i + 1] == e && e in look;
    }
  }

  lemma LooksAtOthers(items: Items, items': Items, look: seq<Env>, id: string)
    requires LooksAt(items, look) && Transitioned(items, items', id, Closed)
    requires forall i :: 0 <= i < |look| ==> look[i].pick.id != id
    ensures LooksAt(items', look)
  {
  }

  lemma ClosuresCompose(items: Items, now: Items, then_: Items, id: string, closed: seq<string>)
    requires Transitioned(items, now, id, Closed) && Worker.Closures(now, then_, closed) && id !in closed
    ensures Worker.Closures(items, then_, [id] + closed)
  {
  }

  lemma ClosingsCompose(log: seq<OpsEvent>, sequence: nat, id: string, closed: seq<string>)
    ensures log + [OpsEvent(sequence + 1, id, StatusChanged, "worker")] + Worker.Closings(sequence + 1, closed) ==
            log + Worker.Closings(sequence, [id] + closed)
  {
  }

  /** What a sweep does to the shared state. */
  predicate Swept(sh: Shared, sh': Shared, closed: seq<string>) {
    && Worker.Closures(sh.items, sh'.items, closed)
    && sh'.events == sh.events + Worker.Closings(sh.eventSequence, closed)
    && sh'.dropped == sh.dropped && sh'.archived == sh.archived && sh'.claims == sh.claims && sh'.units == sh.units
  }

  lemma SweptCompose(sh: Shared, sh1: Shared, sh2: Shared, item: OpsRecord, at: string, closed: seq<string>)
    requires item.id in sh.items && sh.items[item.id] == item && item.id !in closed
    requires TransitionOutcome(sh, sh1, CloseRequest(item), at) && Transitioned(sh.items, sh1.items, item.id, Closed)
    requires item.status == Active && item.revision >= 1 && Swept(sh1, sh2, closed)
    ensures Swept(sh, sh2, [item.id] + closed)
  {
    hide Worker.Closures, Worker.Closings, Transitioned;
    ClosuresCompose(sh.items, sh1.items, sh2.items, item.id, closed);
    ClosingsCompose(sh.events, sh.eventSequence, item.id, closed);
  }

  /** The sweep, from any point on. */
  lemma {:induction false} SweepAlone(sh: Shared, pid: nat, look: seq<Env>, rest: seq<Env>) returns (sh': Shared)
    requires Keyed(sh.items) && LooksAt(sh.items, look) && Uncancelled(look) && Uncancelled(rest)
    ensures Solo(sh, pid, Sweeping(Picks(look)), SweepEnvs(look) + rest) == Solo(sh', pid, Sweeping({}), rest)
    ensures Swept(sh, sh', DueIds(look))
    decreases |look|
  {
    hide Solo, Uncancelled, Swept, TransitionOutcome, Picks;
    if look == [] {
      NoneLeft(sh, look, rest);
      return sh;
    }
    var item, e := look[0].pick, SweepEnvs(look) + rest;
    PicksShrink(sh.items, look);
    EnvsUnfold(look, rest);
    var sh1 := SweepTurnAlone(sh, pid, Picks(look), e);
    if PickIsDue(look[0]) {
      LooksAtOthers(sh.items, sh1.items, look[1..], item.id);
    }
    sh' := SweepAlone(sh1, pid, look[1..], rest);
    if PickIsDue(look[0]) {
      SweptCompose(sh, sh1, sh', item, e[3].now, DueIds(look[1..]));
      assert DueIds(look) == [item.id] + DueIds(look[1..]);
    } else {
      assert DueIds(look) == DueIds(look[1..]);
    }
  }

  lemma NoneLeft(sh: Shared, look: seq<Env>, rest: seq<Env>)
    requires look == []
    ensures Picks(look) == {} && SweepEnvs(look) + rest == rest && Swept(sh, sh, DueIds(look))
  {
  }

  lemma Regroup(turn: seq<Env>, others: seq<Env>, rest: seq<Env>)
    ensures (turn + others + rest)[|turn|..] == others + rest
  {
  }

  lemma UncancelledConcat(a: seq<Env>, b: seq<Env>)
    requires Uncancelled(a) && Uncancelled(b)
    ensures Uncancelled(a + b)
  {
  }

  lemma EnvsUnfold(look: seq<Env>, rest: seq<Env>)
    requires look != [] && Uncancelled(look) && Uncancelled(rest)
    ensures var e, n := SweepEnvs(look) + rest, StepsFor(look[0]);
            && |e| >= n && e[0] == look[0] && e[n..] == SweepEnvs(look[1..]) + rest
            && Uncancelled(e) && Uncancelled(look[1..])
  {
    hide PickIsDue;
    var turn := seq(StepsFor(look[0]), i => look[0]);
    SweepUncancelled(look);
    assert Uncancelled(look[1..]);
    hide Uncancelled;
    UncancelledConcat(SweepEnvs(look), rest);
    Regroup(turn, SweepEnvs(look[1..]), rest);
  }

  /** A whole tick: whatever the order in which the stored records are looked at, exactly those
      active and, when looked at, stale are closed, each with one event, and the newest 2000 events
      are kept. */
  lemma TickAlone(sh: Shared, pid: nat, first: Env, look: seq<Env>, last: Env, after: Env) returns (sh': Shared)
    requires Keyed(sh.items) && LooksAt(sh.items, look) && Picks(look) == sh.items.Values
    requires Uncancelled([first] + look + [last, after])
    ensures Solo(sh, pid, Begin(TickCall), [first] + (SweepEnvs(look) + [last, after])) == (sh', Finished)
    ensures Worker.Closures(sh.items, sh'.items, DueIds(look))
    ensures sh'.events == Newest(sh.events + Worker.Closings(sh.eventSequence, DueIds(look)), 2000)
    ensures forall i :: 0 <= i < |look| ==> (look[i].pick.id in DueIds(look) <==> PickIsDue(look[i]))
  {
    hide Solo, Picks, Keyed, Worker.Closures, Worker.Closings, Newest;
    var rest := [last, after];
    var all := [first] + (SweepEnvs(look) + rest);
    CalmTick(first, look, last, after);
    TickEnds(sh, pid, all);
    assert all[1..] == SweepEnvs(look) + rest;
    var swept := SweepAlone(sh, pid, look, rest);
    TickEnds(swept, pid, rest);
    sh' := Solo(swept, pid, Sweeping({}), rest).0;
    forall i | 0 <= i < |look| ensures look[i].pick.id in DueIds(look) <==> PickIsDue(look[i]) {
      DueIdsExactly(look, look[i].pick.id);
    }
  }

  lemma CalmTick(first: Env, look: seq<Env>, last: Env, after: Env)
    requires Uncancelled([first] + look + [last, after])
    ensures Uncancelled(look) && Uncancelled([last, after]) && Uncancelled([first] + (SweepEnvs(look) + [last, after]))
  {
    var all := [first] + look + [last, after];
    assert all[0] == first && all[|look| + 1] == last && all[|look| + 2] == after;
    assert forall i :: 0 <= i < |look| ==> all[i + 1] == look[i];
    SweepUncancelled(look);
  }
}
