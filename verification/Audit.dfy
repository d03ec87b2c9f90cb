/** The audit trail (ops_audit.go): an append-only slice, pruned by an overlapping copy in
    place. */
module Audit {
  import opened OpsModel

  predicate Increasing(log: seq<OpsEvent>) {
    forall i, j :: 0 <= i < j < |log| ==> log[i].number < log[j].number
  }

  /** Every number was issued: it is at most the counter. */
  predicate Issued(log: seq<OpsEvent>, sequence: nat) {
    forall i :: 0 <= i < |log| ==> log[i].number <= sequence
  }

  /** The newest keep events; a negative keep counts as zero. */
  function Newest(log: seq<OpsEvent>, keep: int): seq<OpsEvent> {
    var k := if keep < 0 then 0 else keep;
    if |log| <= k then log else log[|log| - k..]
  }

  /** The end of the log, as many events as asked for or all if there are no more; still in order. */
  lemma NewestExactly(log: seq<OpsEvent>, keep: int)
    ensures var newest := Newest(log, keep);
            && |newest| == (if keep < 0 then 0 else if keep < |log| then keep else |log|)
            && newest == log[|log| - |newest|..]
            && (Increasing(log) ==> Increasing(newest))
            && forall sequence :: Issued(log, sequence) ==> Issued(newest, sequence)
  {
  }

  /** For: the events of one record, in order. */
  function EventsFor(log: seq<OpsEvent>, id: string): seq<OpsEvent> {
    if log == [] then [] else
      EventsFor(log[..|log| - 1], id) + (if log[|log| - 1].recordID == id then [log[|log| - 1]] else [])
  }

  /** The view has every event of this record as often as the log has it, nothing else, and keeps the
      order. */
  predicate IsViewOf(view: seq<OpsEvent>, log: seq<OpsEvent>, id: string) {
    && (forall e :: e in view ==> e.recordID == id)
    && (forall e :: e in log && e.recordID == id ==> multiset(view)[e] == multiset(log)[e])
    && (Increasing(log) ==> Increasing(view))
  }

  lemma EventsForExactly(log: seq<OpsEvent>, id: string)
    ensures IsViewOf(EventsFor(log, id), log, id)
  {
    ViewMembers(log, id);
    forall e | e in log && e.recordID == id ensures multiset(EventsFor(log, id))[e] == multiset(log)[e] {
      ViewCounts(log, id, e);
    }
    if Increasing(log) { ViewIncreasing(log, id); }
  }

  lemma {:induction false} ViewMembers(log: seq<OpsEvent>, id: string)
    ensures forall e :: e in EventsFor(log, id) ==> e.recordID == id && e in log
  {
    if log != [] { ViewMembers(log[..|log| - 1], id); }
  }

  lemma {:induction false} ViewCounts(log: seq<OpsEvent>, id: string, e: OpsEvent)
    requires e.recordID == id
    ensures multiset(EventsFor(log, id))[e] == multiset(log)[e]
  {
    if log != [] {
      ViewCounts(log[..|log| - 1], id, e);
      assert log == log[..|log| - 1] + [log[|log| - 1]];
    }
  }

  lemma {:induction false} ViewIncreasing(log: seq<OpsEvent>, id: string)
    requires Increasing(log)
    ensures Increasing(EventsFor(log, id))
  {
    if log != [] {
      var front := log[..|log| - 1];
      ViewIncreasing(front, id);
      ViewMembers(front, id);
      forall i | 0 <= i < |EventsFor(front, id)| ensures EventsFor(front, id)[i].number < log[|log| - 1].number {
        assert EventsFor(front, id)[i] in front;
      }
    }
  }

  /** What is added in front of a log is added in front of every record's view of it. */
  lemma {:induction false} EventsForAppend(a: seq<OpsEvent>, b: seq<OpsEvent>, id: string)
    ensures EventsFor(a + b, id) == EventsFor(a, id) + EventsFor(b, id)
  {
    if b == [] {
      assert a + b == a;
    } else {
      EventsForAppend(a, b[..|b| - 1], id);
      assert (a + b)[..|a + b| - 1] == a + b[..|b| - 1];
    }
  }

  predicate IsSuffix(tail: seq<OpsEvent>, log: seq<OpsEvent>) {
    |tail| <= |log| && tail == log[|log| - |tail|..]
  }

  /** After pruning, each record's view is a suffix of its view before. */
  lemma ForAfterPrune(log: seq<OpsEvent>, keep: int, id: string)
    ensures IsSuffix(EventsFor(Newest(log, keep), id), EventsFor(log, id))
  {
    var tail := Newest(log, keep);
    var head := log[..|log| - |tail|];
    assert log == head + tail;
    EventsForAppend(head, tail, id);
  }

  datatype AuditCall = AddCall(recordID: string, kind: EventType, actor: string) | PruneCall(keep: int)

  /** The trail after any run of Add and Prune; sequence is the event counter before it. */
  function RunTrail(log: seq<OpsEvent>, sequence: nat, calls: seq<AuditCall>): seq<OpsEvent>
    decreases |calls|
  {
    if calls == [] then log else
    match calls[0]
    case AddCall(id, kind, actor) => RunTrail(log + [OpsEvent(sequence + 1, id, kind, actor)], sequence + 1, calls[1..])
    case PruneCall(keep) => RunTrail(Newest(log, keep), sequence, calls[1..])
  }

  /** All the events a run adds. */
  function AddedBy(sequence: nat, calls: seq<AuditCall>): seq<OpsEvent>
    decreases |calls|
  {
    if calls == [] then [] else
    match calls[0]
    case AddCall(id, kind, actor) => [OpsEvent(sequence + 1, id, kind, actor)] + AddedBy(sequence + 1, calls[1..])
    case PruneCall(_) => AddedBy(sequence, calls[1..])
  }

  lemma SuffixOfSuffix(a: seq<OpsEvent>, b: seq<OpsEvent>, c: seq<OpsEvent>)
    requires IsSuffix(a, b) && IsSuffix(b, c)
    ensures IsSuffix(a, c)
  {
  }

  lemma Reassociate(a: seq<OpsEvent>, b: seq<OpsEvent>, c: seq<OpsEvent>)
    ensures a + (b + c) == a + b + c
  {
  }

  lemma CutInFront(log: seq<OpsEvent>, keep: int, later: seq<OpsEvent>)
    ensures IsSuffix(Newest(log, keep) + later, log + later)
  {
  }

  lemma {:induction false} RunIsSuffix(log: seq<OpsEvent>, sequence: nat, calls: seq<AuditCall>)
    requires Increasing(log) && Issued(log, sequence)
    ensures IsSuffix(RunTrail(log, sequence, calls), log + AddedBy(sequence, calls))
    ensures Increasing(RunTrail(log, sequence, calls))
    decreases |calls|
  {
    if calls == [] {
      assert log + [] == log;
    } else {
      match calls[0]
      case AddCall(id, kind, actor) =>
        var e := OpsEvent(sequence + 1, id, kind, actor);
        RunIsSuffix(log + [e], sequence + 1, calls[1..]);
        Reassociate(log, [e], AddedBy(sequence + 1, calls[1..]));
      case PruneCall(keep) =>
        var kept, later := Newest(log, keep), AddedBy(sequence, calls[1..]);
        RunIsSuffix(kept, sequence, calls[1..]);
        CutInFront(log, keep, later);
        SuffixOfSuffix(RunTrail(kept, sequence, calls[1..]), kept + later, log + later);
    }
  }

  /** On every run the trail is the newest stretch of everything ever added, in order and with
      strictly increasing numbers, so each record's view is a suffix of its full view. */
  lemma RunKeepsNewest(log: seq<OpsEvent>, sequence: nat, calls: seq<AuditCall>, id: string)
    requires Increasing(log) && Issued(log, sequence)
    ensures var trail, all := RunTrail(log, sequence, calls), log + AddedBy(sequence, calls);
            && IsSuffix(trail, all) && Increasing(trail)
            && IsSuffix(EventsFor(trail, id), EventsFor(all, id))
  {
    var trail, all := RunTrail(log, sequence, calls), log + AddedBy(sequence, calls);
    RunIsSuffix(log, sequence, calls);
    var head := all[..|all| - |trail|];
    assert all == head + trail;
    EventsForAppend(head, trail, id);
  }

  class OpsAudit {
    var buffer: array<OpsEvent>
    var len: nat
    /** The global event counter. */
    var sequence: nat

    ghost predicate Valid()
      reads this, buffer
    {
      len <= buffer.Length && Increasing(buffer[..len]) && Issued(buffer[..len], sequence)
    }

    ghost function Events(): seq<OpsEvent>
      reads this, buffer
      requires Valid()
    {
      buffer[..len]
    }

    constructor ()
      ensures Valid() && fresh(buffer) && Events() == [] && sequence == 0
    {
      buffer := new OpsEvent[0];
      len := 0;
      sequence := 0;
    }

    /** append: in place while the slice has room, else into a larger array. */
    method Add(recordID: string, kind: EventType, actor: string) returns (event: OpsEvent)
      requires Valid()
      modifies this, buffer
      ensures Valid() && (buffer == old(buffer) || fresh(buffer))
      ensures sequence == old(sequence) + 1 && event == OpsEvent(sequence, recordID, kind, actor)
      ensures Events() == old(Events()) + [event]
    {
      sequence := sequence + 1;
      event := OpsEvent(sequence, recordID, kind, actor);
      if len == buffer.Length {
        var larger := new OpsEvent[2 * len + 1];
        forall i | 0 <= i < len {
          larger[i] := buffer[i];
        }
        buffer := larger;
        assert buffer[..len] == old(buffer[..len]);
      }
      buffer[len] := event;
      len := len + 1;
      assert buffer[..len] == old(buffer[..len]) + [event];
    }

    method For(recordID: string) returns (out: seq<OpsEvent>)
      requires Valid()
      ensures out == EventsFor(Events(), recordID)
      ensures forall e :: e in out ==> e.recordID == recordID
      ensures forall e :: e in Events() && e.recordID == recordID ==> multiset(out)[e] == multiset(Events())[e]
      ensures Increasing(out)
    {
      out := [];
      for i := 0 to len
        invariant out == EventsFor(buffer[..i], recordID)
      {
        assert buffer[..i + 1][..i] == buffer[..i];
        if buffer[i].recordID == recordID {
          out := out + [buffer[i]];
        }
      }
      EventsForExactly(Events(), recordID);
    }

    method Latest() returns (latest: Option<OpsEvent>)
      requires Valid()
      ensures latest == if Events() == [] then None else Some(Events()[|Events()| - 1])
      ensures latest.Some? ==> forall e :: e in Events() ==> e.number <= latest.value.number
    {
      if len == 0 {
        return None;
      }
      return Some(buffer[len - 1]);
    }

    /** The built-in copy: source and destination overlap whenever more than half is kept. */
    method CopyDown(shift: nat)
      requires shift <= len <= buffer.Length
      modifies buffer
      ensures buffer[..len - shift] == old(buffer[shift..len])
    {
      var i := 0;
      while i < len - shift
        invariant 0 <= i <= len - shift
        invariant forall j :: 0 <= j < i ==> buffer[j] == old(buffer[j + shift])
        invariant forall j :: i <= j < len ==> buffer[j] == old(buffer[j])
      {
        buffer[i] := buffer[i + shift];
        i := i + 1;
      }
    }

    method Prune(keep: int)
      requires Valid()
      modifies this, buffer
      ensures Valid() && buffer == old(buffer) && sequence == old(sequence)
      ensures Events() == Newest(old(Events()), keep)
      ensures |Events()| == if keep < 0 then 0 else if keep < |old(Events())| then keep else |old(Events())|
      ensures Events() == old(Events())[|old(Events())| - |Events()|..]
    {
      hide Increasing, Issued;
      NewestExactly(Events(), keep);
      var kept := if keep < 0 then 0 else keep;
      if len <= kept {
        return;
      }
      ghost var was := Events();
      CopyDown(len - kept);
      assert buffer[..kept] == was[len - kept..];
      len := kept;
    }
  }
}
