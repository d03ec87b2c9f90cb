/** The status table and its recorder (ops_state.go). */
module StateMachine {
  import opened OpsModel

  /** The edges of opsTransitionTable. */
  predicate Edge(from: OpsStatus, to: OpsStatus) {
    match from
    case Queued => to == Active || to == Closed
    case Active => to == Paused || to == Closed
    case Paused => to == Active || to == Closed
    case _ => false
  }

  /** CanMove: staying is always allowed. */
  predicate CanMove(from: OpsStatus, to: OpsStatus) {
    from == to || Edge(from, to)
  }

  /** The table read by target: where a record can come from. */
  lemma ComesFrom(s: OpsStatus, text: OtherStatusText)
    ensures Edge(s, Closed) <==> s in {Queued, Active, Paused}
    ensures Edge(s, Active) <==> s in {Queued, Paused}
    ensures Edge(s, Paused) <==> s == Active
    ensures !Edge(s, Queued) && !Edge(s, OtherStatus(text))
  {
  }

  datatype OpsTransition = OpsTransition(from: OpsStatus, to: OpsStatus, reason: string)

  /** Move as a function of the recorded history. */
  function MoveResult(history: seq<OpsTransition>, from: OpsStatus, to: OpsStatus, reason: string)
    : Reply<seq<OpsTransition>>
  {
    if from == to then Ok(history)
    else if !Edge(from, to) then Err(TransitionRefused)
    else Ok(history + [OpsTransition(from, to, reason)])
  }

  predicate OnlyEdges(history: seq<OpsTransition>) {
    forall i :: 0 <= i < |history| ==> Edge(history[i].from, history[i].to)
  }

  /** A walk of any length along the table. */
  predicate Walk(path: seq<OpsStatus>) {
    forall i :: 0 < i < |path| ==> CanMove(path[i - 1], path[i])
  }

  /** Where a walk can lead: closed is never left, queued is never entered from elsewhere, and
      a status outside the table is neither entered nor left. */
  lemma {:induction false} WalkEnds(path: seq<OpsStatus>)
    requires path != [] && Walk(path)
    ensures var first, last := path[0], path[|path| - 1];
            && (first == Closed || first.OtherStatus? ==> last == first)
            && (last == Queued || last.OtherStatus? ==> first == last)
  {
    if |path| > 1 {
      WalkEnds(path[..|path| - 1]);
      assert CanMove(path[|path| - 2], path[|path| - 1]);
    }
  }

  class OpsStateMachine {
    var history: seq<OpsTransition>

    constructor ()
      ensures history == []
    {
      history := [];
    }

    method Move(from: OpsStatus, to: OpsStatus, reason: string) returns (err: Option<OpsError>)
      modifies this
      ensures match MoveResult(old(history), from, to, reason)
              case Err(e) => err == Some(e) && history == old(history)
              case Ok(moved) => err == None && history == moved
      ensures err == None <==> CanMove(from, to)
      ensures err == None <==> from == to || Edge(from, to)
      ensures err != None ==> err == Some(TransitionRefused)
      ensures history == old(history) + if err == None && from != to then [OpsTransition(from, to, reason)] else []
      ensures old(OnlyEdges(history)) ==> OnlyEdges(history)
    {
      if from == to {
        return None;
      }
      if !Edge(from, to) {
        return Some(TransitionRefused);
      }
      history := history + [OpsTransition(from, to, reason)];
      return None;
    }

    method Reset()
      modifies this
      ensures history == []
    {
      history := [];
    }
  }
}
