// The recorder's state machine and its bounded history.
module RecorderStates {
  import opened Prelude

  datatype State =
    Starting | Connecting | Connected | Subscribing | Healthy | Degraded | Reconnecting | Backfilling | Failed

  // The declared transitions.
  predicate Permitted(s: State, target: State) {
    match s
    case Starting => target.Connecting? || target.Failed?
    case Connecting => target.Connected? || target.Reconnecting? || target.Failed?
    case Connected => target.Subscribing? || target.Reconnecting? || target.Failed?
    case Subscribing => target.Healthy? || target.Reconnecting? || target.Failed?
    case Healthy => target.Degraded? || target.Reconnecting? || target.Backfilling? || target.Failed?
    case Degraded => target.Healthy? || target.Reconnecting? || target.Backfilling? || target.Failed?
    case Reconnecting => target.Connecting? || target.Failed?
    case Backfilling => target.Healthy? || target.Degraded? || target.Failed?
    case Failed => false
  }

  datatype Reason =
    | OpeningSource | SourceOpen | SubscribingNow | Receiving
    | RawWriteFailed | MarketWriteFailed | TraderWriteFailed | NoData | DataFlowing
    | ConnectionSilent | StreamsQuiet | StreamStale | StreamsFresh

  datatype Transition = Change(previous: State, current: State, at: int, reason: Reason)

  datatype TransitionError = NotDeclared(from: State, target: State)

  // refused: some undeclared transition was attempted, that is, TransitionError was raised.
  datatype Machine = Machine(state: State, history: seq<Transition>, limit: int, refused: bool)

  const HISTORY_LIMIT := 512

  function NewMachine(limit: int): Machine {
    Machine(Starting, [], limit, false)
  }

  // del history[: len - limit] when len exceeds the limit; a slice end past the list is clipped.
  function Trimmed(history: seq<Transition>, limit: int): seq<Transition> {
    if |history| > limit then history[Min(|history| - limit, |history|)..] else history
  }

  function Advance(m: Machine, target: State, at: int, reason: Reason): Machine {
    if !Permitted(m.state, target) then m.(refused := true)
    else m.(state := target,
            history := Trimmed(m.history + [Change(m.state, target, at, reason)], m.limit))
  }

  // _degrade: only where the move is declared and needed.
  function Degrading(m: Machine, at: int, reason: Reason): Machine {
    if m.state == Degraded || !Permitted(m.state, Degraded) then m
    else Advance(m, Degraded, at, reason)
  }

  class StateMachine {
    const limit: int
    var state: State
    var history: seq<Transition>
    ghost var refused: bool

    constructor (limit: int)
      ensures this.limit == limit && Value() == NewMachine(limit)
    {
      this.limit := limit;
      state, history, refused := Starting, [], false;
    }

    ghost function Value(): Machine
      reads this
    {
      Machine(state, history, limit, refused)
    }

    method Transition(target: State, at: int, reason: Reason) returns (r: Result<Transition, TransitionError>)
      modifies this
      ensures Value() == Advance(old(Value()), target, at, reason)
      ensures r.Success? <==> Permitted(old(state), target)
      ensures r.Success? ==> r.value == Change(old(state), target, at, reason)
    {
      if !Permitted(state, target) {
        refused := true;
        return Failure(NotDeclared(state, target));
      }
      var record := Change(state, target, at, reason);
      state := target;
      history := history + [record];
      if |history| > limit {
        history := history[Min(|history| - limit, |history|)..];
      }
      r := Success(record);
    }

    method Degrade(at: int, reason: Reason)
      modifies this
      ensures Value() == Degrading(old(Value()), at, reason)
    {
      if state == Degraded || !Permitted(state, Degraded) {
        return;
      }
      var _ := Transition(Degraded, at, reason);
    }
  }

  // The same transitions by target: whence each state can be entered.
  lemma EnteredExactly(s: State)
    ensures !Permitted(s, Starting)
    ensures Permitted(s, Connecting) <==> s in {Starting, Reconnecting}
    ensures Permitted(s, Connected) <==> s == Connecting
    ensures Permitted(s, Subscribing) <==> s == Connected
    ensures Permitted(s, Healthy) <==> s in {Subscribing, Degraded, Backfilling}
    ensures Permitted(s, Degraded) <==> s in {Healthy, Backfilling}
    ensures Permitted(s, Reconnecting) <==> s in {Connecting, Connected, Subscribing, Healthy, Degraded}
    ensures Permitted(s, Backfilling) <==> s in {Healthy, Degraded}
    ensures Permitted(s, Failed) <==> s != Failed
  {
  }

  // ----- runs -----

  datatype Move = Move(target: State, at: int, reason: Reason)

  // The machine after attempting the moves in order; a refused move leaves it where it was.
  function After(limit: int, moves: seq<Move>): Machine {
    if moves == [] then NewMachine(limit)
    else
      var m := moves[|moves| - 1];
      Advance(After(limit, moves[..|moves| - 1]), m.target, m.at, m.reason)
  }

  // Every transition that succeeded, in order, however much of it the history has forgotten.
  function Taken(limit: int, moves: seq<Move>): seq<Transition> {
    if moves == [] then []
    else
      var front := moves[..|moves| - 1];
      var m := moves[|moves| - 1];
      var s := After(limit, front).state;
      Taken(limit, front) + (if Permitted(s, m.target) then [Change(s, m.target, m.at, m.reason)] else [])
  }

  // A path of declared transitions from Starting to end, each beginning where the last one ended.
  predicate Chained(path: seq<Transition>, end: State) {
    && (forall i :: 0 <= i < |path| ==> Permitted(path[i].previous, path[i].current))
    && (forall i :: 0 < i < |path| ==> path[i].previous == path[i - 1].current)
    && (path == [] ==> end == Starting)
    && (path != [] ==> path[0].previous == Starting && path[|path| - 1].current == end)
  }

  function Last<T>(s: seq<T>, n: int): seq<T> {
    if n <= 0 then [] else if n >= |s| then s else s[|s| - n..]
  }

  lemma ChainedExtends(path: seq<Transition>, end: State, t: Transition)
    requires Chained(path, end) && t.previous == end && Permitted(end, t.current)
    ensures Chained(path + [t], t.current)
  {
    var longer := path + [t];
    assert forall i :: 0 <= i < |path| ==> longer[i] == path[i];
  }

  lemma TrimmedIsLast(path: seq<Transition>, limit: int, t: Transition)
    ensures Trimmed(Last(path, limit) + [t], limit) == Last(path + [t], limit)
  {
  }

  // The history kept is the last limit transitions taken, and those form a chain ending in the current state.
  lemma {:induction false} HistoryIsRecentPath(limit: int, moves: seq<Move>)
    ensures Chained(Taken(limit, moves), After(limit, moves).state)
    ensures After(limit, moves).limit == limit
    ensures After(limit, moves).history == Last(Taken(limit, moves), limit)
  {
    if moves != [] {
      var front, move := moves[..|moves| - 1], moves[|moves| - 1];
      HistoryIsRecentPath(limit, front);
      var m := After(limit, front);
      if Permitted(m.state, move.target) {
        var t := Change(m.state, move.target, move.at, move.reason);
        ChainedExtends(Taken(limit, front), m.state, t);
        TrimmedIsLast(Taken(limit, front), limit, t);
      } else {
        assert Taken(limit, moves) == Taken(limit, front);
      }
    }
  }

  predicate Recording(s: State) {
    s.Healthy? || s.Degraded? || s.Backfilling?
  }

  // Data is only ever expected after connecting, being connected and subscribing, in that order.
  predicate EntersByTheDoor(path: seq<Transition>) {
    forall i :: 0 <= i < |path| && Recording(path[i].current) && !Recording(path[i].previous) ==>
      && i >= 3
      && path[i].current == Healthy
      && path[i - 1].current == Subscribing
      && path[i - 2].current == Connected
      && path[i - 3].current == Connecting
  }

  predicate FailedIsFinal(path: seq<Transition>) {
    forall i :: 0 <= i < |path| && path[i].current == Failed ==> i == |path| - 1
  }

  lemma ChainShape(path: seq<Transition>, end: State)
    requires Chained(path, end)
    ensures EntersByTheDoor(path) && FailedIsFinal(path)
  {
    forall i | 0 <= i < |path| && Recording(path[i].current) && !Recording(path[i].previous)
      ensures i >= 3 && path[i].current == Healthy && path[i - 1].current == Subscribing
      ensures path[i - 2].current == Connected && path[i - 3].current == Connecting
    {
      assert path[i].previous == Subscribing;
      assert path[i - 1].previous == Connected;
      assert path[i - 2].previous == Connecting;
    }
    forall i | 0 <= i < |path| - 1
      ensures path[i].current != Failed
    {
      assert Permitted(path[i + 1].previous, path[i + 1].current);
    }
  }

  // The shape of every run of attempted transitions from Starting.
  lemma {:induction false} PathShape(limit: int, moves: seq<Move>)
    ensures EntersByTheDoor(Taken(limit, moves)) && FailedIsFinal(Taken(limit, moves))
  {
    HistoryIsRecentPath(limit, moves);
    ChainShape(Taken(limit, moves), After(limit, moves).state);
  }
}
