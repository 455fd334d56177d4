// The append-only event log of one task, and the state that the log alone determines.
module TaskLog {
  import opened Sql

  datatype TaskState =
    Queued | Leased | Running | WaitingReview | Succeeded | Blocked | TimedOut | Failed | Cancelled

  predicate IsTerminal(state: TaskState) {
    state in {WaitingReview, Succeeded, Blocked, TimedOut, Failed, Cancelled}
  }

  predicate IsEffective(state: TaskState) {
    state in {Queued, Leased, Running, WaitingReview, Succeeded}
  }

  const MAX_ATTEMPTS := 3

  datatype EventCode =
    | EQueued | ELeaseAcquired | EExecutionStarted | ERetryScheduled | ELeaseReclaimed
    | EWaitingReview | EBlocked | ETimedOut | EFailed | ECancelled

  datatype PublicStatus = Preparing | NeedsAdvisorReview | NeedsEvidence | StatusTimedOut | StatusFailed | StatusCancelled

  datatype Event = Event(
    sequence: nat,
    code: EventCode,
    status: PublicStatus,
    publicCode: Option<string>,
    attempt: nat,
    result: Option<Key>)

  // What each kind of event shows to the outside.
  function StatusOf(code: EventCode): PublicStatus {
    match code
    case EWaitingReview => NeedsAdvisorReview
    case EBlocked => NeedsEvidence
    case ETimedOut => StatusTimedOut
    case EFailed => StatusFailed
    case ECancelled => StatusCancelled
    case _ => Preparing
  }

  // The part of a task row that a reader of the log can rebuild. Reclaiming is the one moment
  // between the two events of a lease reclaim; Broken means that the log left the grammar.
  datatype View =
    | Empty
    | View(state: TaskState, attempts: nat, result: Option<Key>, code: Option<string>)
    | Reclaiming(attempts: nat)
    | Broken

  predicate Held(v: View) {
    v.View? && (v.state == Leased || v.state == Running)
  }

  // The grammar, one event at a time.
  function Advance(v: View, e: Event): View {
    if e.status != StatusOf(e.code) then Broken
    else match e.code
      case EQueued =>
        if v == Empty && e.attempt == 0 && e.result == None then View(Queued, 0, None, None) else Broken
      case ELeaseAcquired =>
        if e.result != None then Broken
        else if v.View? && v.state == Queued && v.attempts < MAX_ATTEMPTS && e.attempt == v.attempts + 1
          then View(Leased, e.attempt, None, None)
        else if v.Reclaiming? && e.attempt == v.attempts + 1 then View(Leased, e.attempt, None, None)
        else Broken
      case EExecutionStarted =>
        if v.View? && v.state == Leased && e.attempt == v.attempts && e.result == None
          then v.(state := Running) else Broken
      case ERetryScheduled =>
        if Held(v) && v.attempts < MAX_ATTEMPTS && e.attempt == v.attempts && e.result == None
          then View(Queued, v.attempts, None, None) else Broken
      case ELeaseReclaimed =>
        if Held(v) && v.attempts < MAX_ATTEMPTS && e.attempt == v.attempts + 1 && e.result == None
          then Reclaiming(v.attempts) else Broken
      case EWaitingReview =>
        if Held(v) && e.attempt == v.attempts && e.result.Some?
          then View(WaitingReview, v.attempts, e.result, None) else Broken
      case EBlocked =>
        if Held(v) && e.attempt == v.attempts then View(Blocked, v.attempts, e.result, e.publicCode) else Broken
      case EFailed =>
        if Held(v) && e.attempt == v.attempts then View(Failed, v.attempts, e.result, e.publicCode) else Broken
      case ETimedOut =>
        if Held(v) && e.attempt == v.attempts && e.result == None
          then View(TimedOut, v.attempts, None, e.publicCode) else Broken
      case ECancelled =>
        if v.View? && !IsTerminal(v.state) && e.attempt == v.attempts && e.result == None
          then View(Cancelled, v.attempts, None, e.publicCode) else Broken
  }

  // Replaying `log` on top of what a reader already knows.
  function ReplayFrom(v: View, log: seq<Event>): View
    decreases |log|
  {
    if log == [] then v else ReplayFrom(Advance(v, log[0]), log[1..])
  }

  function Replay(log: seq<Event>): View {
    ReplayFrom(Empty, log)
  }

  // A reader who has seen a prefix and then replays the suffix ends where a full replay ends.
  lemma {:induction false} ReplaySuffix(v: View, seen: seq<Event>, rest: seq<Event>)
    ensures ReplayFrom(v, seen + rest) == ReplayFrom(ReplayFrom(v, seen), rest)
    decreases |seen|
  {
    if seen == [] {
      assert seen + rest == rest;
    } else {
      assert (seen + rest)[1..] == seen[1..] + rest;
      ReplaySuffix(Advance(v, seen[0]), seen[1..], rest);
    }
  }

  lemma ReplayAppend(log: seq<Event>, e: Event)
    ensures Replay(log + [e]) == Advance(Replay(log), e)
  {
    ReplaySuffix(Empty, log, [e]);
    assert [e][1..] == [];
  }

  // Event numbers are exactly 1, 2, ... in log order.
  predicate Numbered(log: seq<Event>) {
    forall i :: 0 <= i < |log| ==> log[i].sequence == i + 1
  }

  function MaxSequence(log: seq<Event>): nat {
    if log == [] then 0
    else
      var rest := MaxSequence(log[..|log| - 1]);
      if log[|log| - 1].sequence > rest then log[|log| - 1].sequence else rest
  }

  lemma {:induction false} NumberedMax(log: seq<Event>)
    requires Numbered(log)
    ensures MaxSequence(log) == |log|
    decreases |log|
  {
    if log != [] {
      NumberedMax(log[..|log| - 1]);
    }
  }

  // The next number is one more than the highest there is.
  function Append(log: seq<Event>, code: EventCode, status: PublicStatus, publicCode: Option<string>, attempt: nat, result: Option<Key>): seq<Event>
  {
    log + [Event(MaxSequence(log) + 1, code, status, publicCode, attempt, result)]
  }

  lemma AppendNumbered(log: seq<Event>, code: EventCode, status: PublicStatus, publicCode: Option<string>, attempt: nat, result: Option<Key>)
    requires Numbered(log)
    ensures var longer := Append(log, code, status, publicCode, attempt, result);
            && Numbered(longer)
            && |longer| == |log| + 1
            && longer[|log|] == Event(|log| + 1, code, status, publicCode, attempt, result)
            && Replay(longer) == Advance(Replay(log), Event(|log| + 1, code, status, publicCode, attempt, result))
            && Reclaims(longer) == Reclaims(log) + (if code == ELeaseReclaimed then 1 else 0)
  {
    NumberedMax(log);
    var e := Event(|log| + 1, code, status, publicCode, attempt, result);
    ReplayAppend(log, e);
    assert (log + [e])[..|log|] == log;
  }

  function Reclaims(log: seq<Event>): nat {
    if log == [] then 0
    else Reclaims(log[..|log| - 1]) + (if log[|log| - 1].code == ELeaseReclaimed then 1 else 0)
  }

  // The longest log that can lead to a view: one queueing, then three events for every attempt
  // that was given up, and one closing event.
  function LengthBound(v: View): nat {
    match v
    case Empty => 0
    case Broken => 0
    case Reclaiming(n) => 3 * n + 1
    case View(state, n, _, _) =>
      match state
      case Queued => 3 * n + 1
      case Leased => if n == 0 then 0 else 3 * n - 1
      case Running => 3 * n
      case Cancelled => if n < MAX_ATTEMPTS then 3 * n + 2 else 3 * n + 1
      case _ => 3 * n + 1
  }

  // The shape of the views that a log in the grammar can reach.
  predicate Plausible(v: View) {
    match v
    case Empty => true
    case Broken => false
    case Reclaiming(n) => 1 <= n < MAX_ATTEMPTS
    case View(state, n, result, code) =>
      && n <= MAX_ATTEMPTS
      && (state == Queued ==> n < MAX_ATTEMPTS)
      && (state == Leased || state == Running ==> n >= 1)
      && (!IsTerminal(state) ==> result == None && code == None)
      && (state == WaitingReview ==> result.Some? && code == None)
      && (state == TimedOut || state == Cancelled ==> result == None)
      && state != Succeeded
  }

  lemma {:induction false} LogIsBounded(log: seq<Event>)
    requires Replay(log) != Broken
    ensures Plausible(Replay(log)) && |log| <= LengthBound(Replay(log)) <= 10
    decreases |log|
  {
    if log != [] {
      var init, e := log[..|log| - 1], log[|log| - 1];
      assert log == init + [e];
      ReplayAppend(init, e);
      LogIsBounded(init);
    }
  }

  // Once closed, a log has no continuation in the grammar.
  lemma {:induction false} ClosedLog(v: View, rest: seq<Event>)
    requires v == Broken || (v.View? && IsTerminal(v.state))
    ensures rest != [] ==> ReplayFrom(v, rest) == Broken
    decreases |rest|
  {
    if rest != [] {
      assert Advance(v, rest[0]) == Broken;
      ClosedLog(Broken, rest[1..]);
    }
  }
}
