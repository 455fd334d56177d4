// Whole runs: all tables together, one function call per step, and time that never goes back.
module Runs {
  import opened Sql
  import opened TaskLog
  import opened TaskCell
  import opened PlanningOutput
  import opened Idempotency
  import opened Planning
  import opened PlanningInvariants
  import opened PlanningHandoff
  import opened PlanningDecision
  import opened TaskQueue
  import opened TaskInvariants
  import opened Promotion
  import opened PromotionTheorems
  import opened LedgerInvariants

  datatype World = World(store: Store, queue: Queue, ledger: Ledger, now: int)

  function Start(now: int): World {
    World(EMPTY, NO_TASKS, NO_CANDIDATES, now)
  }

  // One call. What a function reads as an aggregate, or picks among ties, is part of the call and
  // tied to the tables by `Chosen`.
  datatype Call =
    | Publish(caseKey: Key, expected: Option<int>, revision: int, facts: Revision)
    | Transition(caseKey: Key, from: CaseState, to: CaseState)
    | Participants(caseKey: Key, advisor: nat, student: nat, parent: nat)
    | StorePack(pack: PackKey, manifest: string, items: seq<NewEntry>)
    | StoreEvidence(evidenceId: Key, evidence: Evidence)
    | StoreResult(result: PersistArgs)
    | ReviewCall(review: ReviewArgs, date: Option<int>, version: nat)
    | DecideCall(decide: DecideArgs, pick: Option<nat>)
    | CreateCall(create: CreateArgs)
    | CancelCall(cancel: CancelArgs)
    | ClaimCall(worker: string, choice: Option<Key>)
    | StartCall(task: Key, worker: string, generation: Option<nat>, input: Option<string>)
    | HeartbeatCall(task: Key, worker: string, generation: Option<nat>)
    | FailCall(task: Key, worker: string, generation: Option<nat>, code: Option<string>, retryable: bool, fallback: Option<bool>)
    | FinalizeCall(finalize: FinalizeArgs)
    | ImportCall(candidate: ImportArgs)
    | VerifyCall(verify: VerifyArgs, next: int)

  datatype Answer = Done | Replied(reply: Reply) | TaskReplied(task: TaskReply) | Granted(lease: Option<Lease>) | Verified(verified: VerifyReply)

  type Outcome = Result<(World, Answer)>

  function OnStore(w: World, r: Result<Store>): Outcome {
    match r case Err(e) => Err(e) case Ok(s) => Ok((w.(store := s), Done))
  }

  function OnRecorded(w: World, r: Result<(Store, Reply)>): Outcome {
    match r case Err(e) => Err(e) case Ok((s, reply)) => Ok((w.(store := s), Replied(reply)))
  }

  function OnTask(w: World, r: Result<(Store, Queue, TaskReply)>): Outcome {
    match r case Err(e) => Err(e) case Ok((s, q, reply)) => Ok((w.(store := s, queue := q), TaskReplied(reply)))
  }

  function OnQueue(w: World, r: Result<Queue>): Outcome {
    match r case Err(e) => Err(e) case Ok(q) => Ok((w.(queue := q), Done))
  }

  function OnClaim(w: World, r: Result<(Queue, Option<Lease>)>): Outcome {
    match r case Err(e) => Err(e) case Ok((q, lease)) => Ok((w.(queue := q), Granted(lease)))
  }

  function OnFinalize(w: World, r: Result<(Store, Queue)>): Outcome {
    match r case Err(e) => Err(e) case Ok((s, q)) => Ok((w.(store := s, queue := q), Done))
  }

  function OnImport(w: World, r: Result<(Store, Ledger, Reply)>): Outcome {
    match r case Err(e) => Err(e) case Ok((s, l, reply)) => Ok((w.(store := s, ledger := l), Replied(reply)))
  }

  function OnVerify(w: World, r: Result<(Store, Ledger, VerifyReply)>): Outcome {
    match r case Err(e) => Err(e) case Ok((s, l, reply)) => Ok((w.(store := s, ledger := l), Verified(reply)))
  }

  ghost function Apply(w: World, call: Call, rules: Rules): Outcome {
    match call
    case Publish(c, expected, revision, facts) => OnStore(w, PublishRevision(w.store, c, expected, revision, facts))
    case Transition(c, from, to) => OnStore(w, TransitionCase(w.store, c, from, to))
    case Participants(c, advisor, student, parent) => OnStore(w, AddParticipants(w.store, c, advisor, student, parent))
    case StorePack(pack, manifest, items) => OnStore(w, PersistPack(w.store, pack, manifest, items))
    case StoreEvidence(id, e) => OnStore(w, PersistEvidence(w.store, id, e))
    case StoreResult(a) => OnStore(w, PersistResult(w.store, a))
    case ReviewCall(a, date, version) => OnRecorded(w, ReviewRun(w.store, a, date, version))
    case DecideCall(a, pick) => OnRecorded(w, DecideBrief(w.store, a, pick))
    case CreateCall(a) => OnTask(w, CreateTask(w.store, w.queue, a, w.now))
    case CancelCall(a) => OnTask(w, CancelTask(w.store, w.queue, a, w.now))
    case ClaimCall(worker, choice) => OnClaim(w, ClaimTask(w.queue, worker, choice, w.now))
    case StartCall(k, worker, generation, input) => OnQueue(w, StartTask(w.queue, k, worker, generation, input, w.now))
    case HeartbeatCall(k, worker, generation) => OnQueue(w, HeartbeatTask(w.queue, k, worker, generation, w.now))
    case FailCall(k, worker, generation, code, retryable, fallback) =>
      OnQueue(w, FailTask(w.queue, k, worker, generation, code, retryable, fallback, w.now))
    case FinalizeCall(a) => OnFinalize(w, FinalizeTask(w.store, w.queue, a, w.now))
    case ImportCall(a) => OnImport(w, ImportCandidate(w.store, w.ledger, a, rules))
    case VerifyCall(a, version) => OnVerify(w, VerifyCandidate(w.store, w.ledger, a, rules, version))
  }

  ghost predicate Chosen(w: World, call: Call) {
    match call
    case ReviewCall(a, date, version) =>
      && (Key(a.org, a.run) in w.store.runs ==> IsSourceDate(w.store.entries, w.store.runs[Key(a.org, a.run)].pack, date))
      && NextReviewVersion(w.store.reviews, Key(a.org, a.run), version)
    case DecideCall(a, pick) =>
      Key(a.org, a.brief) in w.store.briefs && w.store.briefs[Key(a.org, a.brief)].run in w.store.rows
      ==> CostPick(w.store.rows[w.store.briefs[Key(a.org, a.brief)].run], pick)
    case ClaimCall(worker, choice) => IsChoice(w.queue, choice, w.now)
    case VerifyCall(a, version) => NextPackVersion(w.store.packs, a.org, BASE_PACK, version)
    case _ => true
  }

  // The caller of start, fail and finalize names a generation. Without one the call can pass its
  // fence and leave the executions of its task behind.
  predicate NamesGeneration(call: Call) {
    match call
    case StartCall(_, _, generation, _) => generation.Some?
    case FailCall(_, _, generation, _, _, _) => generation.Some?
    case FinalizeCall(a) => a.generation.Some?
    case _ => true
  }

  // The record that a call reads or writes, and the request that it compares.
  function KeyOf(call: Call): Option<RecordKey> {
    match call
    case ReviewCall(a, _, _) => Some(ReviewKey(a))
    case DecideCall(a, _) => Some(DecideKey(a))
    case CreateCall(a) => Some(CreateKey(a))
    case CancelCall(a) => Some(CancelKey(a))
    case ImportCall(a) => Some(ImportKey(a))
    case VerifyCall(a, _) => Some(VerifyKey(a))
    case _ => None
  }

  function RequestOf(call: Call): string {
    match call
    case ReviewCall(a, _, _) => a.request
    case DecideCall(a, _) => a.request
    case CreateCall(a) => a.request
    case CancelCall(a) => a.request
    case ImportCall(a) => a.request
    case VerifyCall(a, _) => a.request
    case _ => ""
  }

  // The call is no repetition of a recorded one.
  predicate Unrecorded(w: World, call: Call) {
    KeyOf(call).Some? ==> KeyOf(call).value !in w.store.records
  }

  // ------------------------------------------------------------------ runs

  // One moment of a run: some time passes, one call is made and answered, and leaves the tables.
  datatype Moment = Moment(wait: nat, call: Call, outcome: Result<Answer>, after: World)

  function Tick(w: World, wait: nat): World {
    w.(now := w.now + wait)
  }

  // An error rolls back everything.
  ghost predicate Answers(w: World, m: Moment, rules: Rules) {
    match Apply(Tick(w, m.wait), m.call, rules)
    case Err(e) => m.outcome == Err(e) && m.after == Tick(w, m.wait)
    case Ok((v, answer)) => m.outcome == Ok(answer) && m.after == v
  }

  ghost predicate Follows(w: World, m: Moment, rules: Rules) {
    Chosen(Tick(w, m.wait), m.call) && Answers(w, m, rules)
  }

  // The tables before moment `i` of a run that begins in `w`.
  function Before(w: World, run: seq<Moment>, i: int): World {
    if 0 < i <= |run| then run[i - 1].after else w
  }

  function Last(w: World, run: seq<Moment>): World {
    Before(w, run, |run|)
  }

  ghost predicate FollowsAt(w: World, run: seq<Moment>, i: int, rules: Rules) {
    0 <= i < |run| ==> Follows(Before(w, run, i), run[i], rules)
  }

  ghost predicate IsRun(w: World, run: seq<Moment>, rules: Rules) {
    forall i :: FollowsAt(w, run, i, rules)
  }

  // A state that some run of calls reaches from the empty tables.
  ghost predicate Reachable(w: World, rules: Rules) {
    exists now, run :: IsRun(Start(now), run, rules) && w == Last(Start(now), run)
  }

  // A run of one moment.
  ghost predicate Happens(w: World, m: Moment, rules: Rules) {
    IsRun(w, [m], rules)
  }

  lemma HappensIs(w: World, m: Moment, rules: Rules)
    ensures Happens(w, m, rules) <==> Follows(w, m, rules)
  {
    hide Follows;
    assert FollowsAt(w, [m], 0, rules) <==> Follows(w, m, rules);
  }

  // A run is a run up to any point and a run from there on.
  lemma Split(w: World, run: seq<Moment>, rest: seq<Moment>, rules: Rules)
    ensures IsRun(w, run + rest, rules) <==> IsRun(w, run, rules) && IsRun(Last(w, run), rest, rules)
    ensures Last(w, run + rest) == Last(Last(w, run), rest)
  {
    hide Follows;
    var whole, middle := run + rest, Last(w, run);
    forall i
      ensures 0 <= i < |run| ==> FollowsAt(w, whole, i, rules) == FollowsAt(w, run, i, rules)
      ensures 0 <= i < |rest| ==> FollowsAt(w, whole, |run| + i, rules) == FollowsAt(middle, rest, i, rules)
    {
    }
    if IsRun(w, whole, rules) {
      SplitParts(w, run, rest, rules);
    }
    if IsRun(w, run, rules) && IsRun(middle, rest, rules) {
      forall i
        ensures FollowsAt(w, whole, i, rules)
      {
        assert FollowsAt(w, run, i, rules) && FollowsAt(middle, rest, i - |run|, rules);
      }
    }
  }

  lemma SplitParts(w: World, run: seq<Moment>, rest: seq<Moment>, rules: Rules)
    requires IsRun(w, run + rest, rules)
    ensures IsRun(w, run, rules) && IsRun(Last(w, run), rest, rules)
  {
    hide Follows;
    forall i
      ensures FollowsAt(w, run, i, rules)
    {
      assert FollowsAt(w, run + rest, i, rules);
    }
    forall i
      ensures FollowsAt(Last(w, run), rest, i, rules)
    {
      assert FollowsAt(w, run + rest, |run| + i, rules);
    }
  }

  // A run that goes on by one moment.
  lemma OneMore(w: World, run: seq<Moment>, m: Moment, rules: Rules)
    ensures IsRun(w, run + [m], rules) <==> IsRun(w, run, rules) && Happens(Last(w, run), m, rules)
    ensures Last(w, run + [m]) == m.after
  {
    hide IsRun;
    Split(w, run, [m], rules);
  }

  // A first moment, a run, and a last moment.
  lemma Parts(w: World, first: Moment, run: seq<Moment>, last: Moment, rules: Rules)
    requires IsRun(w, [first] + run + [last], rules)
    ensures Happens(w, first, rules) && IsRun(first.after, run, rules) && Happens(Last(first.after, run), last, rules)
  {
    hide IsRun;
    OneMore(w, [first] + run, last, rules);
    Split(w, [first], run, rules);
  }

  lemma FirstOf(w: World, first: Moment, run: seq<Moment>, rules: Rules)
    requires IsRun(w, [first] + run, rules)
    ensures Happens(w, first, rules) && IsRun(first.after, run, rules)
  {
    hide IsRun;
    Split(w, [first], run, rules);
  }

  // What a run reaches from a reachable state is reachable.
  lemma ReachableOn(w: World, run: seq<Moment>, rules: Rules)
    requires Reachable(w, rules) && IsRun(w, run, rules)
    ensures Reachable(Last(w, run), rules)
  {
    hide IsRun, Last;
    var now, past :| IsRun(Start(now), past, rules) && w == Last(Start(now), past);
    Split(Start(now), past, run, rules);
  }

  lemma NoneIsRun(w: World, rules: Rules)
    ensures IsRun(w, [], rules)
  {
    hide Follows;
  }

  lemma StartReachable(now: int, rules: Rules)
    ensures Reachable(Start(now), rules)
  {
    hide Follows;
    assert IsRun(Start(now), [], rules) && Last(Start(now), []) == Start(now);
  }
}
