/**
 The Hermes plugin's pending operations (plugins/stack-execution-policy/__init__.py): an operation is
 prepared, its approval prompt is requested, answered "once", and only then executed.

 Each handler runs without interruption up to its broker call. What the session environment and the
 context checks answer are parameters.
 */
module Plugin {
  import opened Collections
  import opened Capabilities

  type PendingId = nat

  datatype Phase = Prepared | ApprovalPending | ApprovedOnce | Cancelled | Consumed

  /** The rule key names the feature and the pending id. */
  datatype RuleKey = RuleKey(feature: Feature, id: PendingId)

  datatype Item = Item(feature: Feature, capability: Nonce, digest: Digest, session: Session, user: User,
                       phase: Phase, rule: Option<RuleKey>)

  datatype Caller = Caller(user: User, session: Session, problem: bool)

  datatype Event =
    | PreparedAs(id: PendingId, item: Item)
    | PromptRequested(id: PendingId)
    | AnsweredOnce(id: PendingId)
    | CancelSent(id: PendingId, capability: Nonce)
    | ExecuteSent(id: PendingId, item: Item)

  datatype Log = Start | Then(before: Log, event: Event)

  datatype State = State(pending: map<PendingId, Item>, used: set<PendingId>, log: Log)

  const Init: State := State(map[], {}, Start)

  datatype Verdict = Block | AskOnce(rule: RuleKey)
  datatype Reply = Error | Sent

  function Logged(s: State, e: Event): State {
    s.(log := Then(s.log, e))
  }

  function WithPhase(s: State, id: PendingId, p: Phase): State
    requires id in s.pending
  {
    s.(pending := s.pending[id := s.pending[id].(phase := p)])
  }

  // ---------------------------------------------------------------- the handlers

  /** _prepare after the broker answered with a capability; the pending id is drawn fresh. */
  function PrepareItem(s: State, id: PendingId, f: Feature, caller: Caller, capability: Nonce, digest: Digest): State {
    if caller.problem || id in s.used then s else
    var item := Item(f, capability, digest, caller.session, caller.user, Prepared, None);
    Logged(s.(pending := s.pending[id := item], used := s.used + {id}), PreparedAs(id, item))
  }

  predicate MayAsk(s: State, id: PendingId, f: Feature, caller: Caller) {
    && id in s.pending && s.pending[id].feature == f && s.pending[id].phase.Prepared?
    && s.pending[id].session == caller.session && s.pending[id].user == caller.user
  }

  function AskApproval(s: State, id: PendingId, f: Feature, caller: Caller): State {
    if !MayAsk(s, id, f, caller) then s else
    Logged(s.(pending := s.pending[id := s.pending[id].(phase := ApprovalPending, rule := Some(RuleKey(f, id)))]),
           PromptRequested(id))
  }

  /** The item a rule key belongs to while its prompt is open. */
  predicate Awaits(s: State, id: PendingId, key: RuleKey) {
    id in s.pending && s.pending[id].rule == Some(key) && s.pending[id].phase.ApprovalPending?
  }

  /** Only the answer "once" approves. */
  function AnswerAt(s: State, id: PendingId, choice: string): State
    requires id in s.pending
  {
    if choice == "once" then Logged(WithPhase(s, id, ApprovedOnce), AnsweredOnce(id))
    else Logged(WithPhase(s, id, Phase.Cancelled), CancelSent(id, s.pending[id].capability))
  }

  function Answer(s: State, key: RuleKey, choice: string): State {
    if Awaits(s, key.id, key) then AnswerAt(s, key.id, choice) else s
  }

  predicate MayExecute(s: State, id: PendingId, f: Feature) {
    id in s.pending && s.pending[id].feature == f && s.pending[id].phase.ApprovedOnce?
  }

  predicate Sends(s: State, id: PendingId, f: Feature, caller: Caller) {
    MayExecute(s, id, f) && !caller.problem
    && caller.session == s.pending[id].session && caller.user == s.pending[id].user
  }

  /** _execute up to and including its broker call. */
  function SendExecute(s: State, id: PendingId, f: Feature, caller: Caller): State {
    if !MayExecute(s, id, f) then s
    else if Sends(s, id, f, caller) then Logged(WithPhase(s, id, Consumed), ExecuteSent(id, s.pending[id]))
    else Logged(WithPhase(s, id, Phase.Cancelled), CancelSent(id, s.pending[id].capability))
  }

  /** The broker call returned: the item is popped. */
  function ForgetItem(s: State, id: PendingId): State {
    if id in s.pending && s.pending[id].phase.Consumed? then s.(pending := s.pending - {id}) else s
  }

  datatype Step =
    | DoPrepare(id: PendingId, f: Feature, caller: Caller, capability: Nonce, digest: Digest)
    | DoAsk(id: PendingId, f: Feature, caller: Caller)
    | DoAnswer(key: RuleKey, choice: string)
    | DoExecute(id: PendingId, f: Feature, caller: Caller)
    | DoForget(id: PendingId)

  function Do(s: State, step: Step): State {
    match step
    case DoPrepare(id, f, caller, c, d) => PrepareItem(s, id, f, caller, c, d)
    case DoAsk(id, f, caller) => AskApproval(s, id, f, caller)
    case DoAnswer(key, choice) => Answer(s, key, choice)
    case DoExecute(id, f, caller) => SendExecute(s, id, f, caller)
    case DoForget(id) => ForgetItem(s, id)
  }

  function Run(steps: seq<Step>): State {
    if steps == [] then Init else Do(Run(steps[..|steps| - 1]), steps[|steps| - 1])
  }

  // ---------------------------------------------------------------- what the history contains

  /** What was prepared under this id: feature, capability, digest, session and user. */
  function PreparedOf(log: Log, id: PendingId): Option<Item> {
    if log.Start? then None
    else if log.event.PreparedAs? && log.event.id == id then Some(log.event.item)
    else PreparedOf(log.before, id)
  }

  /** The item as it was prepared, whatever became of it. */
  function AsPrepared(item: Item): Item {
    item.(phase := Prepared, rule := None)
  }

  predicate AskedIn(log: Log, id: PendingId) {
    log.Then? && (log.event == PromptRequested(id) || AskedIn(log.before, id))
  }

  predicate OnceIn(log: Log, id: PendingId) {
    log.Then? && (log.event == AnsweredOnce(id) || OnceIn(log.before, id))
  }

  predicate EndedIn(log: Log, id: PendingId) {
    log.Then? && (((log.event.CancelSent? || log.event.ExecuteSent?) && log.event.id == id) || EndedIn(log.before, id))
  }

  function ExecutesSent(log: Log, id: PendingId): nat {
    if log.Start? then 0
    else ExecutesSent(log.before, id) + if log.event.ExecuteSent? && log.event.id == id then 1 else 0
  }

  function PromptsRequested(log: Log, id: PendingId): nat {
    if log.Start? then 0
    else PromptsRequested(log.before, id) + if log.event == PromptRequested(id) then 1 else 0
  }

  /** Preparing comes first and once, then asking, once; the answer follows the asking; the end follows the answer
      and is the only one. An execute carries the item that was prepared, a cancellation its capability. */
  predicate Justified(log: Log, e: Event) {
    match e
    case PreparedAs(id, item) => PreparedOf(log, id).None? && !AskedIn(log, id) && item == AsPrepared(item)
    case PromptRequested(id) => PreparedOf(log, id).Some? && !AskedIn(log, id)
    case AnsweredOnce(id) => AskedIn(log, id) && !OnceIn(log, id) && !EndedIn(log, id)
    case CancelSent(id, capability) =>
      AskedIn(log, id) && !EndedIn(log, id) && PreparedOf(log, id).Some? && PreparedOf(log, id).value.capability == capability
    case ExecuteSent(id, item) =>
      OnceIn(log, id) && !EndedIn(log, id) && item.phase.ApprovedOnce? && PreparedOf(log, id) == Some(AsPrepared(item))
  }

  predicate JustifiedLog(log: Log) {
    log.Then? ==> JustifiedLog(log.before) && Justified(log.before, log.event)
  }

  ghost predicate ItemSound(s: State, id: PendingId) {
    && id in s.pending && id in s.used
    && var item := s.pending[id];
    && PreparedOf(s.log, id) == Some(AsPrepared(item))
    && (item.rule.Some? ==> item.rule.value == RuleKey(item.feature, id))
    && match item.phase
       case Prepared => item.rule.None? && !AskedIn(s.log, id) && !OnceIn(s.log, id) && !EndedIn(s.log, id)
       case ApprovalPending => item.rule.Some? && AskedIn(s.log, id) && !OnceIn(s.log, id) && !EndedIn(s.log, id)
       case ApprovedOnce => AskedIn(s.log, id) && OnceIn(s.log, id) && !EndedIn(s.log, id)
       case Cancelled => EndedIn(s.log, id)
       case Consumed => EndedIn(s.log, id)
  }

  ghost predicate Inv(s: State) {
    && (forall id | id in s.pending :: ItemSound(s, id))
    && (forall id | id !in s.used ::
          PreparedOf(s.log, id).None? && !AskedIn(s.log, id) && !OnceIn(s.log, id) && !EndedIn(s.log, id))
    && JustifiedLog(s.log)
  }

  lemma PrepareKeeps(s: State, id: PendingId, f: Feature, caller: Caller, capability: Nonce, digest: Digest)
    requires Inv(s)
    ensures Inv(PrepareItem(s, id, f, caller, capability, digest))
  {
    var s' := PrepareItem(s, id, f, caller, capability, digest);
    forall other | other in s'.pending ensures ItemSound(s', other) {
      if other in s.pending { assert ItemSound(s, other); }
    }
  }

  lemma AskKeeps(s: State, id: PendingId, f: Feature, caller: Caller)
    requires Inv(s)
    ensures Inv(AskApproval(s, id, f, caller))
  {
    forall other | other in AskApproval(s, id, f, caller).pending ensures ItemSound(AskApproval(s, id, f, caller), other) {
      assert ItemSound(s, other);
    }
    if id in s.pending { assert ItemSound(s, id); }
  }

  lemma AnswerKeeps(s: State, key: RuleKey, choice: string)
    requires Inv(s)
    ensures Inv(Answer(s, key, choice))
  {
    forall other | other in Answer(s, key, choice).pending ensures ItemSound(Answer(s, key, choice), other) {
      assert ItemSound(s, other);
    }
    if key.id in s.pending { assert ItemSound(s, key.id); }
  }

  lemma ExecuteKeeps(s: State, id: PendingId, f: Feature, caller: Caller)
    requires Inv(s)
    ensures Inv(SendExecute(s, id, f, caller))
  {
    forall other | other in SendExecute(s, id, f, caller).pending ensures ItemSound(SendExecute(s, id, f, caller), other) {
      assert ItemSound(s, other);
    }
    if id in s.pending { assert ItemSound(s, id); }
  }

  lemma ForgetKeeps(s: State, id: PendingId)
    requires Inv(s)
    ensures Inv(ForgetItem(s, id))
  {
    forall other | other in ForgetItem(s, id).pending ensures ItemSound(ForgetItem(s, id), other) {
      assert ItemSound(s, other);
    }
  }

  lemma StepKeeps(s: State, step: Step)
    requires Inv(s)
    ensures Inv(Do(s, step))
  {
    match step
    case DoPrepare(id, f, caller, c, d) => PrepareKeeps(s, id, f, caller, c, d);
    case DoAsk(id, f, caller) => AskKeeps(s, id, f, caller);
    case DoAnswer(key, choice) => AnswerKeeps(s, key, choice);
    case DoExecute(id, f, caller) => ExecuteKeeps(s, id, f, caller);
    case DoForget(id) => ForgetKeeps(s, id);
  }

  lemma {:induction false} RunKeeps(steps: seq<Step>)
    ensures Inv(Run(steps))
  {
    if steps != [] {
      RunKeeps(steps[..|steps| - 1]);
      StepKeeps(Run(steps[..|steps| - 1]), steps[|steps| - 1]);
    }
  }

  lemma {:induction false} CountedOnce(log: Log, id: PendingId)
    requires JustifiedLog(log)
    ensures ExecutesSent(log, id) <= (if EndedIn(log, id) && OnceIn(log, id) && AskedIn(log, id) then 1 else 0)
    ensures PromptsRequested(log, id) == (if AskedIn(log, id) then 1 else 0)
    ensures OnceIn(log, id) ==> AskedIn(log, id)
  {
    if log.Then? {
      CountedOnce(log.before, id);
    }
  }

  /** Over every run, per pending id: at most one prompt is requested, at most one execute reaches the
      broker, and an execute only after that prompt was answered "once" and with no cancellation before. */
  lemma AtMostOneExecute(steps: seq<Step>, id: PendingId)
    ensures var log := Run(steps).log;
      && PromptsRequested(log, id) <= 1 && ExecutesSent(log, id) <= 1
      && (ExecutesSent(log, id) == 1 ==> AskedIn(log, id) && OnceIn(log, id))
    ensures JustifiedLog(Run(steps).log)
  {
    RunKeeps(steps);
    CountedOnce(Run(steps).log, id);
  }

  /** `early` is `late` with some of the newest events taken off. */
  predicate IsPrefix(early: Log, late: Log) {
    early == late || (late.Then? && IsPrefix(early, late.before))
  }

  lemma {:induction false} PrefixIsJustified(early: Log, late: Log)
    requires IsPrefix(early, late) && JustifiedLog(late)
    ensures JustifiedLog(early)
  {
    if early != late {
      PrefixIsJustified(early, late.before);
    }
  }

  lemma {:induction false} PreparedOnce(early: Log, late: Log, id: PendingId)
    requires IsPrefix(early, late) && JustifiedLog(late) && PreparedOf(early, id).Some?
    ensures PreparedOf(late, id) == PreparedOf(early, id)
  {
    if early != late {
      PreparedOnce(early, late.before, id);
    }
  }

  /** Over every run, an execute carries the feature, capability, digest, session and user of the one preparation
      that was ever made under its id, and only after that id's prompt was answered "once". */
  lemma ExecuteCarriesWhatWasPrepared(steps: seq<Step>, at: Log)
    requires IsPrefix(at, Run(steps).log) && at.Then? && at.event.ExecuteSent?
    ensures PreparedOf(at.before, at.event.id) == PreparedOf(Run(steps).log, at.event.id) == Some(AsPrepared(at.event.item))
    ensures OnceIn(at.before, at.event.id) && !EndedIn(at.before, at.event.id)
  {
    RunKeeps(steps);
    PrefixIsJustified(at, Run(steps).log);
    PreparedOnce(at, Run(steps).log, at.event.id);
  }

  /** A cancellation withdraws the capability that was prepared under its id. */
  lemma CancelCarriesWhatWasPrepared(steps: seq<Step>, at: Log)
    requires IsPrefix(at, Run(steps).log) && at.Then? && at.event.CancelSent?
    ensures PreparedOf(Run(steps).log, at.event.id).Some?
    ensures PreparedOf(Run(steps).log, at.event.id).value.capability == at.event.capability
    ensures ExecutesSent(Run(steps).log, at.event.id) == 0
  {
    RunKeeps(steps);
    PrefixIsJustified(at, Run(steps).log);
    PreparedOnce(at, Run(steps).log, at.event.id);
    CancelledNeverExecutes(at, Run(steps).log);
  }

  lemma {:induction false} CancelledNeverExecutes(at: Log, late: Log)
    requires IsPrefix(at, late) && JustifiedLog(late) && at.Then? && at.event.CancelSent?
    ensures ExecutesSent(late, at.event.id) == 0 && EndedIn(late, at.event.id)
  {
    if at == late {
      CountedOnce(at.before, at.event.id);
    } else {
      CancelledNeverExecutes(at, late.before);
    }
  }

  // ---------------------------------------------------------------- which step did it

  predicate SameCaller(item: Item, caller: Caller) {
    caller.session == item.session && caller.user == item.user
  }

  /** The step that logs this event, and when it does. */
  predicate Explains(s: State, step: Step, e: Event) {
    match e
    case PreparedAs(id, item) =>
      && step == DoPrepare(id, item.feature, Caller(item.user, item.session, false), item.capability, item.digest)
      && id !in s.used && item.phase.Prepared? && item.rule.None?
    case PromptRequested(id) =>
      && step.DoAsk? && step.id == id && id in s.pending && s.pending[id].phase.Prepared?
      && step.f == s.pending[id].feature && SameCaller(s.pending[id], step.caller)
    case AnsweredOnce(id) =>
      && id in s.pending && s.pending[id].phase.ApprovalPending? && s.pending[id].rule == Some(RuleKey(s.pending[id].feature, id))
      && step == DoAnswer(RuleKey(s.pending[id].feature, id), "once")
    case CancelSent(id, capability) =>
      && id in s.pending && s.pending[id].capability == capability
      && ((s.pending[id].phase.ApprovalPending? && s.pending[id].rule == Some(RuleKey(s.pending[id].feature, id))
           && step.DoAnswer? && step.key == RuleKey(s.pending[id].feature, id) && step.choice != "once")
          || (s.pending[id].phase.ApprovedOnce? && step.DoExecute? && step.id == id && step.f == s.pending[id].feature
              && (!SameCaller(s.pending[id], step.caller) || step.caller.problem)))
    case ExecuteSent(id, item) =>
      && id in s.pending && s.pending[id] == item && item.phase.ApprovedOnce?
      && step.DoExecute? && step.id == id && step.f == item.feature && SameCaller(item, step.caller) && !step.caller.problem
  }

  lemma PrepareLogs(s: State, id: PendingId, f: Feature, caller: Caller, capability: Nonce, digest: Digest, e: Event)
    requires Inv(s)
    ensures PrepareItem(s, id, f, caller, capability, digest).log == Then(s.log, e)
      <==> Explains(s, DoPrepare(id, f, caller, capability, digest), e)
  {
    LogIsLonger(s.log, e);
  }

  lemma AskLogs(s: State, id: PendingId, f: Feature, caller: Caller, e: Event)
    requires Inv(s)
    ensures AskApproval(s, id, f, caller).log == Then(s.log, e) <==> Explains(s, DoAsk(id, f, caller), e)
  {
    LogIsLonger(s.log, e);
  }

  lemma AnswerLogs(s: State, key: RuleKey, choice: string, e: Event)
    requires Inv(s)
    ensures Answer(s, key, choice).log == Then(s.log, e) <==> Explains(s, DoAnswer(key, choice), e)
  {
    LogIsLonger(s.log, e);
    if key.id in s.pending { assert ItemSound(s, key.id); }
  }

  lemma ExecuteLogs(s: State, id: PendingId, f: Feature, caller: Caller, e: Event)
    requires Inv(s)
    ensures SendExecute(s, id, f, caller).log == Then(s.log, e) <==> Explains(s, DoExecute(id, f, caller), e)
  {
    LogIsLonger(s.log, e);
  }

  lemma LogIsLonger(log: Log, e: Event)
    ensures Then(log, e) != log
  {
    assert log < Then(log, e);
  }

  lemma ForgetLogs(s: State, id: PendingId, e: Event)
    ensures ForgetItem(s, id).log != Then(s.log, e) && !Explains(s, DoForget(id), e)
  {
    LogIsLonger(s.log, e);
  }

  /** In every state, exactly the steps that explain an event log it. */
  lemma StepLogsExactly(s: State, step: Step, e: Event)
    requires Inv(s)
    ensures Do(s, step).log == Then(s.log, e) <==> Explains(s, step, e)
  {
    match step
    case DoPrepare(id, f, caller, c, d) => PrepareLogs(s, id, f, caller, c, d, e);
    case DoAsk(id, f, caller) => AskLogs(s, id, f, caller, e);
    case DoAnswer(key, choice) => AnswerLogs(s, key, choice, e);
    case DoExecute(id, f, caller) => ExecuteLogs(s, id, f, caller, e);
    case DoForget(id) => ForgetLogs(s, id, e);
  }

  lemma StepAddsOne(s: State, step: Step)
    ensures Do(s, step).log == s.log || (Do(s, step).log.Then? && Do(s, step).log.before == s.log)
  {
  }

  /** The step that logged an event of a run. */
  lemma {:induction false} LoggedAt(steps: seq<Step>, at: Log) returns (p: nat)
    requires IsPrefix(at, Run(steps).log) && at.Then?
    ensures p < |steps| && Run(steps[..p]).log == at.before && Explains(Run(steps[..p]), steps[p], at.event)
  {
    var rest, last := steps[..|steps| - 1], steps[|steps| - 1];
    StepAddsOne(Run(rest), last);
    if IsPrefix(at, Run(rest).log) {
      p := LoggedAt(rest, at);
      assert rest[..p] == steps[..p];
    } else {
      p := |rest|;
      RunKeeps(rest);
      StepLogsExactly(Run(rest), last, at.event);
    }
  }

  lemma {:induction false} FindOnce(log: Log, id: PendingId) returns (at: Log)
    requires OnceIn(log, id)
    ensures IsPrefix(at, log) && at.Then? && at.event == AnsweredOnce(id)
  {
    if log.event == AnsweredOnce(id) {
      at := log;
    } else {
      at := FindOnce(log.before, id);
    }
  }

  lemma {:induction false} LogGrows(steps: seq<Step>, i: nat)
    requires i <= |steps|
    ensures IsPrefix(Run(steps[..i]).log, Run(steps).log)
  {
    if i == |steps| {
      assert steps[..i] == steps;
    } else {
      LogGrows(steps[..|steps| - 1], i);
      assert steps[..|steps| - 1][..i] == steps[..i];
      StepAddsOne(Run(steps[..|steps| - 1]), steps[|steps| - 1]);
    }
  }

  lemma KnownAs(s: State, id: PendingId)
    requires Inv(s) && id in s.pending
    ensures PreparedOf(s.log, id) == Some(AsPrepared(s.pending[id])) && id in s.used
  {
    assert ItemSound(s, id);
  }

  /** Every execute of every run was sent by the item's own caller without a problem, after the open prompt of that very
      item was answered "once". */
  lemma ExecuteWasAnsweredOnce(steps: seq<Step>, at: Log) returns (i: nat, p: nat)
    requires IsPrefix(at, Run(steps).log) && at.Then? && at.event.ExecuteSent?
    ensures i < p < |steps|
    ensures steps[i] == DoAnswer(RuleKey(at.event.item.feature, at.event.id), "once")
    ensures Awaits(Run(steps[..i]), at.event.id, RuleKey(at.event.item.feature, at.event.id))
    ensures steps[p].DoExecute? && steps[p].id == at.event.id && steps[p].f == at.event.item.feature
    ensures SameCaller(at.event.item, steps[p].caller) && !steps[p].caller.problem
  {
    p := LoggedAt(steps, at);
    RunKeeps(steps);
    PrefixIsJustified(at, Run(steps).log);
    var id := at.event.id;
    var once := FindOnce(at.before, id);
    i := LoggedAt(steps[..p], once);
    assert steps[..p][..i] == steps[..i];
    RunKeeps(steps[..i]);
    RunKeeps(steps[..p]);
    LogGrows(steps[..p], i);
    KnownAs(Run(steps[..i]), id);
    KnownAs(Run(steps[..p]), id);
    PreparedOnce(Run(steps[..i]).log, Run(steps[..p]).log, id);
  }

  lemma RunOne(steps: seq<Step>, i: nat)
    requires i < |steps|
    ensures Run(steps[..i + 1]) == Do(Run(steps[..i]), steps[i])
  {
    assert steps[..i + 1][..i] == steps[..i];
  }

  /** An open prompt answered with anything but "once" ends the item: it is never executed. */
  lemma RefusedNeverExecutes(steps: seq<Step>, i: nat, key: RuleKey, choice: string)
    requires i < |steps| && steps[i] == DoAnswer(key, choice) && choice != "once" && Awaits(Run(steps[..i]), key.id, key)
    ensures ExecutesSent(Run(steps).log, key.id) == 0
  {
    var s := Run(steps[..i]);
    RunKeeps(steps[..i]);
    assert ItemSound(s, key.id);
    StepLogsExactly(s, steps[i], CancelSent(key.id, s.pending[key.id].capability));
    RunOne(steps, i);
    LogGrows(steps, i + 1);
    RunKeeps(steps);
    CancelledNeverExecutes(Run(steps[..i + 1]).log, Run(steps).log);
  }

  predicate Holds(s: State, id: PendingId, item: Item) {
    id in s.pending && s.pending[id] == item
  }

  /** An item approved once waits for the first execute of its tool. */
  lemma ApprovedWaits(s: State, step: Step, id: PendingId, item: Item)
    requires Inv(s) && Holds(s, id, item) && item.phase.ApprovedOnce?
    requires !(step.DoExecute? && step.id == id && step.f == item.feature)
    ensures Holds(Do(s, step), id, item)
  {
    assert ItemSound(s, id);
  }

  lemma {:induction false} ApprovedWaitsOn(steps: seq<Step>, i: nat, id: PendingId, item: Item)
    requires i <= |steps| && Holds(Run(steps[..i]), id, item) && item.phase.ApprovedOnce?
    requires forall j | i <= j < |steps| :: !(steps[j].DoExecute? && steps[j].id == id && steps[j].f == item.feature)
    ensures Holds(Run(steps), id, item)
  {
    if i == |steps| {
      assert steps[..i] == steps;
    } else {
      var rest := steps[..|steps| - 1];
      assert rest[..i] == steps[..i];
      ApprovedWaitsOn(rest, i, id, item);
      RunKeeps(rest);
      ApprovedWaits(Run(rest), steps[|steps| - 1], id, item);
    }
  }

  lemma OnceApproves(s: State, key: RuleKey)
    requires Inv(s) && Awaits(s, key.id, key)
    ensures Holds(Do(s, DoAnswer(key, "once")), key.id, s.pending[key.id].(phase := ApprovedOnce))
    ensures key.feature == s.pending[key.id].feature
  {
    assert ItemSound(s, key.id);
  }

  lemma {:induction false} CountsGrow(early: Log, late: Log, id: PendingId)
    requires IsPrefix(early, late)
    ensures ExecutesSent(early, id) <= ExecutesSent(late, id)
  {
    if early != late {
      CountsGrow(early, late.before, id);
    }
  }

  lemma ExecuteDecides(steps: seq<Step>, p: nat, id: PendingId, item: Item)
    requires p < |steps| && Holds(Run(steps[..p]), id, item) && item.phase.ApprovedOnce?
    requires steps[p].DoExecute? && steps[p].id == id && steps[p].f == item.feature
    ensures ExecutesSent(Run(steps).log, id)
         == if SameCaller(item, steps[p].caller) && !steps[p].caller.problem then 1 else 0
  {
    var s := Run(steps[..p]);
    RunKeeps(steps[..p]);
    RunKeeps(steps);
    RunOne(steps, p);
    LogGrows(steps, p + 1);
    if SameCaller(item, steps[p].caller) && !steps[p].caller.problem {
      StepLogsExactly(s, steps[p], ExecuteSent(id, item));
      CountsGrow(Run(steps[..p + 1]).log, Run(steps).log, id);
      CountedOnce(Run(steps).log, id);
    } else {
      StepLogsExactly(s, steps[p], CancelSent(id, item.capability));
      CancelledNeverExecutes(Run(steps[..p + 1]).log, Run(steps).log);
    }
  }

  /** An open prompt answered "once": the first execute of that item's tool decides for good, and sends exactly one
      execute if and only if it comes from the item's own session and user without a problem. */
  lemma AnsweredOnceExecutesOnce(steps: seq<Step>, i: nat, p: nat, key: RuleKey)
    requires i < p < |steps| && steps[i] == DoAnswer(key, "once") && Awaits(Run(steps[..i]), key.id, key)
    requires steps[p].DoExecute? && steps[p].id == key.id && steps[p].f == key.feature
    requires forall j | i < j < p :: !(steps[j].DoExecute? && steps[j].id == key.id && steps[j].f == key.feature)
    ensures ExecutesSent(Run(steps).log, key.id)
         == if SameCaller(Run(steps[..i]).pending[key.id], steps[p].caller) && !steps[p].caller.problem then 1 else 0
  {
    var s := Run(steps[..i]);
    var item := s.pending[key.id].(phase := ApprovedOnce);
    RunKeeps(steps[..i]);
    OnceApproves(s, key);
    RunOne(steps, i);
    var before := steps[..p];
    assert before[..i + 1] == steps[..i + 1];
    ApprovedWaitsOn(before, i + 1, key.id, item);
    ExecuteDecides(steps, p, key.id, item);
  }

  lemma Snoc(steps: seq<Step>, step: Step) returns (longer: seq<Step>)
    ensures longer == steps + [step] && Run(longer) == Do(Run(steps), step)
  {
    longer := steps + [step];
    assert longer[..|steps|] == steps;
  }

  /** From any state: what its caller prepares under a fresh id, asks for, is answered "once" and executes, is sent. */
  lemma ApprovedItemsExecute(steps: seq<Step>, id: PendingId, f: Feature, caller: Caller, capability: Nonce, digest: Digest)
    returns (longer: seq<Step>)
    requires id !in Run(steps).used && !caller.problem
    ensures longer == steps + [DoPrepare(id, f, caller, capability, digest)] + [DoAsk(id, f, caller)]
                     + [DoAnswer(RuleKey(f, id), "once")] + [DoExecute(id, f, caller)]
    ensures Run(longer).log.Then? && Run(longer).log.event
         == ExecuteSent(id, Item(f, capability, digest, caller.session, caller.user, ApprovedOnce, Some(RuleKey(f, id))))
  {
    longer := Snoc(steps, DoPrepare(id, f, caller, capability, digest));
    longer := Snoc(longer, DoAsk(id, f, caller));
    longer := Snoc(longer, DoAnswer(RuleKey(f, id), "once"));
    longer := Snoc(longer, DoExecute(id, f, caller));
  }

  // ---------------------------------------------------------------- the module's dictionary

  class Pending {
    var items: map<PendingId, Item>
    ghost var used: set<PendingId>
    ghost var log: Log

    ghost function Value(): State
      reads this
    {
      State(items, used, log)
    }

    constructor ()
      ensures Value() == Init
    {
      items := map[];
      used := {};
      log := Start;
    }

    method Prepare(id: PendingId, f: Feature, caller: Caller, capability: Nonce, digest: Digest)
      requires id !in used
      modifies this
      ensures Value() == PrepareItem(old(Value()), id, f, caller, capability, digest)
    {
      if caller.problem {
        return;
      }
      items := items[id := Item(f, capability, digest, caller.session, caller.user, Prepared, None)];
      used := used + {id};
      log := Then(log, PreparedAs(id, items[id]));
    }

    method PreToolCall(id: PendingId, f: Feature, caller: Caller) returns (r: Verdict)
      modifies this
      ensures Value() == AskApproval(old(Value()), id, f, caller)
      ensures r == if MayAsk(old(Value()), id, f, caller) then AskOnce(RuleKey(f, id)) else Block
    {
      if id !in items || items[id].feature != f || !items[id].phase.Prepared? {
        return Block;
      }
      if items[id].session != caller.session || items[id].user != caller.user {
        return Block;
      }
      items := items[id := items[id].(phase := ApprovalPending)];
      items := items[id := items[id].(rule := Some(RuleKey(f, id)))];
      log := Then(log, PromptRequested(id));
      return AskOnce(RuleKey(f, id));
    }

    /** The loop visits the items in any order; the rule key fits at most one of them. */
    method PostApprovalResponse(key: RuleKey, choice: string)
      requires Inv(Value())
      modifies this
      ensures Value() == Answer(old(Value()), key, choice)
    {
      var rest := items.Keys;
      while rest != {}
        invariant rest <= items.Keys && Value() == old(Value())
        invariant key.id in items && key.id !in rest ==> !Awaits(Value(), key.id, key)
        decreases rest
      {
        var id :| id in rest;
        rest := rest - {id};
        if items[id].rule != Some(key) || !items[id].phase.ApprovalPending? {
          continue;
        }
        assert ItemSound(Value(), id);
        if choice == "once" {
          items := items[id := items[id].(phase := ApprovedOnce)];
          log := Then(log, AnsweredOnce(id));
        } else {
          items := items[id := items[id].(phase := Phase.Cancelled)];
          log := Then(log, CancelSent(id, items[id].capability));
        }
        return;
      }
    }

    /** Up to the broker call; the local state is consumed before the call. */
    method Execute(id: PendingId, f: Feature, caller: Caller) returns (r: Reply)
      modifies this
      ensures Value() == SendExecute(old(Value()), id, f, caller)
      ensures r.Sent? <==> Sends(old(Value()), id, f, caller)
    {
      if id !in items || items[id].feature != f {
        return Error;
      }
      if !items[id].phase.ApprovedOnce? {
        return Error;
      }
      var item := items[id];
      if caller.session != item.session || caller.user != item.user || caller.problem {
        items := items[id := item.(phase := Phase.Cancelled)];
        log := Then(log, CancelSent(id, item.capability));
        return Error;
      }
      items := items[id := item.(phase := Consumed)];
      log := Then(log, ExecuteSent(id, item));
      return Sent;
    }

    method Pop(id: PendingId)
      requires id in items ==> items[id].phase.Consumed?
      modifies this
      ensures Value() == ForgetItem(old(Value()), id)
    {
      items := items - {id};
    }
  }
}
