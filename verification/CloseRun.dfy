/**
 One close execution as the bridge performs it (execute_close_for_closing_channel in
 bridge.rs): read the closing data once, then select, prepare and submit through the
 keyset retry helper, then complete and record.  Between any two of its calls other
 requests, other executions, keyset refreshes and the mint may do anything.  Each execution
 is shown to be a run of CloseProtocol, so that every result about runs covers it.
 */
module CloseRun {
  import opened Wrappers
  import opened Channel
  import A = Amounts
  import opened Stores
  import opened Restore
  import opened CloseRequest
  import opened Receiver
  import opened Lifecycle
  import opened MintOutcome
  import opened KeysetRetry
  import opened CloseProtocol
  import opened Settlement

  /** What the mint makes of a submission: it executes and answers, it refuses, or nothing certain comes back. */
  datatype Reaction =
    | Executes(sigs: seq<BlindSignature>)
    | Refuses(evidence: MintError)
    | Fails(error: MintError, executed: bool)

  /** What happens around an execution, by its calls: what others do before each, and how each is answered. */
  datatype Script = Script(
    others: nat -> seq<Step>,
    pick: nat -> Option<A.KeysetInfo>,
    now: nat -> nat,
    nonce: nat -> string,
    reaction: nat -> Reaction)

  /** An execution: its name, its channel, and the closing data it read when it began. */
  datatype Call = Call(w: World, exec: nat, id: string, closing: ClosingData, script: Script)

  /** A prepared swap that has not been submitted. */
  datatype Draft = Draft(keyset: A.KeysetInfo, payment: Payment, nonce: string, prepared: PreparedClose)

  /** The state around the execution, and how many calls it has made. */
  datatype CloseWorld = CloseWorld(state: State, calls: nat)

  // ------------------------------------------------------------------------
  // The callbacks
  // ------------------------------------------------------------------------

  ghost function Interfered(c: Call, w: CloseWorld): State {
    if ValidEnv(c.w.env) then Run(c.w, w.state, c.script.others(w.calls)) else w.state
  }

  /** select_close_output_keyset_for_channel: from the cache alone. */
  ghost function Selected(c: Call, w: CloseWorld): (CloseWorld, Result<A.KeysetInfo, string>) {
    var s, pick := Interfered(c, w), c.script.pick(w.calls);
    (CloseWorld(s, w.calls + 1),
     if pick.Some? && c.id in s.books.funding
        && UsableKeyset(s.keysets, c.script.now(w.calls), s.books.funding[c.id], pick.value)
     then Ok(pick.value) else Err("no usable active close keysets"))
  }

  /** prepare_close_for_closing_channel_with_keyset, for the payment read at the beginning. */
  ghost function Drafted(c: Call, w: CloseWorld, k: A.KeysetInfo): (CloseWorld, Result<Draft, string>) {
    var s, nonce := Interfered(c, w), c.script.nonce(w.calls);
    (CloseWorld(s, w.calls + 1),
     if c.id !in s.books.funding || !A.ValidKeyset(k) then Err("missing funding")
     else
       match PrepareClose(c.w.env.crypto, c.id, c.closing.payment, s.books.funding[c.id], k, nonce)
       case Err(e) => Err(e)
       case Ok(p) => Ok(Draft(k, c.closing.payment, nonce, p)))
  }

  /** The draft as the next submission to reach the mint. */
  ghost function Sending(s: State, d: Draft): Attempt {
    Attempt(s.sent, d.payment, d.nonce, d.prepared)
  }

  function Arrived(s: State, a: Attempt): State {
    s.(sent := s.sent + 1, submitted := s.submitted + {a})
  }

  function SettledBy(s: State, a: Attempt): State {
    s.(spent := s.spent[a.prepared.id := Settled(a)])
  }

  /** An honest mint: a success reply means executed, a keyset rejection means not executed. */
  function React(s: State, a: Attempt, x: Reaction): (State, Result<seq<BlindSignature>, MintError>) {
    match x
    case Executes(sigs) => if CanSettle(s, a) then (SettledBy(s, a), Ok(sigs)) else (s, Err(Transport))
    case Refuses(e) => (if PermitsKeysetRetry(e) then s.(refused := s.refused + {a.serial}) else s, Err(e))
    case Fails(e, executed) =>
      (if executed && CanSettle(s, a) then SettledBy(s, a) else s, Err(if PermitsKeysetRetry(e) then Transport else e))
  }

  ghost function Sent(c: Call, w: CloseWorld, d: Draft): (CloseWorld, Result<seq<BlindSignature>, MintError>) {
    var s := Interfered(c, w);
    var a := Sending(s, d);
    var (t, outcome) := React(Arrived(s, a), a, c.script.reaction(w.calls));
    (CloseWorld(t, w.calls + 1), outcome)
  }

  ghost function CloseCallbacks(c: Call): Callbacks<CloseWorld, A.KeysetInfo, Draft, seq<BlindSignature>, string, MintError> {
    Callbacks(
      (k: A.KeysetInfo) => k.id,
      (w: CloseWorld) => Selected(c, w),
      (w: CloseWorld, k: A.KeysetInfo) => Drafted(c, w, k),
      (w: CloseWorld, d: Draft) => Sent(c, w, d),
      (e: MintError) => PermitsKeysetRetry(e),
      (w: CloseWorld, d: Draft, e: MintError) => (w, None),
      (w: CloseWorld) => (CloseWorld(Interfered(c, w), w.calls + 1), None))
  }

  type CloseSubmission = Submission<CloseWorld, A.KeysetInfo, Draft, seq<BlindSignature>, MintError>

  type CloseEnded = Ended<CloseWorld, A.KeysetInfo, Draft, seq<BlindSignature>, string, MintError>

  ghost function Submissions(c: Call, s: State): CloseEnded {
    WithRetry(CloseCallbacks(c), CloseWorld(s, 0))
  }

  /** finalize_close: complete the reply and, if the channel is still Closing, record it. */
  ghost function ExecuteClose(c: Call, s: State): State {
    var e := Submissions(c, s);
    match e.result
    case Err(_) => e.world.state
    case Ok(success) =>
      var t := Interfered(c, e.world);
      t.(books := ApplyAll(t.books, CompletionOps(c.w, t.books, success.attempt.prepared, success.value)))
  }

  ghost function AttemptOf(c: Call, sub: CloseSubmission): Attempt {
    Sending(Interfered(c, sub.before), sub.attempt)
  }

  // ------------------------------------------------------------------------
  // Others act alike whether or not this execution is under way
  // ------------------------------------------------------------------------

  function WithExec(s: State, exec: nat, x: Exec): State {
    s.(execs := s.execs[exec := x])
  }

  /** The step is not one of this execution's. */
  predicate Avoids(step: Step, exec: nat) {
    (step.Begin? || step.Submit? || step.Reject? || step.Abandon? || step.Finish?) ==> step.exec != exec
  }

  predicate AllAvoid(steps: seq<Step>, exec: nat) {
    forall i | 0 <= i < |steps| :: Avoids(steps[i], exec)
  }

  lemma FrameOps(w: World, s: State, step: Step, exec: nat, x: Exec)
    requires ValidEnv(w.env) && exec !in s.execs && Avoids(step, exec)
    ensures StepOps(w, WithExec(s, exec, x), step) == StepOps(w, s, step)
  {
    hide FundChannel, ProcessPayment, CooperativeClose, UnilateralClose, CompletionOps, Authentic, Established, ProofsAcceptable, ParamsOk;
  }

  lemma FrameBegin(w: World, s: State, e: nat, id: string, exec: nat, x: Exec)
    requires ValidEnv(w.env) && exec !in s.execs && e != exec
    ensures exec !in Next(w, s, Begin(e, id)).execs
    ensures Next(w, WithExec(s, exec, x), Begin(e, id)) == WithExec(Next(w, s, Begin(e, id)), exec, x)
  {
    if e !in s.execs && StateOf(s.books, id) == Some(IsClosing) {
      var y := Exec(id, s.books.closing[id], [], false);
      assert s.execs[exec := x][e := y] == s.execs[e := y][exec := x];
    }
  }

  lemma FrameSubmit(w: World, s: State, e: nat, pick: A.KeysetInfo, nonce: string, exec: nat, x: Exec)
    requires ValidEnv(w.env) && exec !in s.execs && e != exec
    ensures exec !in Next(w, s, Submit(e, pick, nonce)).execs
    ensures Next(w, WithExec(s, exec, x), Submit(e, pick, nonce)) == WithExec(Next(w, s, Submit(e, pick, nonce)), exec, x)
  {
    hide Next, PrepareClose;
    var m := WithExec(s, exec, x);
    if CanSubmit(w, s, e, pick, nonce) {
      SubmitEffect(w, s, e, pick, nonce);
      SubmitEffect(w, m, e, pick, nonce);
      var y := s.execs[e].(attempts := s.execs[e].attempts + [NewAttempt(w, s, e, pick, nonce)], waiting := true);
      assert s.execs[exec := x][e := y] == s.execs[e := y][exec := x];
    } else {
      NoSubmit(w, s, e, pick, nonce);
      NoSubmit(w, m, e, pick, nonce);
    }
  }

  lemma NoSubmit(w: World, s: State, e: nat, pick: A.KeysetInfo, nonce: string)
    requires ValidEnv(w.env) && !CanSubmit(w, s, e, pick, nonce)
    ensures Next(w, s, Submit(e, pick, nonce)) == s
  {
    hide CanSubmit;
  }

  lemma FrameReject(w: World, s: State, e: nat, evidence: MintError, exec: nat, x: Exec)
    requires ValidEnv(w.env) && exec !in s.execs && e != exec
    ensures exec !in Next(w, s, Reject(e, evidence)).execs
    ensures Next(w, WithExec(s, exec, x), Reject(e, evidence)) == WithExec(Next(w, s, Reject(e, evidence)), exec, x)
  {
    if CanReject(s, e, evidence) {
      var y := s.execs[e].(waiting := false);
      assert s.execs[exec := x][e := y] == s.execs[e := y][exec := x];
    }
  }

  lemma FrameEnd(w: World, s: State, step: Step, exec: nat, x: Exec)
    requires ValidEnv(w.env) && exec !in s.execs && (step.Abandon? || step.Finish?) && step.exec != exec
    ensures exec !in Next(w, s, step).execs
    ensures Next(w, WithExec(s, exec, x), step) == WithExec(Next(w, s, step), exec, x)
  {
    hide StepOps;
    FrameOps(w, s, step, exec, x);
    assert s.execs[exec := x] - {step.exec} == (s.execs - {step.exec})[exec := x];
  }

  lemma FrameStep(w: World, s: State, step: Step, exec: nat, x: Exec)
    requires ValidEnv(w.env) && exec !in s.execs && Avoids(step, exec)
    ensures exec !in Next(w, s, step).execs
    ensures Next(w, WithExec(s, exec, x), step) == WithExec(Next(w, s, step), exec, x)
  {
    hide Next;
    if step.Begin? {
      FrameBegin(w, s, step.exec, step.id, exec, x);
    } else if step.Submit? {
      FrameSubmit(w, s, step.exec, step.pick, step.nonce, exec, x);
    } else if step.Reject? {
      FrameReject(w, s, step.exec, step.evidence, exec, x);
    } else if step.Abandon? || step.Finish? {
      FrameEnd(w, s, step, exec, x);
    } else {
      FrameOther(w, s, step, exec, x);
    }
  }

  lemma FrameOther(w: World, s: State, step: Step, exec: nat, x: Exec)
    requires ValidEnv(w.env) && exec !in s.execs
    requires !step.Begin? && !step.Submit? && !step.Reject? && !step.Abandon? && !step.Finish?
    ensures exec !in Next(w, s, step).execs
    ensures Next(w, WithExec(s, exec, x), step) == WithExec(Next(w, s, step), exec, x)
  {
    hide StepOps;
    FrameOps(w, s, step, exec, x);
  }

  lemma {:induction false} FrameRun(w: World, s: State, steps: seq<Step>, exec: nat, x: Exec)
    requires ValidEnv(w.env) && exec !in s.execs && AllAvoid(steps, exec)
    ensures exec !in Run(w, s, steps).execs
    ensures Run(w, WithExec(s, exec, x), steps) == WithExec(Run(w, s, steps), exec, x)
    decreases |steps|
  {
    hide Next, Avoids;
    if steps != [] {
      FrameStep(w, s, steps[0], exec, x);
      FrameRun(w, Next(w, s, steps[0]), steps[1..], exec, x);
    }
  }

  lemma {:induction false} RunConcat(w: World, s: State, a: seq<Step>, b: seq<Step>)
    requires ValidEnv(w.env)
    ensures Run(w, s, a + b) == Run(w, Run(w, s, a), b)
    decreases |a|
  {
    hide Next;
    if a == [] {
      assert a + b == b;
    } else {
      assert (a + b)[1..] == a[1..] + b;
      RunConcat(w, Next(w, s, a[0]), a[1..], b);
    }
  }

  lemma RunOne(w: World, s: State, step: Step)
    requires ValidEnv(w.env)
    ensures Run(w, s, [step]) == Next(w, s, step)
  {
    hide Next;
    assert [step][1..] == [];
    assert Run(w, Next(w, s, step), []) == Next(w, s, step);
  }

  // ------------------------------------------------------------------------
  // The execution follows the protocol
  // ------------------------------------------------------------------------

  ghost predicate ValidCall(c: Call, s: State) {
    && ValidWorld(c.w) && Inv(c.w, s)
    && c.exec !in s.execs
    && StateOf(s.books, c.id) == Some(IsClosing) && c.closing == s.books.closing[c.id]
    && forall i :: AllAvoid(c.script.others(i), c.exec)
  }

  /** The steps lead to the state around the execution, with the execution at the given point. */
  ghost predicate Follows(c: Call, s: State, steps: seq<Step>, w: CloseWorld, x: Exec)
    requires ValidEnv(c.w.env)
  {
    && c.exec !in w.state.execs
    && Run(c.w, s, steps) == WithExec(w.state, c.exec, x)
    && x.id == c.id && x.closing == c.closing
  }

  lemma BeginFollows(c: Call, s: State)
    requires ValidCall(c, s)
    ensures Follows(c, s, [Begin(c.exec, c.id)], CloseWorld(s, 0), Exec(c.id, c.closing, [], false))
  {
    hide Inv, CryptoOk, Next;
    RunOne(c.w, s, Begin(c.exec, c.id));
    BeginEffect(c.w, s, c.exec, c.id);
  }

  /** Whatever others do before a call. */
  lemma OthersFollow(c: Call, s: State, steps: seq<Step>, w: CloseWorld, x: Exec)
    requires ValidCall(c, s) && Follows(c, s, steps, w, x)
    ensures Follows(c, s, steps + c.script.others(w.calls), CloseWorld(Interfered(c, w), w.calls + 1), x)
  {
    hide Inv, CryptoOk, Next, Run, AllAvoid;
    FrameRun(c.w, w.state, c.script.others(w.calls), c.exec, x);
    RunConcat(c.w, s, steps, c.script.others(w.calls));
  }

  /** The invariant holds around the execution, and funding stays as it was when the draft was made. */
  lemma FollowsInv(c: Call, s: State, steps: seq<Step>, w: CloseWorld, x: Exec)
    requires ValidCall(c, s) && Follows(c, s, steps, w, x)
    ensures Inv(c.w, WithExec(w.state, c.exec, x))
    ensures c.id in w.state.books.funding && c.id in s.books.funding && w.state.books.funding[c.id] == s.books.funding[c.id]
  {
    hide Next, AttemptOk, ExecOk, Claimable;
    RunKeeps(c.w, s, steps);
    assert SolventAt(c.w.env, s.books, c.id);
    assert LaterAt(s.books, w.state.books, c.id);
  }

  /** The draft was prepared from the channel's funding, for the payment read at the beginning. */
  ghost predicate GoodDraft(c: Call, f: Funding, d: Draft) {
    && OutputFor(f, d.keyset)
    && d.payment == c.closing.payment
    && PrepareClose(c.w.env.crypto, c.id, d.payment, f, d.keyset, d.nonce) == Ok(d.prepared)
  }

  /** The protocol steps for the mint's reaction. */
  ghost function ReactSteps(c: Call, s: State, a: Attempt, x: Reaction): seq<Step> {
    match x
    case Executes(_) => if CanSettle(s, a) then [Settle(a)] else []
    case Refuses(e) => if PermitsKeysetRetry(e) then [Reject(c.exec, e)] else []
    case Fails(_, executed) => if executed && CanSettle(s, a) then [Settle(a)] else []
  }

  predicate Refusal(outcome: Result<seq<BlindSignature>, MintError>) {
    outcome.Err? && PermitsKeysetRetry(outcome.error)
  }

  /** A submission that has just arrived, and the mint's reaction to it. */
  lemma ReactionFollows(c: Call, s: State, a: Attempt, x: Exec, react: Reaction)
    requires ValidEnv(c.w.env) && c.exec !in s.execs
    requires x.waiting && x.attempts != [] && x.attempts[|x.attempts| - 1] == a
    requires Get(s.spent, a.prepared.id) != Some(Settled(a))
    ensures var (t, outcome) := React(s, a, react);
            && t.execs == s.execs
            && Run(c.w, WithExec(s, c.exec, x), ReactSteps(c, s, a, react))
               == WithExec(t, c.exec, x.(waiting := !Refusal(outcome)))
  {
    hide Next;
    var m, steps := WithExec(s, c.exec, x), ReactSteps(c, s, a, react);
    if steps != [] {
      RunOne(c.w, m, steps[0]);
      assert steps == [steps[0]];
      if react.Refuses? {
        RejectEffect(c.w, m, c.exec, react.evidence);
        assert AfterReject(m, c.exec) == WithExec(React(s, a, react).0, c.exec, x.(waiting := false));
      } else {
        SettleEffect(c.w, m, a);
      }
    }
  }

  lemma RejectEffect(w: World, s: State, exec: nat, evidence: MintError)
    requires ValidEnv(w.env) && CanReject(s, exec, evidence)
    ensures Next(w, s, Reject(exec, evidence)) == AfterReject(s, exec)
  {
  }

  /** A fresh submission has settled nothing yet. */
  lemma FreshIsUnsettled(c: Call, s: State, x: Exec, a: Attempt)
    requires ValidEnv(c.w.env) && Inv(c.w, WithExec(s, c.exec, x)) && a.serial == s.sent
    ensures Get(s.spent, a.prepared.id) != Some(Settled(a))
  {
    hide AttemptOk, ExecOk, ClosedOk, Solvent;
    assert SpentOk(WithExec(s, c.exec, x), a.prepared.id);
  }

  /** Submitting a draft is the protocol's Submit. */
  lemma ArrivalFollows(c: Call, s: State, d: Draft, x: Exec)
    requires ValidEnv(c.w.env) && c.exec !in s.execs && !x.waiting && x.id == c.id && x.closing == c.closing
    requires c.id in s.books.funding && GoodDraft(c, s.books.funding[c.id], d)
    ensures Run(c.w, WithExec(s, c.exec, x), [Submit(c.exec, d.keyset, d.nonce)])
         == WithExec(Arrived(s, Sending(s, d)), c.exec, x.(attempts := x.attempts + [Sending(s, d)], waiting := true))
  {
    hide Next, PrepareClose;
    var m := WithExec(s, c.exec, x);
    RunOne(c.w, m, Submit(c.exec, d.keyset, d.nonce));
    SubmitEffect(c.w, m, c.exec, d.keyset, d.nonce);
  }

  lemma SubmissionFollows(c: Call, s: State, steps: seq<Step>, w: CloseWorld, x: Exec, d: Draft) returns (steps': seq<Step>)
    requires ValidCall(c, s) && Follows(c, s, steps, w, x) && !x.waiting
    requires c.id in s.books.funding && GoodDraft(c, s.books.funding[c.id], d)
    ensures var (w', outcome) := Sent(c, w, d);
            Follows(c, s, steps', w',
                    x.(attempts := x.attempts + [Sending(Interfered(c, w), d)], waiting := !Refusal(outcome)))
  {
    hide Inv, CryptoOk, Next, Run, AllAvoid, PrepareClose, Refusal;
    var t := Interfered(c, w);
    var a := Sending(t, d);
    var react := c.script.reaction(w.calls);
    var x' := x.(attempts := x.attempts + [a], waiting := true);
    OthersFollow(c, s, steps, w, x);
    var seen := steps + c.script.others(w.calls);
    FollowsInv(c, s, seen, CloseWorld(t, w.calls + 1), x);
    ArrivalFollows(c, t, d, x);
    FreshIsUnsettled(c, t, x, a);
    ReactionFollows(c, Arrived(t, a), a, x', react);
    var submit := [Submit(c.exec, d.keyset, d.nonce)];
    RunConcat(c.w, s, seen, submit);
    RunConcat(c.w, s, seen + submit, ReactSteps(c, Arrived(t, a), a, react));
    steps' := seen + submit + ReactSteps(c, Arrived(t, a), a, react);
  }

  /** Preparing and submitting for a keyset of the channel's unit. */
  lemma AttemptFollows(c: Call, s: State, steps: seq<Step>, w: CloseWorld, x: Exec, k: A.KeysetInfo) returns (steps': seq<Step>)
    requires ValidCall(c, s) && Follows(c, s, steps, w, x) && !x.waiting
    requires c.id in s.books.funding && OutputFor(s.books.funding[c.id], k)
    ensures var (w', tried) := Attempted(CloseCallbacks(c), w, k);
            match tried {
              case Err(_) => Follows(c, s, steps', w', x)
              case Ok(sub) =>
                Follows(c, s, steps', w', x.(attempts := x.attempts + [AttemptOf(c, sub)], waiting := !Refusal(sub.outcome)))
            }
  {
    hide Inv, CryptoOk, Next, Run, AllAvoid, PrepareClose, Refusal, React;
    OthersFollow(c, s, steps, w, x);
    steps' := steps + c.script.others(w.calls);
    var (w1, drafted) := Drafted(c, w, k);
    FollowsInv(c, s, steps', w1, x);
    if drafted.Ok? {
      steps' := SubmissionFollows(c, s, steps', w1, x, drafted.value);
    }
  }

  lemma SelectionFollows(c: Call, s: State, steps: seq<Step>, w: CloseWorld, x: Exec)
    requires ValidCall(c, s) && Follows(c, s, steps, w, x)
    ensures var (w', selected) := Selected(c, w);
            && Follows(c, s, steps + c.script.others(w.calls), w', x)
            && c.id in s.books.funding
            && (selected.Ok? ==> OutputFor(s.books.funding[c.id], selected.value))
  {
    hide Inv, CryptoOk, Next, Run, AllAvoid;
    OthersFollow(c, s, steps, w, x);
    FollowsInv(c, s, steps + c.script.others(w.calls), Selected(c, w).0, x);
  }

  ghost function AttemptsOf(c: Call, log: seq<CloseSubmission>): (r: seq<Attempt>)
    ensures |r| == |log|
  {
    seq(|log|, i requires 0 <= i < |log| => AttemptOf(c, log[i]))
  }

  /** The execution, with these submissions behind it. */
  ghost function ExecAt(c: Call, log: seq<CloseSubmission>): Exec {
    Exec(c.id, c.closing, AttemptsOf(c, log), log != [] && !Refusal(log[|log| - 1].outcome))
  }

  /** The execution up to its first submission. */
  lemma FirstFollows(c: Call, s: State) returns (steps: seq<Step>)
    requires ValidCall(c, s)
    ensures var w0 := CloseWorld(s, 0); var cb := CloseCallbacks(c);
            var (w1, selected) := cb.select(w0);
            if selected.Err? then Follows(c, s, steps, w1, ExecAt(c, []))
            else
              var (w2, tried) := Attempted(cb, w1, selected.value);
              Follows(c, s, steps, w2, ExecAt(c, if tried.Ok? then [tried.value] else []))
  {
    hide Inv, CryptoOk, Next, Run, AllAvoid, Selected, Drafted, Sent, Interfered, AttemptOf, Follows;
    var cb, w, x := CloseCallbacks(c), CloseWorld(s, 0), Exec(c.id, c.closing, [], false);
    BeginFollows(c, s);
    assert AttemptsOf(c, []) == [];
    steps := [Begin(c.exec, c.id)];
    SelectionFollows(c, s, steps, w, x);
    steps := steps + c.script.others(0);
    var (w1, selected) := cb.select(w);
    if selected.Ok? {
      steps := AttemptFollows(c, s, steps, w1, x, selected.value);
      var (w2, tried) := Attempted(cb, w1, selected.value);
      if tried.Ok? {
        assert ExecAt(c, [tried.value]).attempts == [] + [AttemptOf(c, tried.value)];
      }
    }
  }

  /** The retry helper's submissions are a run of the protocol: begin, submit, and after a refusal submit again. */
  lemma SubmissionsFollow(c: Call, s: State) returns (steps: seq<Step>)
    requires ValidCall(c, s)
    ensures Follows(c, s, steps, Submissions(c, s).world, ExecAt(c, Submissions(c, s).log))
  {
    hide Inv, CryptoOk, Next, Run, AllAvoid, Selected, Drafted, Sent, Interfered, AttemptOf, Follows;
    var cb, w := CloseCallbacks(c), CloseWorld(s, 0);
    steps := FirstFollows(c, s);
    var (w1, selected) := cb.select(w);
    if selected.Ok? {
      var (w2, tried) := Attempted(cb, w1, selected.value);
      if tried.Ok? && Refusal(tried.value.outcome) {
        steps := AgainFollows(c, s, steps, w2, tried.value);
      }
    }
  }

  lemma AgainFollows(c: Call, s: State, before: seq<Step>, w: CloseWorld, first: CloseSubmission) returns (steps: seq<Step>)
    requires ValidCall(c, s) && Refusal(first.outcome) && Follows(c, s, before, w, ExecAt(c, [first]))
    ensures var e := Again(CloseCallbacks(c), w, first);
            Follows(c, s, steps, e.world, ExecAt(c, e.log))
  {
    hide Inv, CryptoOk, Next, Run, AllAvoid, Selected, Drafted, Sent, Interfered, AttemptOf, Follows;
    var cb, x := CloseCallbacks(c), ExecAt(c, [first]);
    OthersFollow(c, s, before, w, x);
    steps := before + c.script.others(w.calls);
    var (w1, _) := cb.refresh(w);
    SelectionFollows(c, s, steps, w1, x);
    steps := steps + c.script.others(w1.calls);
    var (w2, selected) := cb.select(w1);
    if selected.Ok? && selected.value.id != first.keyset.id {
      steps := AttemptFollows(c, s, steps, w2, x, selected.value);
      var (w3, tried) := Attempted(cb, w2, selected.value);
      if tried.Ok? {
        assert AttemptsOf(c, [first, tried.value]) == AttemptsOf(c, [first]) + [AttemptOf(c, tried.value)];
      }
    }
  }

  // ------------------------------------------------------------------------
  // Main results about an execution
  // ------------------------------------------------------------------------

  lemma AbandonEffect(w: World, s: State, exec: nat, x: Exec)
    requires ValidEnv(w.env) && exec !in s.execs
    ensures Run(w, WithExec(s, exec, x), [Abandon(exec)]) == s
  {
    RunOne(w, WithExec(s, exec, x), Abandon(exec));
    assert s.execs[exec := x] - {exec} == s.execs;
  }

  lemma FinishStep(w: World, s: State, exec: nat, x: Exec, sigs: seq<BlindSignature>)
    requires ValidEnv(w.env) && exec !in s.execs && Answered(WithExec(s, exec, x), exec)
    ensures Run(w, WithExec(s, exec, x), [Finish(exec, sigs)])
         == s.(books := ApplyAll(s.books, CompletionOps(w, s.books, x.attempts[|x.attempts| - 1].prepared, sigs)))
  {
    hide CompletionOps;
    RunOne(w, WithExec(s, exec, x), Finish(exec, sigs));
    assert s.execs[exec := x] - {exec} == s.execs;
  }

  /** The state in which an execution selects again after its first submission and the refresh. */
  ghost function Reselecting(c: Call, first: CloseSubmission): CloseWorld {
    var refreshed := CloseWorld(Interfered(c, first.after), first.after.calls + 1);
    CloseWorld(Interfered(c, refreshed), refreshed.calls)
  }

  /** The offered keyset is usable for the channel, and its outputs can carry the funding. */
  ghost predicate CanCarry(c: Call, s: State, w: CloseWorld) {
    var pick := c.script.pick(w.calls);
    && pick.Some? && c.id in s.books.funding
    && var f := s.books.funding[c.id];
    && UsableKeyset(w.state.keysets, c.script.now(w.calls), f, pick.value)
    && A.Forward(f.params.fundingAmount, f.params.maxOutput, pick.value).Ok?
  }

  /** Drafting for a valid keyset succeeds exactly when the keyset can carry the funding. */
  lemma DraftsIff(c: Call, s: State, steps: seq<Step>, w: CloseWorld, x: Exec, k: A.KeysetInfo)
    requires ValidCall(c, s) && Follows(c, s, steps, w, x) && A.ValidKeyset(k)
    ensures c.id in s.books.funding
    ensures var f := s.books.funding[c.id];
            Drafted(c, w, k).1.Ok? <==> A.Forward(f.params.fundingAmount, f.params.maxOutput, k).Ok?
  {
    hide Inv, CryptoOk, Next, Run, AllAvoid, PrepareClose;
    OthersFollow(c, s, steps, w, x);
    FollowsInv(c, s, steps + c.script.others(w.calls), CloseWorld(Interfered(c, w), w.calls + 1), x);
    ClosingCanBePrepared(c.w, s, c.id, k, c.script.nonce(w.calls));
  }

  /** Selecting, and then drafting, succeed together exactly for an offered keyset that can carry the funding. */
  lemma OfferedIff(c: Call, s: State, steps: seq<Step>, w: CloseWorld, x: Exec)
    requires ValidCall(c, s) && Follows(c, s, steps, w, x)
    ensures var (w', selected) := Selected(c, w);
            var offered := CanCarry(c, s, CloseWorld(Interfered(c, w), w.calls));
            && (selected.Ok? && Drafted(c, w', selected.value).1.Ok? <==> offered)
            && (selected.Ok? ==> c.script.pick(w.calls) == Some(selected.value))
  {
    hide Inv, CryptoOk, Next, Run, AllAvoid, PrepareClose, Drafted, Follows;
    SelectionFollows(c, s, steps, w, x);
    FollowsFunding(c, s, steps + c.script.others(w.calls), Selected(c, w).0, x);
    if Selected(c, w).1.Ok? {
      DraftsIff(c, s, steps + c.script.others(w.calls), Selected(c, w).0, x, Selected(c, w).1.value);
    }
  }

  lemma FollowsFunding(c: Call, s: State, steps: seq<Step>, w: CloseWorld, x: Exec)
    requires ValidCall(c, s) && Follows(c, s, steps, w, x)
    ensures c.id in w.state.books.funding && c.id in s.books.funding && w.state.books.funding[c.id] == s.books.funding[c.id]
  {
    FollowsInv(c, s, steps, w, x);
  }

  /** After a first submission, an execution selects again in the state the refresh left. */
  lemma ReofferedIff(c: Call, s: State)
    requires ValidCall(c, s) && Submissions(c, s).log != []
    ensures var first := Submissions(c, s).log[0]; var cb := CloseCallbacks(c);
            var (w, selected) := cb.select(cb.refresh(first.after).0);
            var again := Reselecting(c, first);
            && (selected.Ok? && cb.prepare(w, selected.value).1.Ok? <==> CanCarry(c, s, again))
            && (selected.Ok? ==> c.script.pick(again.calls) == Some(selected.value))
  {
    hide Inv, CryptoOk, Next, Run, AllAvoid, Selected, Drafted, Sent, Interfered, AttemptOf, Follows, WithRetry, CanCarry;
    var first := Submissions(c, s).log[0];
    var steps := FirstFollows(c, s);
    FirstIsAttempted(CloseCallbacks(c), CloseWorld(s, 0));
    assert Follows(c, s, steps, first.after, ExecAt(c, [first]));
    OthersFollow(c, s, steps, first.after, ExecAt(c, [first]));
    OfferedIff(c, s, steps + c.script.others(first.after.calls), CloseCallbacks(c).refresh(first.after).0, ExecAt(c, [first]));
  }

  /**
   Exactly when an execution submits, and submits again.  A first submission is made for
   the keyset offered at the start, if that is usable and can carry the funding.  A refusal
   that permits it is followed by a second one exactly when, after the refresh, another
   keyset is offered that is usable and can carry the funding; it is made for that keyset.
   */
  lemma ExecutionRetriesIff(c: Call, s: State)
    requires ValidCall(c, s)
    ensures var e := Submissions(c, s);
            && (e.log != [] <==> CanCarry(c, s, CloseWorld(Interfered(c, CloseWorld(s, 0)), 0)))
            && (e.log != [] ==>
                  var first := e.log[0];
                  var again := Reselecting(c, first);
                  && c.script.pick(0) == Some(first.keyset)
                  && (|e.log| == 2 <==>
                        && Refusal(first.outcome)
                        && CanCarry(c, s, again) && c.script.pick(again.calls).value.id != first.keyset.id)
                  && (|e.log| == 2 ==> c.script.pick(again.calls) == Some(e.log[1].keyset)))
  {
    hide Inv, CryptoOk, Next, Run, AllAvoid, Selected, Drafted, Sent, Interfered, AttemptOf, Follows, Reselecting, WithRetry;
    var cb, e, w := CloseCallbacks(c), Submissions(c, s), CloseWorld(s, 0);
    RetriesIff(cb, w);
    BeginFollows(c, s);
    OfferedIff(c, s, [Begin(c.exec, c.id)], w, Exec(c.id, c.closing, [], false));
    var (w1, selected) := cb.select(w);
    assert (w1, selected) == Selected(c, w);
    if selected.Ok? {
      assert cb.prepare(w1, selected.value) == Drafted(c, w1, selected.value);
    }
    if e.log != [] {
      ReofferedIff(c, s);
    }
  }

  /** A success reply came from a submission that settled the channel. */
  lemma SuccessIsSettled(c: Call, s: State)
    requires ValidCall(c, s) && Submissions(c, s).result.Ok?
    ensures var e := Submissions(c, s);
            && e.log != []
            && var last := e.log[|e.log| - 1];
            && last.outcome == Ok(e.result.value.value) && last.attempt == e.result.value.attempt
            && Get(e.world.state.spent, last.attempt.prepared.id) == Some(Settled(AttemptOf(c, last)))
  {
    hide Inv, CryptoOk, Run, AllAvoid, Selected, Drafted, Interfered, CanSettle, PermitsKeysetRetry;
    RetryIsBounded(CloseCallbacks(c), CloseWorld(s, 0));
    var e := Submissions(c, s);
    var last := e.log[|e.log| - 1];
    assert Sent(c, last.before, last.attempt) == (e.world, last.outcome);
  }

  /**
   Whatever others do meanwhile, and however the mint reacts, an execution of a close is a
   run of the protocol.  So the invariant, and every result about reachable states, holds
   after it.
   */
  lemma ExecutionIsARun(c: Call, s: State) returns (steps: seq<Step>)
    requires ValidCall(c, s)
    ensures Run(c.w, s, steps) == ExecuteClose(c, s)
    ensures Inv(c.w, ExecuteClose(c, s))
  {
    steps := SubmissionsFollow(c, s);
    var e := Submissions(c, s);
    var x := ExecAt(c, e.log);
    if e.result.Err? {
      AbandonEffect(c.w, e.world.state, c.exec, x);
      RunConcat(c.w, s, steps, [Abandon(c.exec)]);
      steps := steps + [Abandon(c.exec)];
    } else {
      SuccessIsAnswered(c, s, steps);
      OthersFollow(c, s, steps, e.world, x);
      steps := steps + c.script.others(e.world.calls);
      FinishStep(c.w, Interfered(c, e.world), c.exec, x, e.result.value.value);
      RunConcat(c.w, s, steps, [Finish(c.exec, e.result.value.value)]);
      steps := steps + [Finish(c.exec, e.result.value.value)];
    }
    RunKeeps(c.w, s, steps);
  }

  /** What the invariant says about each submission of an execution. */
  lemma SubmissionFacts(c: Call, s: State, steps: seq<Step>, w: CloseWorld, log: seq<CloseSubmission>, i: nat)
    requires ValidCall(c, s) && Follows(c, s, steps, w, ExecAt(c, log)) && i < |log|
    ensures var a := AttemptOf(c, log[i]);
            && a.payment == c.closing.payment && a.prepared.id == c.id
            && (i + 1 < |log| ==> a.serial in w.state.refused)
  {
    hide Next, Run, CryptoOk, AllAvoid, AttemptOk, Claimable, Refusal, Interfered;
    var x := ExecAt(c, log);
    FollowsInv(c, s, steps, w, x);
    var m := WithExec(w.state, c.exec, x);
    assert ExecOk(c.w, m, m.execs[c.exec]);
    assert x.attempts[i] == AttemptOf(c, log[i]);
  }

  lemma SuccessIsAnswered(c: Call, s: State, steps: seq<Step>)
    requires ValidCall(c, s) && Submissions(c, s).result.Ok?
    requires Follows(c, s, steps, Submissions(c, s).world, ExecAt(c, Submissions(c, s).log))
    ensures var e := Submissions(c, s);
            var x := ExecAt(c, e.log);
            && Answered(WithExec(Interfered(c, e.world), c.exec, x), c.exec)
            && x.attempts[|x.attempts| - 1].prepared == e.result.value.attempt.prepared
  {
    hide Inv, Next, Run, CryptoOk, AllAvoid, Selected, Drafted, Sent, Submissions, Follows;
    var e := Submissions(c, s);
    var n := |e.log| - 1;
    SuccessIsSettled(c, s);
    SubmissionFacts(c, s, steps, e.world, e.log, n);
    assert ExecAt(c, e.log).attempts[n] == AttemptOf(c, e.log[n]);
    SpentIsFinal(c.w, e.world.state, c.script.others(e.world.calls), c.id);
  }

  /**
   From the retry helper's own loop: an execution submits at most twice; every submission
   carries the balance and signature read at the beginning; the second is made only after
   a keyset rejection that permits it, for another output keyset, and the first will never
   be executed.
   */
  lemma ExecutionSubmitsAtMostTwice(c: Call, s: State)
    requires ValidCall(c, s)
    ensures var e := Submissions(c, s);
            && |e.log| <= 2
            && (forall i | 0 <= i < |e.log| :: AttemptOf(c, e.log[i]).payment == c.closing.payment)
            && (|e.log| == 2 ==>
                  && e.log[0].outcome.Err? && PermitsKeysetRetry(e.log[0].outcome.error)
                  && e.log[0].keyset.id != e.log[1].keyset.id
                  && AttemptOf(c, e.log[0]).serial in e.world.state.refused)
  {
    hide Inv, CryptoOk, AllAvoid, Selected, Drafted, Sent, Follows, AttemptOf;
    var cb, e := CloseCallbacks(c), Submissions(c, s);
    RetryIsBounded(cb, CloseWorld(s, 0));
    hide Submissions;
    var steps := SubmissionsFollow(c, s);
    forall i | 0 <= i < |e.log|
      ensures AttemptOf(c, e.log[i]).payment == c.closing.payment
      ensures i + 1 < |e.log| ==> AttemptOf(c, e.log[i]).serial in e.world.state.refused
    {
      SubmissionFacts(c, s, steps, e.world, e.log, i);
    }
  }
}
