/**
 Every run of the receiver against an unreliable mint (bridge.rs, recovery.rs, host.go):
 channels are funded, paid and closed, close executions read the stored closing data,
 submit a swap, submit again after a keyset rejection, lose replies, crash, resume and
 recover, any number of them at a time, while the mint executes or refuses swaps and the
 sender may reclaim the funding after expiry.  A step that is not enabled changes nothing.
 */
module CloseProtocol {
  import opened Wrappers
  import opened Channel
  import A = Amounts
  import opened Pricing
  import opened Stores
  import opened Restore
  import opened Completion
  import opened CloseRequest
  import opened CloseCompletion
  import opened Receiver
  import opened Lifecycle
  import opened MintOutcome

  /**
   A close swap as sent to the mint.  The serial number tells submissions apart, also of
   equal requests; the nonce is what the receiver's signature was made with.
   */
  datatype Attempt = Attempt(serial: nat, payment: Payment, nonce: string, prepared: PreparedClose)

  /** One call of execute_close_for_closing_channel. */
  datatype Exec = Exec(id: string, closing: ClosingData, attempts: seq<Attempt>, waiting: bool)

  /** What became of a channel's funding at the mint. */
  datatype Spend = Settled(attempt: Attempt) | Refunded

  datatype State = State(
    books: Books,
    keysets: KeysetCache,
    execs: map<nat, Exec>,
    sent: nat,
    submitted: set<Attempt>,
    refused: set<nat>,
    spent: map<string, Spend>)

  const INITIAL := State(EMPTY, map[], map[], 0, {}, {}, map[])

  datatype World = World(env: Env, dh: Dhke)

  ghost predicate ValidWorld(w: World) {
    ValidEnv(w.env) && CryptoOk(w.env.crypto)
  }

  datatype Step =
    | Fund(now: nat, request: Request)
    | Pay(now: nat, request: Request, context: Usage)
    | Cooperate(now: nat, request: Request, pick: A.KeysetInfo, nonce: string)
    | Leave(now: nat, id: string, pick: A.KeysetInfo, nonce: string)
    | CacheKeyset(mint: string, keysetId: string, entry: KeysetEntry)
    | Begin(exec: nat, id: string)
    | Submit(exec: nat, pick: A.KeysetInfo, nonce: string)
    | Reject(exec: nat, evidence: MintError)
    | Abandon(exec: nat)
    | Settle(attempt: Attempt)
    | Refund(id: string)
    | Finish(exec: nat, sigs: seq<BlindSignature>)
    | Recover(id: string, kept: seq<PreparedClose>, nonce: string, sigs: seq<BlindSignature>)

  // ------------------------------------------------------------------------
  // Steps
  // ------------------------------------------------------------------------

  /** A keyset whose outputs a close of the channel may ask for; the cache it came from may be stale. */
  predicate OutputFor(f: Funding, k: A.KeysetInfo) {
    A.ValidKeyset(k) && k.unit == f.params.unit
  }

  ghost predicate CanSubmit(w: World, s: State, exec: nat, pick: A.KeysetInfo, nonce: string) {
    && exec in s.execs && !s.execs[exec].waiting
    && var x := s.execs[exec];
    && x.id in s.books.funding
    && var f := s.books.funding[x.id];
    && OutputFor(f, pick)
    && PrepareClose(w.env.crypto, x.id, x.closing.payment, f, pick, nonce).Ok?
  }

  ghost function NewAttempt(w: World, s: State, exec: nat, pick: A.KeysetInfo, nonce: string): Attempt
    requires CanSubmit(w, s, exec, pick, nonce)
  {
    var x := s.execs[exec];
    Attempt(s.sent, x.closing.payment, nonce,
            PrepareClose(w.env.crypto, x.id, x.closing.payment, s.books.funding[x.id], pick, nonce).value)
  }

  function AfterSubmit(s: State, exec: nat, a: Attempt): State
    requires exec in s.execs
  {
    var x := s.execs[exec];
    s.(execs := s.execs[exec := x.(attempts := x.attempts + [a], waiting := true)],
       sent := s.sent + 1,
       submitted := s.submitted + {a})
  }

  function ClosedDataOf(d: CompletedClose): ClosedData {
    ClosedData(d.expiry, d.balance, d.receiverSum + d.senderSum, d.receiverSum, d.senderSum)
  }

  /** complete_prepared_close, then mark_completed_close: record the close if it completes and the channel is still Closing. */
  ghost function CompletionOps(w: World, b: Books, p: PreparedClose, sigs: seq<BlindSignature>): seq<Op> {
    var completed := CompleteClose(w.env.crypto, w.dh, p, sigs);
    if completed.Ok? && StateOf(b, p.id) == Some(IsClosing) then [Op.MarkClosed(p.id, ClosedDataOf(completed.value))] else []
  }

  /** A keyset rejection reaches the execution: evidence that the mint did not, and will not, execute that submission. */
  predicate CanReject(s: State, exec: nat, evidence: MintError) {
    && PermitsKeysetRetry(evidence)
    && exec in s.execs && s.execs[exec].waiting && s.execs[exec].attempts != []
    && var x := s.execs[exec];
    var a := x.attempts[|x.attempts| - 1];
    Get(s.spent, a.prepared.id) != Some(Settled(a))
  }

  function AfterReject(s: State, exec: nat): State
    requires exec in s.execs && s.execs[exec].attempts != []
  {
    var x := s.execs[exec];
    s.(execs := s.execs[exec := x.(waiting := false)],
       refused := s.refused + {x.attempts[|x.attempts| - 1].serial})
  }

  /** The execution waits for a reply to an attempt that the mint has executed. */
  predicate Answered(s: State, exec: nat) {
    && exec in s.execs && s.execs[exec].waiting && s.execs[exec].attempts != []
    && var x := s.execs[exec];
    && x.id in s.spent
    && s.spent[x.id] == Settled(x.attempts[|x.attempts| - 1])
  }

  function LastAttempt(s: State, exec: nat): Attempt
    requires Answered(s, exec)
  {
    s.execs[exec].attempts[|s.execs[exec].attempts| - 1]
  }

  /** The mint may execute whatever reached it and was not refused, while the funding is unspent. */
  predicate CanSettle(s: State, a: Attempt) {
    a in s.submitted && a.serial !in s.refused && a.prepared.id !in s.spent
  }

  /** recover_close finds the settled swap among the retained ones. */
  predicate CanRecover(w: World, s: State, id: string, kept: seq<PreparedClose>, nonce: string) {
    && StateOf(s.books, id) == Some(IsClosing)
    && id in s.books.funding && id in s.books.closing
    && var f := s.books.funding[id];
    && ParamsOk(f) && w.env.crypto.channelId(f.params, f.secret) == id && f.params.receiver == w.env.cfg.pubkey
    && (forall i | 0 <= i < |kept| :: Authentic(w, kept[i], f, s.books.closing[id].payment, nonce))
    && Established(f) && ProofsAcceptable(w.env, f) && f.proofs != []
    && id in s.spent && s.spent[id].Settled?
    && s.spent[id].attempt.prepared in kept
  }

  predicate Authentic(w: World, p: PreparedClose, f: Funding, payment: Payment, nonce: string) {
    A.ValidKeyset(p.outputKeyset) && VerifyPrepared(w.env.crypto, p, f, payment, f.params.receiver, nonce)
  }

  /** The store operations of a step. */
  ghost function StepOps(w: World, s: State, step: Step): seq<Op>
    requires ValidEnv(w.env)
  {
    match step
    case Fund(now, r) => FundChannel(w.env, s.keysets, now, s.books, r).ops
    case Pay(now, r, context) => ProcessPayment(w.env, s.keysets, now, s.books, r, context).ops
    case Cooperate(now, r, pick, nonce) => CooperativeClose(w.env, s.keysets, now, s.books, r, pick, nonce).ops
    case Leave(now, id, pick, nonce) => UnilateralClose(w.env, s.keysets, now, s.books, id, pick, nonce).ops
    case Finish(exec, sigs) =>
      if Answered(s, exec) then CompletionOps(w, s.books, LastAttempt(s, exec).prepared, sigs) else []
    case Recover(id, kept, nonce, sigs) =>
      if CanRecover(w, s, id, kept, nonce) then CompletionOps(w, s.books, s.spent[id].attempt.prepared, sigs) else []
    case _ => []
  }

  ghost function Next(w: World, s: State, step: Step): State
    requires ValidEnv(w.env)
  {
    match step
    case CacheKeyset(mint, keysetId, entry) => s.(keysets := s.keysets[(mint, keysetId) := entry])
    case Begin(exec, id) =>
      if exec !in s.execs && StateOf(s.books, id) == Some(IsClosing) then
        s.(execs := s.execs[exec := Exec(id, s.books.closing[id], [], false)])
      else s
    case Submit(exec, pick, nonce) =>
      if CanSubmit(w, s, exec, pick, nonce) then
        AfterSubmit(s, exec, NewAttempt(w, s, exec, pick, nonce))
      else s
    case Reject(exec, evidence) => if CanReject(s, exec, evidence) then AfterReject(s, exec) else s
    case Abandon(exec) => s.(execs := s.execs - {exec})
    case Settle(a) =>
      if CanSettle(s, a) then s.(spent := s.spent[a.prepared.id := Settled(a)]) else s
    case Refund(id) => if id in s.spent then s else s.(spent := s.spent[id := Refunded])
    case Finish(exec, sigs) =>
      if Answered(s, exec) then s.(books := ApplyAll(s.books, StepOps(w, s, step)), execs := s.execs - {exec}) else s
    case _ => s.(books := ApplyAll(s.books, StepOps(w, s, step)))
  }

  ghost function Run(w: World, s: State, steps: seq<Step>): State
    requires ValidEnv(w.env)
    decreases |steps|
  {
    if steps == [] then s else Run(w, Next(w, s, steps[0]), steps[1..])
  }

  /** Everything a run has asked of the store, in order. */
  ghost function Log(w: World, s: State, steps: seq<Step>): seq<Op>
    requires ValidEnv(w.env)
    decreases |steps|
  {
    if steps == [] then [] else StepOps(w, s, steps[0]) + Log(w, Next(w, s, steps[0]), steps[1..])
  }

  // ------------------------------------------------------------------------
  // The invariant
  // ------------------------------------------------------------------------

  /** A submitted swap claims a signed balance that covers all that is owed. */
  ghost predicate AttemptOk(w: World, b: Books, a: Attempt)
    requires ValidEnv(w.env)
  {
    var id, out := a.prepared.id, a.prepared.outputKeyset;
    && Claimable(w.env, b, id, a.payment)
    && Settling(b, id)
    && A.ValidKeyset(out) && out.unit == b.funding[id].params.unit
    && PrepareClose(w.env.crypto, id, a.payment, b.funding[id], out, a.nonce) == Ok(a.prepared)
  }

  /** An execution holds to one payment, and submits again only when all it submitted before was refused. */
  ghost predicate ExecOk(w: World, s: State, x: Exec)
    requires ValidEnv(w.env)
  {
    && Claimable(w.env, s.books, x.id, x.closing.payment)
    && Settling(s.books, x.id)
    && (forall i | 0 <= i < |x.attempts| ::
          x.attempts[i] in s.submitted && x.attempts[i].payment == x.closing.payment && x.attempts[i].prepared.id == x.id)
    && (forall i | 0 <= i < |x.attempts| && (i + 1 < |x.attempts| || !x.waiting) :: x.attempts[i].serial in s.refused)
  }

  /** What a close at a balance records. */
  function Record(f: Funding, balance: nat): ClosedData
    requires ParamsOk(f) && A.ForBalance(balance, TermsOf(f)).Ok?
  {
    var k := A.ForBalance(balance, TermsOf(f)).value;
    ClosedData(f.params.expiry, balance, A.Sum(k.receiver) + A.Sum(k.sender), A.Sum(k.receiver), A.Sum(k.sender))
  }

  /** Funding is settled only by a submission for its channel, and by none that was refused. */
  ghost predicate SpentOk(s: State, id: string) {
    id in s.spent && s.spent[id].Settled? ==>
      && s.spent[id].attempt in s.submitted && s.spent[id].attempt.prepared.id == id
      && s.spent[id].attempt.serial !in s.refused
  }

  /** Serial numbers are given out once. */
  ghost predicate SerialsOk(s: State) {
    && (forall a | a in s.submitted :: a.serial < s.sent)
    && (forall a, b | a in s.submitted && b in s.submitted && a.serial == b.serial :: a == b)
    && (forall n | n in s.refused :: n < s.sent)
  }

  /** A closed channel records the balance of the one swap that spent its funding. */
  ghost predicate ClosedOk(s: State, id: string) {
    id in s.books.closed ==>
      && id in s.books.funding && id in s.spent && s.spent[id].Settled?
      && var f, p := s.books.funding[id], s.spent[id].attempt.payment;
      && ParamsOk(f) && A.ForBalance(p.balance, TermsOf(f)).Ok?
      && s.books.closed[id] == Record(f, p.balance)
  }

  ghost predicate Inv(w: World, s: State)
    requires ValidEnv(w.env)
  {
    && Solvent(w.env, s.books)
    && (forall a | a in s.submitted :: AttemptOk(w, s.books, a))
    && (forall e | e in s.execs :: ExecOk(w, s, s.execs[e]))
    && (forall id: string :: SpentOk(s, id))
    && (forall id: string :: ClosedOk(s, id))
    && SerialsOk(s)
  }

  // ------------------------------------------------------------------------
  // Every step keeps it
  // ------------------------------------------------------------------------

  /** A claim on a channel that is settling survives whatever moves the books forward. */
  lemma ClaimSurvives(env: Env, b: Books, b': Books, id: string, p: Payment)
    requires ValidEnv(env) && Later(b, b') && Claimable(env, b, id, p) && Settling(b, id)
    ensures Claimable(env, b', id, p) && Settling(b', id)
    ensures Get(b'.funding, id) == Get(b.funding, id)
  {
    hide SignatureVerifies, PrepareClose, DueNow, ParamsOk;
    assert LaterAt(b, b', id);
    SameDue(env, b, b', id);
    ClaimTransfers(env, b, b', id, p);
  }

  lemma AttemptSurvives(w: World, b: Books, b': Books, a: Attempt)
    requires ValidEnv(w.env) && Later(b, b') && AttemptOk(w, b, a)
    ensures AttemptOk(w, b', a)
  {
    hide SignatureVerifies, PrepareClose, DueNow, ParamsOk;
    ClaimSurvives(w.env, b, b', a.prepared.id, a.payment);
  }

  lemma ExecSurvives(w: World, s: State, s': State, x: Exec)
    requires ValidEnv(w.env) && Later(s.books, s'.books) && ExecOk(w, s, x)
    requires s.submitted <= s'.submitted && s.refused <= s'.refused
    ensures ExecOk(w, s', x)
  {
    hide SignatureVerifies, PrepareClose, DueNow, ParamsOk;
    ClaimSurvives(w.env, s.books, s'.books, x.id, x.closing.payment);
  }

  /** Moving the books forward, without closing anything, keeps the invariant. */
  lemma BooksKeep(w: World, s: State, b': Books)
    requires ValidEnv(w.env) && Inv(w, s)
    requires Solvent(w.env, b') && Later(s.books, b') && b'.closed == s.books.closed
    ensures Inv(w, s.(books := b'))
  {
    hide SignatureVerifies, PrepareClose, DueNow, ParamsOk;
    var s' := s.(books := b');
    forall a | a in s.submitted ensures AttemptOk(w, b', a) {
      AttemptSurvives(w, s.books, b', a);
    }
    forall e | e in s.execs ensures ExecOk(w, s', s.execs[e]) {
      ExecSurvives(w, s, s', s.execs[e]);
    }
    forall id: string ensures SpentOk(s', id) && ClosedOk(s', id) {
      assert SpentOk(s, id) && ClosedOk(s, id) && LaterAt(s.books, b', id);
    }
  }

  predicate IsRequest(step: Step) {
    step.Fund? || step.Pay? || step.Cooperate? || step.Leave?
  }

  lemma RequestOps(w: World, s: State, step: Step)
    requires ValidEnv(w.env) && Inv(w, s) && IsRequest(step)
    ensures Solvent(w.env, ApplyAll(s.books, StepOps(w, s, step)))
    ensures ProperRun(s.books, StepOps(w, s, step)) && ClosesNothing(StepOps(w, s, step))
  {
    var env, ks, b := w.env, s.keysets, s.books;
    match step
    case Fund(now, r) =>
      FundKeepsSolvent(env, ks, now, b, r);
      FundProper(env, ks, now, b, r);
      RequestsCloseNothing(env, ks, now, b, r, map[], A.KeysetInfo("", "", map[], [], 0, None), "");
    case Pay(now, r, context) =>
      PayKeepsSolvent(env, ks, now, b, r, context);
      PayProper(env, ks, now, b, r, context);
      RequestsCloseNothing(env, ks, now, b, r, context, A.KeysetInfo("", "", map[], [], 0, None), "");
    case Cooperate(now, r, pick, nonce) =>
      CooperativeKeepsSolvent(env, ks, now, b, r, pick, nonce);
      CooperativeProper(env, ks, now, b, r, pick, nonce);
      RequestsCloseNothing(env, ks, now, b, r, map[], pick, nonce);
    case Leave(now, id, pick, nonce) =>
      UnilateralKeepsSolvent(env, ks, now, b, id, pick, nonce);
      UnilateralProper(env, ks, now, b, id, pick, nonce);
      RequestsCloseNothing(env, ks, now, b, Request(id, Payment(0, ""), None), map[], pick, nonce);
  }

  lemma RequestKeeps(w: World, s: State, step: Step)
    requires ValidEnv(w.env) && Inv(w, s) && IsRequest(step)
    ensures Inv(w, Next(w, s, step))
  {
    hide Inv, StepOps;
    RequestOps(w, s, step);
    var ops := StepOps(w, s, step);
    ProperRunIsLater(s.books, ops);
    ClosedUntouched(s.books, ops);
    BooksKeep(w, s, ApplyAll(s.books, ops));
  }

  /** Changing executions alone: each that is left must be sound. */
  lemma ExecsKeep(w: World, s: State, execs: map<nat, Exec>)
    requires ValidEnv(w.env) && Inv(w, s) && forall e | e in execs :: ExecOk(w, s, execs[e])
    ensures Inv(w, s.(execs := execs))
  {
    hide SignatureVerifies, PrepareClose, DueNow, ParamsOk;
    var s' := s.(execs := execs);
    forall e | e in execs ensures ExecOk(w, s', execs[e]) {
      assert ExecOk(w, s, execs[e]);
    }
    forall id: string ensures SpentOk(s', id) && ClosedOk(s', id) {
      assert SpentOk(s, id) && ClosedOk(s, id);
    }
  }

  lemma BeginKeeps(w: World, s: State, exec: nat, id: string)
    requires ValidEnv(w.env) && Inv(w, s)
    ensures Inv(w, Next(w, s, Begin(exec, id)))
  {
    hide SignatureVerifies, PrepareClose, DueNow, ParamsOk;
    if exec !in s.execs && StateOf(s.books, id) == Some(IsClosing) {
      assert SolventAt(w.env, s.books, id);
      ExecsKeep(w, s, s.execs[exec := Exec(id, s.books.closing[id], [], false)]);
    }
  }

  lemma AbandonKeeps(w: World, s: State, exec: nat)
    requires ValidEnv(w.env) && Inv(w, s)
    ensures Inv(w, Next(w, s, Abandon(exec)))
  {
    hide Claimable, AttemptOk, SolventAt, ClosedOk, SpentOk;
    ExecsKeep(w, s, s.execs - {exec});
  }

  /** More refusals, of submissions that settled nothing. */
  lemma RefusedKeep(w: World, s: State, a: Attempt)
    requires ValidEnv(w.env) && Inv(w, s) && a in s.submitted && Get(s.spent, a.prepared.id) != Some(Settled(a))
    ensures Inv(w, s.(refused := s.refused + {a.serial}))
  {
    hide Claimable, AttemptOk, SolventAt, Record;
    var s' := s.(refused := s.refused + {a.serial});
    forall e | e in s.execs ensures ExecOk(w, s', s.execs[e]) {
      assert ExecOk(w, s, s.execs[e]);
    }
    forall id: string ensures SpentOk(s', id) && ClosedOk(s', id) {
      assert SpentOk(s, id) && ClosedOk(s, id);
    }
  }

  lemma StoppedExec(w: World, s: State, x: Exec)
    requires ValidEnv(w.env) && ExecOk(w, s, x) && x.attempts != []
    requires x.attempts[|x.attempts| - 1].serial in s.refused
    ensures ExecOk(w, s, x.(waiting := false))
  {
    hide Claimable;
  }

  lemma RejectKeeps(w: World, s: State, exec: nat, evidence: MintError)
    requires ValidEnv(w.env) && Inv(w, s)
    ensures Inv(w, Next(w, s, Reject(exec, evidence)))
  {
    hide Claimable, AttemptOk, Solvent, ClosedOk, SpentOk, SerialsOk;
    if CanReject(s, exec, evidence) {
      var x := s.execs[exec];
      var a := x.attempts[|x.attempts| - 1];
      assert ExecOk(w, s, x);
      RefusedKeep(w, s, a);
      var mid := s.(refused := s.refused + {a.serial});
      assert ExecOk(w, mid, mid.execs[exec]);
      StoppedExec(w, mid, x);
      ExecsKeep(w, mid, s.execs[exec := x.(waiting := false)]);
    }
  }

  /** The swap an execution is about to submit is sound. */
  lemma NewAttemptOk(w: World, s: State, exec: nat, pick: A.KeysetInfo, nonce: string)
    requires ValidEnv(w.env) && Inv(w, s) && CanSubmit(w, s, exec, pick, nonce)
    ensures var a := NewAttempt(w, s, exec, pick, nonce);
            && AttemptOk(w, s.books, a) && exec in s.execs
            && a.payment == s.execs[exec].closing.payment && a.prepared.id == s.execs[exec].id
            && a.serial == s.sent && !s.execs[exec].waiting
  {
    var x := s.execs[exec];
    assert ExecOk(w, s, x);
    PreparedIsSigned(w.env.crypto, x.id, x.closing.payment, s.books.funding[x.id], pick, nonce);
  }

  lemma SubmittedKeep(w: World, s: State, a: Attempt)
    requires ValidEnv(w.env) && Inv(w, s) && AttemptOk(w, s.books, a) && a.serial == s.sent
    ensures Inv(w, s.(sent := s.sent + 1, submitted := s.submitted + {a}))
  {
    hide Claimable, SolventAt, Record, PrepareClose;
    var s' := s.(sent := s.sent + 1, submitted := s.submitted + {a});
    forall e | e in s.execs ensures ExecOk(w, s', s.execs[e]) {
      assert ExecOk(w, s, s.execs[e]);
    }
    forall id: string ensures SpentOk(s', id) && ClosedOk(s', id) {
      assert SpentOk(s, id) && ClosedOk(s, id);
    }
  }

  lemma ExtendedExec(w: World, s: State, x: Exec, a: Attempt)
    requires ValidEnv(w.env) && ExecOk(w, s, x) && !x.waiting
    requires a in s.submitted && a.payment == x.closing.payment && a.prepared.id == x.id
    ensures ExecOk(w, s, x.(attempts := x.attempts + [a], waiting := true))
  {
    hide Claimable;
  }

  lemma AfterSubmitKeeps(w: World, s: State, exec: nat, a: Attempt)
    requires ValidEnv(w.env) && Inv(w, s) && exec in s.execs && !s.execs[exec].waiting
    requires AttemptOk(w, s.books, a) && a.serial == s.sent
    requires a.payment == s.execs[exec].closing.payment && a.prepared.id == s.execs[exec].id
    ensures Inv(w, AfterSubmit(s, exec, a))
  {
    hide Claimable, AttemptOk, Solvent, ClosedOk, SpentOk, SerialsOk;
    SubmittedKeep(w, s, a);
    var mid, x := s.(sent := s.sent + 1, submitted := s.submitted + {a}), s.execs[exec];
    assert ExecOk(w, mid, mid.execs[exec]);
    ExtendedExec(w, mid, x, a);
    ExecsKeep(w, mid, s.execs[exec := x.(attempts := x.attempts + [a], waiting := true)]);
  }

  lemma SubmitKeeps(w: World, s: State, exec: nat, pick: A.KeysetInfo, nonce: string)
    requires ValidEnv(w.env) && Inv(w, s)
    ensures Inv(w, Next(w, s, Submit(exec, pick, nonce)))
  {
    hide Inv, AttemptOk, CanSubmit, NewAttempt, AfterSubmit;
    if CanSubmit(w, s, exec, pick, nonce) {
      NewAttemptOk(w, s, exec, pick, nonce);
      AfterSubmitKeeps(w, s, exec, NewAttempt(w, s, exec, pick, nonce));
    }
  }

  lemma MintKeeps(w: World, s: State, id: string, spend: Spend)
    requires ValidEnv(w.env) && Inv(w, s) && id !in s.spent
    requires spend.Settled? ==>
               spend.attempt in s.submitted && spend.attempt.prepared.id == id && spend.attempt.serial !in s.refused
    ensures Inv(w, s.(spent := s.spent[id := spend]))
  {
    hide SignatureVerifies, PrepareClose, DueNow, ParamsOk;
    var s' := s.(spent := s.spent[id := spend]);
    forall e | e in s.execs ensures ExecOk(w, s', s.execs[e]) {
      assert ExecOk(w, s, s.execs[e]);
    }
    forall i: string ensures SpentOk(s', i) && ClosedOk(s', i) {
      assert SpentOk(s, i) && ClosedOk(s, i);
    }
  }

  // ------------------------------------------------------------------------
  // Completing a close
  // ------------------------------------------------------------------------

  /** The channel an attempt was prepared for is the stored one, and its balance can be committed to. */
  lemma AttemptChannel(w: World, b: Books, a: Attempt)
    requires ValidEnv(w.env) && AttemptOk(w, b, a)
    ensures var f := b.funding[a.prepared.id];
            && ParamsOk(f) && A.ForBalance(a.payment.balance, TermsOf(f)).Ok?
            && a.prepared.balance == a.payment.balance && a.prepared.params == f.params
            && TermsOf(ChannelOf(a.prepared)) == TermsOf(f)
  {
    hide CommitmentRequest, CloseSecrets, DigestOf;
    PreparedIsSigned(w.env.crypto, a.prepared.id, a.payment, b.funding[a.prepared.id], a.prepared.outputKeyset, a.nonce);
  }

  lemma OnlyBoundCompletes(c: Crypto, dh: Dhke, p: PreparedClose, sigs: seq<BlindSignature>)
    requires CompleteClose(c, dh, p, sigs).Ok?
    ensures Bound(c, p)
  {
    hide Bound, CompleteReply;
  }

  /** Whatever the mint's reply, a completed attempt records exactly what its balance commits to. */
  lemma CompletedRecord(w: World, b: Books, a: Attempt, sigs: seq<BlindSignature>)
    requires ValidWorld(w) && AttemptOk(w, b, a)
    requires CompleteClose(w.env.crypto, w.dh, a.prepared, sigs).Ok?
    ensures ParamsOk(b.funding[a.prepared.id]) && A.ForBalance(a.payment.balance, TermsOf(b.funding[a.prepared.id])).Ok?
    ensures ClosedDataOf(CompleteClose(w.env.crypto, w.dh, a.prepared, sigs).value)
         == Record(b.funding[a.prepared.id], a.payment.balance)
  {
    hide PrepareClose, CompleteClose, CompleteReply, Bound, SignatureVerifies, Claimable, ParamsOk;
    AttemptChannel(w, b, a);
    OnlyBoundCompletes(w.env.crypto, w.dh, a.prepared, sigs);
    CompletionIsExact(w.env.crypto, w.dh, a.prepared, sigs);
  }

  lemma MarkClosedEffect(env: Env, b: Books, id: string, data: ClosedData)
    requires ValidEnv(env) && Solvent(env, b) && id in b.closing
    requires DueNow(env, b, id) <= data.amount
    ensures var ops := [Op.MarkClosed(id, data)];
            && ProperRun(b, ops)
            && Solvent(env, ApplyAll(b, ops))
            && ApplyAll(b, ops) == b.(closed := b.closed[id := data], closing := b.closing - {id})
  {
    hide SignatureVerifies, PrepareClose, DueNow, ParamsOk;
    var op := Op.MarkClosed(id, data);
    assert SolventAt(env, b, id);
    assert [op][1..] == [];
    var b' := Apply(b, op);
    assert ApplyAll(b, [op]) == ApplyAll(b', []) && ProperRun(b', []);
    SameDue(env, b, b', id);
    ClaimTransfers(env, b, b', id, b.balance[id]);
    forall i: string ensures SolventAt(env, b', i) {
      if i != id {
        ApplyElsewhere(b, op, i);
        SameSolvent(env, b, b', i);
      }
    }
  }

  lemma CompletionOpsKeep(w: World, s: State, a: Attempt, sigs: seq<BlindSignature>)
    requires ValidWorld(w) && Inv(w, s) && a in s.submitted
    requires Get(s.spent, a.prepared.id) == Some(Settled(a))
    ensures ProperRun(s.books, CompletionOps(w, s.books, a.prepared, sigs))
    ensures Inv(w, s.(books := ApplyAll(s.books, CompletionOps(w, s.books, a.prepared, sigs))))
  {
    var ops := CompletionOps(w, s.books, a.prepared, sigs);
    if ops != [] {
      var id := a.prepared.id;
      assert AttemptOk(w, s.books, a);
      CompletedRecord(w, s.books, a, sigs);
      var data := ClosedDataOf(CompleteClose(w.env.crypto, w.dh, a.prepared, sigs).value);
      MarkClosedEffect(w.env, s.books, id, data);
      ProperRunIsLater(s.books, ops);
      ClosedKeep(w, s, id, data, ApplyAll(s.books, ops));
    }
  }

  /** Recording the settled attempt's close keeps the invariant. */
  lemma ClosedKeep(w: World, s: State, id: string, data: ClosedData, b': Books)
    requires ValidEnv(w.env) && Inv(w, s) && Get(s.spent, id).Some? && s.spent[id].Settled? && id in s.books.funding
    requires Solvent(w.env, b') && Later(s.books, b')
    requires b' == s.books.(closed := s.books.closed[id := data], closing := s.books.closing - {id})
    requires var f, p := s.books.funding[id], s.spent[id].attempt.payment;
             ParamsOk(f) && A.ForBalance(p.balance, TermsOf(f)).Ok? && data == Record(f, p.balance)
    ensures Inv(w, s.(books := b'))
  {
    hide SignatureVerifies, PrepareClose, DueNow, ParamsOk;
    var s' := s.(books := b');
    forall a | a in s.submitted ensures AttemptOk(w, b', a) {
      AttemptSurvives(w, s.books, b', a);
    }
    forall e | e in s.execs ensures ExecOk(w, s', s.execs[e]) {
      ExecSurvives(w, s, s', s.execs[e]);
    }
    forall i: string ensures SpentOk(s', i) && ClosedOk(s', i) {
      assert SpentOk(s, i) && ClosedOk(s, i);
    }
  }

  lemma FinishedState(w: World, s: State, exec: nat, sigs: seq<BlindSignature>)
    requires ValidEnv(w.env) && Answered(s, exec)
    ensures var ops := CompletionOps(w, s.books, LastAttempt(s, exec).prepared, sigs);
            && StepOps(w, s, Finish(exec, sigs)) == ops
            && Next(w, s, Finish(exec, sigs)) == s.(books := ApplyAll(s.books, ops), execs := s.execs - {exec})
  {
    hide CompletionOps;
  }

  lemma FinishKeeps(w: World, s: State, exec: nat, sigs: seq<BlindSignature>)
    requires ValidWorld(w) && Inv(w, s)
    ensures Inv(w, Next(w, s, Finish(exec, sigs)))
    ensures ProperRun(s.books, StepOps(w, s, Finish(exec, sigs)))
  {
    if Answered(s, exec) {
      FinishedState(w, s, exec, sigs);
      hide Next, StepOps, CompletionOps, AttemptOk, Claimable, SolventAt, ClosedOk;
      var a := LastAttempt(s, exec);
      assert ExecOk(w, s, s.execs[exec]);
      CompletionOpsKeep(w, s, a, sigs);
      var mid := s.(books := ApplyAll(s.books, CompletionOps(w, s.books, a.prepared, sigs)));
      ExecsKeep(w, mid, mid.execs - {exec});
    }
  }

  lemma RecoverKeeps(w: World, s: State, id: string, kept: seq<PreparedClose>, nonce: string, sigs: seq<BlindSignature>)
    requires ValidWorld(w) && Inv(w, s)
    ensures Inv(w, Next(w, s, Recover(id, kept, nonce, sigs)))
    ensures ProperRun(s.books, StepOps(w, s, Recover(id, kept, nonce, sigs)))
  {
    hide Claimable, AttemptOk, SolventAt, ClosedOk, CompletionOps, Authentic, ProofsAcceptable, Established, ParamsOk;
    if CanRecover(w, s, id, kept, nonce) {
      assert SpentOk(s, id);
      CompletionOpsKeep(w, s, s.spent[id].attempt, sigs);
    }
  }

  lemma NextKeeps(w: World, s: State, step: Step)
    requires ValidWorld(w) && Inv(w, s)
    ensures Inv(w, Next(w, s, step))
    ensures ProperRun(s.books, StepOps(w, s, step))
    ensures Next(w, s, step).books == ApplyAll(s.books, StepOps(w, s, step))
  {
    hide Inv, FundChannel, ProcessPayment, CooperativeClose, UnilateralClose, CompletionOps, CanRecover, CanSubmit;
    match step
    case Fund(_, _) => RequestKeeps(w, s, step); RequestOps(w, s, step);
    case Pay(_, _, _) => RequestKeeps(w, s, step); RequestOps(w, s, step);
    case Cooperate(_, _, _, _) => RequestKeeps(w, s, step); RequestOps(w, s, step);
    case Leave(_, _, _, _) => RequestKeeps(w, s, step); RequestOps(w, s, step);
    case CacheKeyset(mint, keysetId, entry) => KeysetsKeep(w, s, s.keysets[(mint, keysetId) := entry]);
    case Begin(exec, id) => BeginKeeps(w, s, exec, id);
    case Submit(exec, pick, nonce) => SubmitKeeps(w, s, exec, pick, nonce);
    case Reject(exec, evidence) => RejectKeeps(w, s, exec, evidence);
    case Abandon(exec) => AbandonKeeps(w, s, exec);
    case Settle(a) =>
      if CanSettle(s, a) {
        MintKeeps(w, s, a.prepared.id, Settled(a));
      }
    case Refund(id) =>
      if id !in s.spent {
        MintKeeps(w, s, id, Refunded);
      }
    case Finish(exec, sigs) => FinishKeeps(w, s, exec, sigs);
    case Recover(id, kept, nonce, sigs) => RecoverKeeps(w, s, id, kept, nonce, sigs);
  }

  lemma KeysetsKeep(w: World, s: State, keysets: KeysetCache)
    requires ValidEnv(w.env) && Inv(w, s)
    ensures Inv(w, s.(keysets := keysets))
  {
    hide SignatureVerifies, PrepareClose, DueNow, ParamsOk;
    var s' := s.(keysets := keysets);
    forall e | e in s.execs ensures ExecOk(w, s', s.execs[e]) {
      assert ExecOk(w, s, s.execs[e]);
    }
    forall id: string ensures SpentOk(s', id) && ClosedOk(s', id) {
      assert SpentOk(s, id) && ClosedOk(s, id);
    }
  }

  lemma InitialInv(w: World)
    requires ValidEnv(w.env)
    ensures Inv(w, INITIAL)
  {
  }

  /** The invariant holds in every reachable state, and books only ever move forward. */
  lemma {:induction false} RunKeeps(w: World, s: State, steps: seq<Step>)
    requires ValidWorld(w) && Inv(w, s)
    ensures Inv(w, Run(w, s, steps))
    ensures Later(s.books, Run(w, s, steps).books)
    decreases |steps|
  {
    hide Inv, StepOps, Next;
    if steps != [] {
      var n := Next(w, s, steps[0]);
      NextKeeps(w, s, steps[0]);
      ProperRunIsLater(s.books, StepOps(w, s, steps[0]));
      RunKeeps(w, n, steps[1..]);
      LaterTransitive(s.books, n.books, Run(w, s, steps).books);
    }
  }
}
