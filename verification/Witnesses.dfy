/**
 Concrete runs of the receiver: one channel of capacity one, funded with one proof, at a
 mint whose keyset has the single denomination one and charges nothing.  They show that the
 conditions found in Settlement separate runs that exist.
 */
module Witnesses {
  import opened Wrappers
  import opened Channel
  import A = Amounts
  import opened Pricing
  import opened Stores
  import opened Restore
  import opened Completion
  import opened CloseRequest
  import opened CloseCompletion
  import opened Receiver
  import opened CloseProtocol
  import opened Settlement

  const ID := "id"

  function UnitKeyset(): A.KeysetInfo {
    A.KeysetInfo("k", "sat", map[1 := "key"], [1], 0, None)
  }

  /** Signatures are their own canonical text and always verify; nothing else matters here. */
  function PlainCrypto(): Crypto {
    Crypto(
      (p: Params, secret: string) => ID,
      (f: Funding, isReceiver: bool, amount: nat, index: nat) => ("", ""),
      (secret: string, blinding: string) => "",
      (secret: string) => "",
      (f: Funding, amount: nat, index: nat) => "",
      (inputs: seq<Proof>, outputs: seq<BlindedMessage>) => "",
      (f: Funding) => "",
      (f: Funding) => "",
      (text: string) => Some(text),
      (key: string, digest: string, signature: string) => true,
      (key: string, digest: string, nonce: string) => "server")
  }

  function PlainEnv(): Env {
    Env(Config("bob", map["m" := {"sat"}], map["sat" := PricingEntry(0, None, map[])], 1, 0),
        PlainCrypto(),
        (receiver: string, sender: string) => Some("secret"),
        (f: Funding) => true)
  }

  function PlainWorld(): World {
    World(PlainEnv(), Dhke(
      (secret: string, blinding: string) => "",
      (s: BlindSignature, key: string, point: string) => true,
      (c: string, blinding: string, key: string) => ""))
  }

  function Cache(): KeysetCache {
    var entry := KeysetEntry(UnitKeyset(), true, "sat");
    map[("m/", "k") := entry, ("m", "k") := entry]
  }

  function OneProof(): seq<Proof> {
    [Proof(1, "k", "", "", None)]
  }

  function ParamsAt(mint: string): Params {
    Params("alice", "bob", mint, "sat", 1, 1, 10, 0, "k")
  }

  function FundingAt(mint: string): Funding {
    Funding(ParamsAt(mint), OneProof(), "secret", UnitKeyset())
  }

  predicate IsMint(mint: string) {
    mint == "m" || mint == "m/"
  }

  // ------------------------------------------------------------------------
  // What the channel can do
  // ------------------------------------------------------------------------

  lemma WorldIsValid()
    ensures ValidWorld(PlainWorld()) && PlainWorld().env == PlainEnv() && PlainEnv().crypto == PlainCrypto()
    ensures ValidEnv(PlainEnv())
  {
  }

  lemma SplitsBelowTwo()
    ensures A.Split(0, 0, [1]) == ([], 0) && A.Split(1, 0, [1]) == ([1], 0)
  {
    A.SplitZero(0, [1]);
    assert [1][1..] == [];
    assert A.Split(0, 0, []) == ([], 0);
    assert A.Repeat(1, 1) == [1] + A.Repeat(1, 0);
    assert A.Repeat(1, 1) + [] == [1];
    A.TakeStep(1, 1, 0, 0, [1]);
  }

  lemma ForwardsBelowTwo()
    ensures A.Forward(0, 0, UnitKeyset()) == Ok(0) && A.Forward(1, 0, UnitKeyset()) == Ok(1)
  {
    SplitsBelowTwo();
    assert A.Sum([1]) == 1 + A.Sum([]);
  }

  lemma TermsAreValid(mint: string)
    ensures ParamsOk(FundingAt(mint)) && Established(FundingAt(mint)) && OutputFor(FundingAt(mint), UnitKeyset())
  {
    ForwardsBelowTwo();
    assert ProofTotal(OneProof()) == 1 + ProofTotal([]);
  }

  lemma AnySignatureVerifies(mint: string, p: Payment)
    requires p.balance <= 1
    ensures SignatureVerifies(PlainEnv(), FundingAt(mint), p)
  {
    TermsAreValid(mint);
    A.EveryBalanceCommitsIff(TermsOf(FundingAt(mint)));
    assert A.ForBalance(p.balance, TermsOf(FundingAt(mint))).Ok?;
  }

  lemma Trimmed()
    ensures TrimSlashes("m") == "m" && TrimSlashes("m/") == "m" && TrimSuffix("m") == "m" && TrimSuffix("m/") == "m"
  {
    assert "m/"[..1] == "m";
  }

  lemma ClosesArePrepared(mint: string, p: Payment, nonce: string)
    requires p.balance <= 1
    ensures PrepareClose(PlainCrypto(), ID, p, FundingAt(mint), UnitKeyset(), nonce).Ok?
  {
    AnySignatureVerifies(mint, p);
    ForwardsBelowTwo();
    PrepareSucceedsIff(PlainCrypto(), ID, p, FundingAt(mint), UnitKeyset(), nonce);
  }

  lemma KeysetIsUsable(mint: string)
    requires IsMint(mint)
    ensures UsableKeyset(Cache(), 0, FundingAt(mint), UnitKeyset())
    ensures MintAndKeysetAcceptable(PlainEnv(), Cache(), mint, "k") && Cache()[(mint, "k")].info == UnitKeyset()
  {
    Trimmed();
  }

  // ------------------------------------------------------------------------
  // Funding and leaving
  // ------------------------------------------------------------------------

  const PAID := Payment(1, "p")

  function Opening(mint: string): Request {
    Request(ID, PAID, Some(Offer(ParamsAt(mint), OneProof())))
  }

  function OpenBooks(mint: string): Books {
    Books(map[ID := FundingAt(mint)], map[ID := PAID], map[], map[], map[])
  }

  function ClosingBooks(mint: string, p: Payment): Books {
    OpenBooks(mint).(closing := map[ID := ClosingData(10, p)])
  }

  lemma OfferIsAccepted(mint: string)
    requires IsMint(mint)
    ensures ValidateNewFunding(PlainEnv(), Cache(), 0, ID, Offer(ParamsAt(mint), OneProof()), PAID) == Ok(FundingAt(mint))
  {
    KeysetIsUsable(mint);
    TermsAreValid(mint);
    AnySignatureVerifies(mint, PAID);
    hide SignatureVerifies, ParamsOk, MintAndKeysetAcceptable, UsableKeyset, Cache;
  }

  lemma FundingOpens(mint: string)
    requires IsMint(mint)
    ensures ApplyAll(EMPTY, FundChannel(PlainEnv(), Cache(), 0, EMPTY, Opening(mint)).ops) == OpenBooks(mint)
  {
    OfferIsAccepted(mint);
    hide ValidateNewFunding, PlainEnv, Cache, FundingAt;
    ApplyTwo(EMPTY, Op.InsertFunding(ID, FundingAt(mint)), Op.UpdateBalance(ID, PAID));
  }

  /** A close at any balance the channel has is prepared; exactly at the amount due also cooperatively. */
  lemma CloseIsAccepted(mint: string, b: Books, p: Payment, exactDue: bool)
    requires IsMint(mint) && p.balance <= 1
    requires Get(b.funding, ID) == Some(FundingAt(mint)) && ID !in b.closed
    requires exactDue ==> p.balance == DueNow(PlainEnv(), b, ID)
    ensures PrepareError(PlainEnv(), Cache(), 0, b, ID, p, exactDue, UnitKeyset(), "n").None?
  {
    KeysetIsUsable(mint);
    TermsAreValid(mint);
    ClosesArePrepared(mint, p, "n");
    hide PrepareClose, ParamsOk, DueNow, MintAndKeysetAcceptable, UsableKeyset, Cache, PlainCrypto;
  }

  /** Closing the books at a balance that is not above the stored one. */
  lemma BooksClose(mint: string, b: Books, p: Payment)
    requires b == OpenBooks(mint) || b == ClosingBooks(mint, PAID)
    requires p.balance <= 1
    ensures ApplyAll(b, ClosingOps(ID, ClosingData(10, p))) == ClosingBooks(mint, p)
  {
    hide FundingAt;
    ApplyTwo(b, Op.UpdateBalance(ID, p), Op.MarkClosing(ID, ClosingData(10, p)));
    assert b.closing[ID := ClosingData(10, p)] == map[ID := ClosingData(10, p)];
  }

  lemma LeavingCloses(mint: string)
    requires IsMint(mint)
    ensures ApplyAll(OpenBooks(mint), UnilateralClose(PlainEnv(), Cache(), 0, OpenBooks(mint), ID, UnitKeyset(), "n").ops)
         == ClosingBooks(mint, PAID)
  {
    CloseIsAccepted(mint, OpenBooks(mint), PAID, false);
    BooksClose(mint, OpenBooks(mint), PAID);
    hide PrepareError, PlainEnv, Cache, UnitKeyset, ApplyAll, ClosingOps;
  }

  function Prelude(mint: string): seq<Step> {
    var entry := KeysetEntry(UnitKeyset(), true, "sat");
    [CacheKeyset("m/", "k", entry), CacheKeyset("m", "k", entry), Fund(0, Opening(mint)), Leave(0, ID, UnitKeyset(), "n")]
  }

  function ClosingState(mint: string): State {
    State(ClosingBooks(mint, PAID), Cache(), map[], 0, {}, {}, map[])
  }

  lemma RunFour(w: World, s: State, a: Step, b: Step, c: Step, d: Step)
    requires ValidEnv(w.env)
    ensures Run(w, s, [a, b, c, d]) == Next(w, Next(w, Next(w, Next(w, s, a), b), c), d)
  {
    hide Next;
    assert [a, b, c, d][1..] == [b, c, d];
    RunThree(w, Next(w, s, a), b, c, d);
  }

  lemma RequestEffect(w: World, s: State, step: Step)
    requires ValidEnv(w.env) && IsRequest(step)
    ensures Next(w, s, step) == s.(books := ApplyAll(s.books, StepOps(w, s, step)))
  {
    hide StepOps;
  }

  lemma LeaveOps(w: World, s: State, id: string, pick: A.KeysetInfo, nonce: string)
    requires ValidEnv(w.env)
    ensures StepOps(w, s, Leave(0, id, pick, nonce)) == UnilateralClose(w.env, s.keysets, 0, s.books, id, pick, nonce).ops
  {
    hide UnilateralClose;
  }

  lemma CooperateOps(w: World, s: State, r: Request, pick: A.KeysetInfo, nonce: string)
    requires ValidEnv(w.env)
    ensures StepOps(w, s, Cooperate(0, r, pick, nonce)) == CooperativeClose(w.env, s.keysets, 0, s.books, r, pick, nonce).ops
  {
    hide CooperativeClose;
  }

  lemma CacheEffect(w: World, s: State, mint: string, id: string, entry: KeysetEntry)
    requires ValidEnv(w.env)
    ensures Next(w, s, CacheKeyset(mint, id, entry)) == s.(keysets := s.keysets[(mint, id) := entry])
  {
  }

  function CachedState(): State {
    INITIAL.(keysets := Cache())
  }

  lemma CachingFills()
    ensures ValidEnv(PlainWorld().env)
    ensures var w, entry := PlainWorld(), KeysetEntry(UnitKeyset(), true, "sat");
            Next(w, Next(w, INITIAL, CacheKeyset("m/", "k", entry)), CacheKeyset("m", "k", entry)) == CachedState()
  {
    WorldIsValid();
    hide Next, PlainWorld, UnitKeyset;
    var w, entry := PlainWorld(), KeysetEntry(UnitKeyset(), true, "sat");
    CacheEffect(w, INITIAL, "m/", "k", entry);
    CacheEffect(w, Next(w, INITIAL, CacheKeyset("m/", "k", entry)), "m", "k", entry);
    assert map[("m/", "k") := entry] + map[("m", "k") := entry] == Cache();
    assert map[("m/", "k") := entry][("m", "k") := entry] == Cache();
  }

  lemma FundStep(mint: string)
    requires IsMint(mint)
    ensures ValidEnv(PlainWorld().env)
    ensures Next(PlainWorld(), CachedState(), Fund(0, Opening(mint))) == CachedState().(books := OpenBooks(mint))
  {
    WorldIsValid();
    FundingOpens(mint);
    hide Next, FundChannel, PlainEnv, PlainWorld, OpenBooks, Opening, Cache;
    RequestEffect(PlainWorld(), CachedState(), Fund(0, Opening(mint)));
  }

  lemma LeaveStep(mint: string, s: State)
    requires IsMint(mint) && s.keysets == Cache() && s.books == OpenBooks(mint)
    ensures ValidEnv(PlainWorld().env)
    ensures Next(PlainWorld(), s, Leave(0, ID, UnitKeyset(), "n")) == s.(books := ClosingBooks(mint, PAID))
  {
    WorldIsValid();
    LeavingCloses(mint);
    hide Next, StepOps, UnilateralClose, PlainEnv, PlainWorld, OpenBooks, ClosingBooks, Cache, UnitKeyset, ApplyAll;
    LeaveOps(PlainWorld(), s, ID, UnitKeyset(), "n");
    RequestEffect(PlainWorld(), s, Leave(0, ID, UnitKeyset(), "n"));
  }

  /** A channel is funded and left: Closing, its funding unspent, whatever the mint's URL ends in. */
  lemma PreludeReachesClosing(mint: string)
    requires IsMint(mint)
    ensures ValidEnv(PlainWorld().env)
    ensures Run(PlainWorld(), INITIAL, Prelude(mint)) == ClosingState(mint)
    ensures Inv(PlainWorld(), ClosingState(mint))
  {
    WorldIsValid();
    ReachableInv(PlainWorld(), Prelude(mint));
    CachingFills();
    FundStep(mint);
    LeaveStep(mint, CachedState().(books := OpenBooks(mint)));
    assert CachedState().(books := ClosingBooks(mint, PAID)) == ClosingState(mint);
    hide Inv, Next, Run, PlainWorld, PlainEnv, Opening, UnitKeyset, ClosingState, CachedState, OpenBooks, ClosingBooks, ValidWorld;
    var entry := KeysetEntry(UnitKeyset(), true, "sat");
    RunFour(PlainWorld(), INITIAL, CacheKeyset("m/", "k", entry), CacheKeyset("m", "k", entry),
            Fund(0, Opening(mint)), Leave(0, ID, UnitKeyset(), "n"));
  }

  // ------------------------------------------------------------------------
  // A close that completes, and one that cannot
  // ------------------------------------------------------------------------

  const REPLY := [BlindSignature(1, "k", "", "")]

  lemma OneOutput(mint: string)
    ensures ParamsOk(FundingAt(mint)) && A.ForBalance(1, TermsOf(FundingAt(mint))) == Ok(A.Commitment([1], []))
    ensures CloseSecrets(PlainCrypto(), FundingAt(mint), A.Commitment([1], [])) == [CloseSecret("", "", 1, 0, true)]
  {
    TermsAreValid(mint);
    SplitsBelowTwo();
    ForwardsBelowTwo();
    var c, f, one := PlainCrypto(), FundingAt(mint), CloseSecret("", "", 1, 0, true);
    assert Reverse([1]) == Reverse([]) + [1];
    assert A.Count([1][..0], 1) == 0 && c.derive(Core(f), true, 1, 0) == ("", "");
    assert PartySecrets(c, f, [1], true) == [PartySecrets(c, f, [1], true)[0]];
    assert PartySecrets(c, f, [1], true)[0] == one;
    assert PartySecrets(c, f, [], false) == [];
    assert AllSecrets(c, f, A.Commitment([1], [])) == [one];
    assert [one][1..] == [];
    assert SortBy([one], SecretAmount) == InsertBy(one, SortBy([], SecretAmount), SecretAmount);
  }

  lemma ReplyIsGood(mint: string)
    ensures GoodReply(PlainWorld(), FundingAt(mint), 1, UnitKeyset(), REPLY)
  {
    OneOutput(mint);
    hide ParamsOk, CloseSecrets, A.ForBalance, FundingAt;
    var keys, one := KeysOf(UnitKeyset()), CloseSecret("", "", 1, 0, true);
    var outputs := PreparedOutputs(PlainCrypto(), "k", [one]);
    assert outputs == [outputs[0]];
    assert MessageTotal(outputs) == 1 + MessageTotal(outputs[1..]) && outputs[1..] == [];
    assert SignatureTotal(REPLY) == 1 + SignatureTotal(REPLY[1..]) && REPLY[1..] == [];
    assert SignaturesOk(REPLY, outputs, keys, PlainWorld().dh);
  }

  lemma RecordedOne(mint: string)
    ensures ParamsOk(FundingAt(mint)) && A.ForBalance(1, TermsOf(FundingAt(mint))).Ok?
    ensures Record(FundingAt(mint), 1) == ClosedData(10, 1, 1, 1, 0)
  {
    OneOutput(mint);
    assert A.Sum([1]) == 1 + A.Sum([]);
  }

  /**
   Two runs that differ in one character.  At mint "m" the channel is funded, left, its
   swap submitted and executed, the reply taken, and the channel recorded as closed.  At
   mint "m/" the same steps leave it Closing, although the mint has executed the swap.
   */
  lemma SlashDecides(mint: string)
    requires IsMint(mint)
    ensures ValidEnv(PlainWorld().env)
    ensures PrepareClose(PlainWorld().env.crypto, ID, PAID, FundingAt(mint), UnitKeyset(), "n").Ok?
    ensures var s := Next(PlainWorld(), Resumed(PlainWorld(), ClosingState(mint), 0, ID, UnitKeyset(), "n"), Finish(0, REPLY));
            if mint == "m" then Get(s.books.closed, ID) == Some(ClosedData(10, 1, 1, 1, 0))
            else s.books == ClosingBooks(mint, PAID)
  {
    WorldIsValid();
    Trimmed();
    TermsAreValid(mint);
    ClosesArePrepared(mint, PAID, "n");
    PreludeReachesClosing(mint);
    ReplyIsGood(mint);
    RecordedOne(mint);
    hide Inv, Next, Resumed, PrepareClose, GoodReply, ParamsOk, Record, ValidWorld, PlainWorld, OutputFor, A.ForBalance;
    ResumeClosesIff(PlainWorld(), ClosingState(mint), 0, ID, UnitKeyset(), "n", REPLY);
  }

  lemma PlainFacts()
    ensures CryptoOk(PlainCrypto()) && CanonicalFormOf(PlainCrypto(), PAID, PAID)
    ensures var f := FundingAt("m");
            && PlainCrypto().channelId(f.params, f.secret) == ID && TrimSlashes(f.params.mint) == f.params.mint
            && f.params.unit == UnitKeyset().unit && f.params.receiver == "bob"
            && f.proofs != [] && Unwitnessed(f.proofs[0]) && A.ValidKeyset(UnitKeyset())
  {
    Trimmed();
  }

  /** The close that was prepared there passes authentication, so that closes to compare exist. */
  lemma CloseIsAuthentic(nonce: string)
    ensures PrepareClose(PlainCrypto(), ID, PAID, FundingAt("m"), UnitKeyset(), "n").Ok?
    ensures A.ValidKeyset(PrepareClose(PlainCrypto(), ID, PAID, FundingAt("m"), UnitKeyset(), "n").value.outputKeyset)
    ensures VerifyPrepared(PlainCrypto(), PrepareClose(PlainCrypto(), ID, PAID, FundingAt("m"), UnitKeyset(), "n").value,
                           FundingAt("m"), PAID, "bob", nonce)
  {
    PlainFacts();
    ClosesArePrepared("m", PAID, "n");
    PreparedIsSigned(PlainCrypto(), ID, PAID, FundingAt("m"), UnitKeyset(), "n");
    hide PrepareClose, VerifyPrepared, SenderSigned, Established, PlainCrypto, FundingAt, UnitKeyset, CryptoOk, CanonicalFormOf, TrimSlashes;
    PreparedCloseAcceptedIff(PlainCrypto(), ID, PAID, PAID, FundingAt("m"), UnitKeyset(), "n", nonce);
  }

  // ------------------------------------------------------------------------
  // Closing data overwritten under a submitted swap
  // ------------------------------------------------------------------------

  const LOWER := Payment(0, "q")

  function LowerClose(): Step {
    Cooperate(0, Request(ID, LOWER, None), UnitKeyset(), "n")
  }

  lemma NothingIsDue(b: Books)
    requires ID in b.funding && b.funding[ID].params.unit == "sat" && ID !in b.usage
    ensures ValidEnv(PlainEnv()) && DueNow(PlainEnv(), b, ID) == 0
  {
    NothingDue(map[], 1);
  }

  lemma CooperatingOverwrites(mint: string)
    requires IsMint(mint)
    ensures ValidEnv(PlainEnv())
    ensures var b := ClosingBooks(mint, PAID);
            ApplyAll(b, CooperativeClose(PlainEnv(), Cache(), 0, b, Request(ID, LOWER, None), UnitKeyset(), "n").ops)
              == ClosingBooks(mint, LOWER)
  {
    var b := ClosingBooks(mint, PAID);
    NothingIsDue(b);
    CloseIsAccepted(mint, b, LOWER, true);
    BooksClose(mint, b, LOWER);
    hide PrepareError, PlainEnv, Cache, UnitKeyset, DueNow, ApplyAll, ClosingOps;
  }

  /** After a unilateral close at one and its submission, a cooperative close at the amount due, zero; then the swap settles. */
  function OverwrittenState(a: Attempt): State {
    State(ClosingBooks("m", LOWER), Cache(), map[0 := Exec(ID, ClosingData(10, PAID), [a], true)], 1, {a}, {}, map[ID := Settled(a)])
  }

  function FirstAttempt(): Attempt
    requires PrepareClose(PlainCrypto(), ID, PAID, FundingAt("m"), UnitKeyset(), "n").Ok?
  {
    Attempt(0, PAID, "n", PrepareClose(PlainCrypto(), ID, PAID, FundingAt("m"), UnitKeyset(), "n").value)
  }

  function BegunState(): State {
    ClosingState("m").(execs := map[0 := Exec(ID, ClosingData(10, PAID), [], false)])
  }

  lemma BegunFacts()
    ensures var s := BegunState();
            && s.execs.Keys == {0} && s.execs[0] == Exec(ID, ClosingData(10, PAID), [], false) && s.sent == 0
            && Get(s.books.funding, ID) == Some(FundingAt("m"))
            && s.books == ClosingBooks("m", PAID) && s.keysets == Cache()
  {
    hide FundingAt, Cache;
  }

  lemma BeginStep()
    ensures ValidEnv(PlainWorld().env)
    ensures Next(PlainWorld(), ClosingState("m"), Begin(0, ID)) == BegunState()
  {
    WorldIsValid();
    hide Next, PlainWorld, PlainEnv, FundingAt, Cache;
    BeginEffect(PlainWorld(), ClosingState("m"), 0, ID);
  }

  lemma SubmitStep()
    ensures ValidEnv(PlainWorld().env)
    ensures PrepareClose(PlainCrypto(), ID, PAID, FundingAt("m"), UnitKeyset(), "n").Ok? && FirstAttempt().prepared.id == ID
    ensures Next(PlainWorld(), BegunState(), Submit(0, UnitKeyset(), "n")) == AfterSubmit(BegunState(), 0, FirstAttempt())
  {
    WorldIsValid();
    TermsAreValid("m");
    ClosesArePrepared("m", PAID, "n");
    PreparedIsSigned(PlainCrypto(), ID, PAID, FundingAt("m"), UnitKeyset(), "n");
    BegunFacts();
    hide Next, PrepareClose, OutputFor, PlainWorld, PlainEnv, PlainCrypto, FundingAt, UnitKeyset, BegunState, ParamsOk, SenderSigned, Established;
    SubmitEffect(PlainWorld(), BegunState(), 0, UnitKeyset(), "n");
  }

  lemma LowerStep(s: State)
    requires s.keysets == Cache() && s.books == ClosingBooks("m", PAID)
    ensures ValidEnv(PlainWorld().env)
    ensures Next(PlainWorld(), s, LowerClose()) == s.(books := ClosingBooks("m", LOWER))
  {
    WorldIsValid();
    CooperatingOverwrites("m");
    hide Next, StepOps, CooperativeClose, PlainWorld, PlainEnv, ClosingBooks, Cache, UnitKeyset, ApplyAll;
    CooperateOps(PlainWorld(), s, Request(ID, LOWER, None), UnitKeyset(), "n");
    RequestEffect(PlainWorld(), s, LowerClose());
  }

  lemma SettleStep(a: Attempt)
    requires a.prepared.id == ID
    ensures ValidEnv(PlainWorld().env)
    ensures Next(PlainWorld(), AfterSubmit(BegunState(), 0, a).(books := ClosingBooks("m", LOWER)), Settle(a)) == OverwrittenState(a)
  {
    WorldIsValid();
    hide Next, PlainWorld, PlainEnv, ClosingBooks, Cache;
    var s := AfterSubmit(BegunState(), 0, a).(books := ClosingBooks("m", LOWER));
    SettleEffect(PlainWorld(), s, a);
    assert [] + [a] == [a] && {} + {a} == {a};
    assert s.execs == map[0 := Exec(ID, ClosingData(10, PAID), [a], true)];
    assert s.spent[ID := Settled(a)] == map[ID := Settled(a)];
  }

  lemma OverwritingRun()
    ensures PrepareClose(PlainCrypto(), ID, PAID, FundingAt("m"), UnitKeyset(), "n").Ok? && ValidEnv(PlainWorld().env)
    ensures var a := FirstAttempt();
            && a.prepared.id == ID
            && Run(PlainWorld(), ClosingState("m"), [Begin(0, ID), Submit(0, UnitKeyset(), "n"), LowerClose(), Settle(a)])
               == OverwrittenState(a)
  {
    SubmitStep();
    BeginStep();
    var a := FirstAttempt();
    LowerStep(AfterSubmit(BegunState(), 0, a));
    SettleStep(a);
    hide Next, Run, PrepareClose, PlainWorld, PlainCrypto, FundingAt, UnitKeyset, ClosingState, BegunState, LowerClose, OverwrittenState, ClosingBooks;
    RunFour(PlainWorld(), ClosingState("m"), Begin(0, ID), Submit(0, UnitKeyset(), "n"), LowerClose(), Settle(a));
  }

  lemma OverwrittenInv()
    ensures PrepareClose(PlainCrypto(), ID, PAID, FundingAt("m"), UnitKeyset(), "n").Ok? && ValidEnv(PlainWorld().env)
    ensures Inv(PlainWorld(), OverwrittenState(FirstAttempt())) && FirstAttempt().prepared.id == ID
  {
    WorldIsValid();
    PreludeReachesClosing("m");
    OverwritingRun();
    hide Inv, Next, Run, PrepareClose, PlainWorld, PlainCrypto, UnitKeyset, ClosingState, FundingAt, OverwrittenState;
    RunKeeps(PlainWorld(), ClosingState("m"), [Begin(0, ID), Submit(0, UnitKeyset(), "n"), LowerClose(), Settle(FirstAttempt())]);
  }

  /** The settled swap cannot be recovered: the closing payment on file is another one. */
  lemma OverwrittenIsNotRecovered(nonce: string)
    ensures PrepareClose(PlainCrypto(), ID, PAID, FundingAt("m"), UnitKeyset(), "n").Ok? && ValidEnv(PlainWorld().env)
    ensures Inv(PlainWorld(), OverwrittenState(FirstAttempt()))
    ensures CanonicalMint(FundingAt("m"))
    ensures !CanRecover(PlainWorld(), OverwrittenState(FirstAttempt()), ID, [FirstAttempt().prepared], nonce)
  {
    Trimmed();
    OverwrittenInv();
    OverwrittenFacts(FirstAttempt());
    hide Inv, PrepareClose, CanRecover, Retained, PlainWorld, PlainCrypto, UnitKeyset, OverwrittenState, StateOf;
    NotRecovered(OverwrittenState(FirstAttempt()), FirstAttempt(), nonce);
  }

  lemma NotRecovered(s: State, a: Attempt, nonce: string)
    requires ValidEnv(PlainWorld().env) && Inv(PlainWorld(), s) && StateOf(s.books, ID) == Some(IsClosing) && Retained(s, ID, [a])
    requires s.books.closing[ID].payment == LOWER && a.payment == PAID
    ensures !CanRecover(PlainWorld(), s, ID, [a.prepared], nonce)
  {
    WorldIsValid();
    hide Inv, CanRecover, Retained, PlainWorld, ValidWorld;
    assert PreparedOf([a]) == [a.prepared];
    OverwrittenBlocksRecovery(PlainWorld(), s, ID, [a], nonce, 0);
  }

  lemma OverwrittenFacts(a: Attempt)
    requires a.prepared.id == ID
    ensures var s := OverwrittenState(a);
            StateOf(s.books, ID) == Some(IsClosing) && Retained(s, ID, [a]) && s.books.closing[ID].payment == LOWER
  {
    hide FundingAt, Cache;
  }
}
