/**
 The receiver's host and bridge as they change their stores (integration-kits/go/host.go,
 bridge.rs).  The host's own methods perform their store operations.  The bridge's entry
 points keep every channel covered and only ever move channels forward, and say what an
 accepted and what a refused request leaves behind; their effect is exactly the decision in
 Receiver, so that the results about whole runs are about this object.
 */
module Host {
  import opened Wrappers
  import opened Channel
  import A = Amounts
  import opened Pricing
  import opened Stores
  import opened CloseRequest
  import R = Receiver
  import L = Lifecycle
  import CP = CloseProtocol

  class SpilmanBridge {
    const env: R.Env
    const stores: MemoryStores
    var keysets: R.KeysetCache

    /** What is due on every channel is covered by a balance that the sender signed. */
    ghost predicate Valid()
      reads this, stores
    {
      R.ValidEnv(env) && R.Solvent(env, stores.View())
    }

    constructor (env: R.Env)
      requires R.ValidEnv(env)
      ensures this.env == env && fresh(stores) && stores.View() == EMPTY && keysets == map[]
      ensures Valid()
    {
      this.env := env;
      this.stores := new MemoryStores();
      this.keysets := map[];
    }

    method SetKeyset(mint: string, id: string, entry: R.KeysetEntry)
      requires Valid()
      modifies this`keysets
      ensures Valid() && keysets == old(keysets)[(mint, id) := entry]
    {
      keysets := keysets[(mint, id) := entry];
    }

    method GetAmountDue(id: string, pend: Usage) returns (due: nat)
      requires R.ValidEnv(env)
      ensures due == R.DueWith(env, stores.View(), id, pend)
    {
      if id !in stores.funding {
        return 0;
      }
      var unit := stores.funding[id].params.unit;
      if unit !in env.cfg.pricing {
        return 0;
      }
      var accumulated := if id in stores.usage then stores.usage[id] else map[];
      due := AmountDue(env.cfg.pricing[unit].variables, R.Scale(env.cfg), accumulated, pend);
    }

    method GetChannelState(id: string) returns (state: Option<R.ChannelState>)
      ensures state == R.StateOf(stores.View(), id)
    {
      if id in stores.closed {
        return Some(R.IsClosed);
      }
      if id in stores.closing {
        return Some(R.IsClosing);
      }
      if id !in stores.funding {
        return None;
      }
      return Some(R.IsOpen);
    }

    method SaveFunding(id: string, f: Funding, p: Payment)
      modifies stores
      ensures stores.View() == ApplyAll(old(stores.View()), R.SaveOps(id, f, p))
    {
      R.ApplyTwo(stores.View(), Op.InsertFunding(id, f), Op.UpdateBalance(id, p));
      stores.InsertFunding(id, f);
      stores.UpdateBalance(id, p);
    }

    method RecordPayment(id: string, p: Payment, context: Usage)
      modifies stores
      ensures stores.View() == ApplyAll(old(stores.View()), R.RecordOps(id, p, context))
    {
      R.ApplyTwo(stores.View(), Op.IncrementUsage(id, context), Op.UpdateBalance(id, p));
      stores.IncrementUsage(id, context);
      stores.UpdateBalance(id, p);
    }

    method MarkChannelClosing(id: string, data: ClosingData) returns (ok: bool)
      modifies stores
      ensures ok <==> id !in old(stores.closed)
      ensures stores.View() == ApplyAll(old(stores.View()), if ok then R.ClosingOps(id, data) else [])
    {
      if id in stores.closed {
        return false;
      }
      R.ApplyTwo(stores.View(), Op.UpdateBalance(id, data.payment), Op.MarkClosing(id, data));
      stores.UpdateBalance(id, data.payment);
      stores.MarkClosing(id, data);
      return true;
    }

    /** First use: validate what was offered and save it. */
    method Register(now: nat, r: R.Request, missing: R.BridgeError) returns (error: Option<R.BridgeError>)
      modifies stores
      ensures var d := R.Register(env, keysets, now, r, missing);
              error == d.error && stores.View() == ApplyAll(old(stores.View()), d.ops)
    {
      if r.offer.None? {
        return Some(missing);
      }
      var v := R.ValidateNewFunding(env, keysets, now, r.id, r.offer.value, r.payment);
      if v.Err? {
        return Some(v.error);
      }
      SaveFunding(r.id, v.value, r.payment);
      return None;
    }

    /** fund_channel: the channel is open and the sender signed the balance offered; a refusal leaves the stores alone. */
    method FundChannel(now: nat, r: R.Request) returns (error: Option<R.BridgeError>)
      requires Valid()
      modifies stores
      ensures Valid() && L.Later(old(stores.View()), stores.View())
      ensures error.None? ==>
                && R.StateOf(stores.View(), r.id) == Some(R.IsOpen)
                && r.id in stores.funding && Authorised(env.crypto, stores.funding[r.id], r.payment.balance)
      ensures error.Some? ==> stores.View() == old(stores.View())
      ensures var d := R.FundChannel(env, keysets, now, old(stores.View()), r);
              error == d.error && stores.View() == ApplyAll(old(stores.View()), d.ops)
    {
      ghost var before := stores.View();
      R.FundKeepsSolvent(env, keysets, now, before, r);
      L.FundedIsAuthorised(env, keysets, now, before, r);
      L.FundProper(env, keysets, now, before, r);
      L.ProperRunIsLater(before, R.FundChannel(env, keysets, now, before, r).ops);
      hide R.Solvent, R.SignatureVerifies, R.ValidateNewFunding, Authorised;
      if r.id == "" || r.payment.signature == "" {
        return Some(R.InvalidRequest);
      }
      var state := GetChannelState(r.id);
      match state
      case Some(s) =>
        if s.IsClosed? {
          return Some(R.ChannelClosed);
        } else if s.IsClosing? {
          return Some(R.ChannelClosing);
        } else if !R.SignatureVerifies(env, stores.funding[r.id], r.payment) {
          return Some(R.InvalidSignature);
        }
        return None;
      case None =>
        if r.offer.Some? {
          R.RegisterOpens(env, keysets, now, before, r, R.InvalidRequest);
        }
        error := Register(now, r, R.InvalidRequest);
    }

    method ValidatePayment(id: string, p: Payment, context: Usage) returns (error: Option<R.BridgeError>)
      requires R.ValidEnv(env)
      ensures error == R.ValidatePayment(env, stores.View(), id, p, context)
    {
      if id !in stores.funding {
        return Some(R.UnknownChannel);
      }
      var f := stores.funding[id];
      if p.balance > f.params.capacity {
        return Some(R.BalanceExceedsCapacity(p.balance, f.params.capacity));
      }
      if !R.SignatureVerifies(env, f, p) {
        return Some(R.InvalidSignature);
      }
      var due := GetAmountDue(id, context);
      if p.balance < due {
        return Some(R.InsufficientBalance(p.balance, due));
      }
      return None;
    }

    method Charge(r: R.Request, context: Usage) returns (error: Option<R.BridgeError>)
      requires R.ValidEnv(env)
      modifies stores
      ensures var d := R.Charge(env, old(stores.View()), r, context);
              error == d.error && stores.View() == ApplyAll(old(stores.View()), d.ops)
    {
      error := ValidatePayment(r.id, r.payment, context);
      if error.None? {
        RecordPayment(r.id, r.payment, context);
      }
    }

    /**
     process_payment: an accepted payment leaves the channel open, its usage grown by exactly
     this request and the payment, signed by the sender, covering all that is due; a refused one is not charged,
     and changes nothing about a channel that was known.
     */
    method ProcessPayment(now: nat, r: R.Request, context: Usage) returns (error: Option<R.BridgeError>)
      requires Valid()
      modifies stores
      ensures Valid() && L.Later(old(stores.View()), stores.View())
      ensures error.None? ==> L.Paid(env, old(stores.View()), stores.View(), r, context)
      ensures error.Some? ==> stores.usage == old(stores.usage)
      ensures error.Some? && R.StateOf(old(stores.View()), r.id).Some? ==> stores.View() == old(stores.View())
      ensures var d := R.ProcessPayment(env, keysets, now, old(stores.View()), r, context);
              error == d.error && stores.View() == ApplyAll(old(stores.View()), d.ops)
    {
      ghost var before := stores.View();
      R.PayKeepsSolvent(env, keysets, now, before, r, context);
      L.AcceptedIsPaid(env, keysets, now, before, r, context);
      L.PayProper(env, keysets, now, before, r, context);
      L.ProperRunIsLater(before, R.ProcessPayment(env, keysets, now, before, r, context).ops);
      hide R.Solvent, L.Paid, L.Later;
      if r.id == "" || r.payment.signature == "" {
        return Some(R.InvalidRequest);
      }
      var state := GetChannelState(r.id);
      if state == Some(R.IsClosed) {
        return Some(R.ChannelClosed);
      }
      if state == Some(R.IsClosing) {
        return Some(R.ChannelClosing);
      }
      if state.None? {
        error := Register(now, r, R.UnknownChannel);
        if error.Some? {
          return;
        }
        ghost var first := R.Register(env, keysets, now, r, R.UnknownChannel);
        R.ApplyConcat(before, first.ops, R.Charge(env, stores.View(), r, context).ops);
      }
      error := Charge(r, context);
    }

    /** prepare_close_data for one payment; pick is the keyset the cache yielded. */
    method PrepareCloseData(now: nat, id: string, p: Payment, exactDue: bool, pick: A.KeysetInfo, nonce: string)
      returns (error: Option<R.BridgeError>)
      requires R.ValidEnv(env)
      ensures error == R.PrepareError(env, keysets, now, stores.View(), id, p, exactDue, pick, nonce)
    {
      var state := GetChannelState(id);
      if state == Some(R.IsClosed) {
        return Some(R.ChannelClosed);
      }
      if id !in stores.funding {
        return Some(R.UnknownChannel);
      }
      var f := stores.funding[id];
      if !ParamsOk(f) || !R.UsableKeyset(keysets, now, f, pick) {
        return Some(R.Internal);
      }
      if p.balance > f.params.capacity {
        return Some(R.BalanceExceedsCapacity(p.balance, f.params.capacity));
      }
      var due := GetAmountDue(id, map[]);
      if exactDue && p.balance != due {
        return Some(R.BalanceMismatch(due, p.balance));
      }
      var prepared := PrepareClose(env.crypto, id, p, f, pick, nonce);
      if prepared.Err? {
        return Some(if SenderSigned(env.crypto, f, p) then R.Internal else R.InvalidSignature);
      }
      return None;
    }

    method MarkClosingFor(now: nat, id: string, p: Payment, exactDue: bool, pick: A.KeysetInfo, nonce: string)
      returns (error: Option<R.BridgeError>)
      requires R.ValidEnv(env)
      modifies stores
      ensures var d := R.MarkClosingDecision(env, keysets, now, old(stores.View()), id, p, exactDue, pick, nonce);
              error == d.error && stores.View() == ApplyAll(old(stores.View()), d.ops)
    {
      error := PrepareCloseData(now, id, p, exactDue, pick, nonce);
      if error.None? {
        var _ := MarkChannelClosing(id, ClosingData(stores.funding[id].params.expiry, p));
      }
    }

    /**
     Cooperative close up to the durable Closing state: accepted at exactly the amount due,
     with the signed payment on file; a refusal changes nothing about a known channel.
     */
    method CooperativeClose(now: nat, r: R.Request, pick: A.KeysetInfo, nonce: string) returns (error: Option<R.BridgeError>)
      requires Valid()
      modifies stores
      ensures Valid() && L.Later(old(stores.View()), stores.View())
      ensures error.None? ==>
                L.ClosesAt(env, stores.View(), r.id, r.payment) && R.DueNow(env, stores.View(), r.id) == r.payment.balance
      ensures error.Some? && R.StateOf(old(stores.View()), r.id).Some? ==> stores.View() == old(stores.View())
      ensures var d := R.CooperativeClose(env, keysets, now, old(stores.View()), r, pick, nonce);
              error == d.error && stores.View() == ApplyAll(old(stores.View()), d.ops)
    {
      ghost var before := stores.View();
      R.CooperativeKeepsSolvent(env, keysets, now, before, r, pick, nonce);
      L.CooperationCloses(env, keysets, now, before, r, pick, nonce);
      L.CooperativeProper(env, keysets, now, before, r, pick, nonce);
      L.ProperRunIsLater(before, R.CooperativeClose(env, keysets, now, before, r, pick, nonce).ops);
      hide R.Solvent, L.ClosesAt, L.Later;
      if r.id == "" || r.payment.signature == "" {
        return Some(R.InvalidRequest);
      }
      var state := GetChannelState(r.id);
      if state.None? && r.offer.Some? {
        error := Register(now, r, R.UnknownChannel);
        if error.Some? {
          return;
        }
        ghost var first := R.Register(env, keysets, now, r, R.UnknownChannel);
        R.ApplyConcat(before, first.ops,
                      R.MarkClosingDecision(env, keysets, now, stores.View(), r.id, r.payment, true, pick, nonce).ops);
      }
      error := MarkClosingFor(now, r.id, r.payment, true, pick, nonce);
    }

    /** Unilateral close up to the durable Closing state: at the stored balance, which covers what is due. */
    method UnilateralClose(now: nat, id: string, pick: A.KeysetInfo, nonce: string) returns (error: Option<R.BridgeError>)
      requires Valid()
      modifies stores
      ensures Valid() && L.Later(old(stores.View()), stores.View())
      ensures error.None? ==> id in old(stores.balance) && L.ClosesAt(env, stores.View(), id, old(stores.balance)[id])
      ensures error.Some? ==> stores.View() == old(stores.View())
      ensures var d := R.UnilateralClose(env, keysets, now, old(stores.View()), id, pick, nonce);
              error == d.error && stores.View() == ApplyAll(old(stores.View()), d.ops)
    {
      ghost var before := stores.View();
      R.UnilateralKeepsSolvent(env, keysets, now, before, id, pick, nonce);
      L.UnilateralCloses(env, keysets, now, before, id, pick, nonce);
      L.UnilateralProper(env, keysets, now, before, id, pick, nonce);
      L.ProperRunIsLater(before, R.UnilateralClose(env, keysets, now, before, id, pick, nonce).ops);
      hide R.Solvent, L.ClosesAt, L.Later;
      if id !in stores.funding {
        return Some(R.UnknownChannel);
      }
      if id !in stores.balance {
        return Some(R.InvalidRequest);
      }
      error := MarkClosingFor(now, id, stores.balance[id], false, pick, nonce);
    }

    /** mark_completed_close: only a channel that is still Closing becomes Closed, and a record that covers what is due keeps it covered. */
    method MarkCompletedClose(id: string, data: ClosedData) returns (ok: bool)
      requires Valid()
      modifies stores
      ensures ok <==> R.StateOf(old(stores.View()), id) == Some(R.IsClosing)
      ensures stores.View() == if ok then Apply(old(stores.View()), Op.MarkClosed(id, data)) else old(stores.View())
      ensures ok ==> R.StateOf(stores.View(), id) == Some(R.IsClosed) && stores.closed[id] == data
      ensures L.Later(old(stores.View()), stores.View())
      ensures R.DueNow(env, old(stores.View()), id) <= data.amount ==> Valid()
    {
      ghost var before := stores.View();
      var state := GetChannelState(id);
      if state != Some(R.IsClosing) {
        return false;
      }
      assert R.SolventAt(env, before, id);
      hide R.Solvent, L.Later, R.DueNow;
      L.ProperIsLater(before, Op.MarkClosed(id, data));
      if R.DueNow(env, before, id) <= data.amount {
        CP.MarkClosedEffect(env, before, id, data);
      }
      stores.MarkClosed(id, data);
      return true;
    }
  }
}
