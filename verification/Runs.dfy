/** Whole runs: safety in every reachable state, and progress from every reachable state. */
module Runs {
  import opened Bits
  import opened Results
  import opened Draw
  import opened Protocol
  import opened Invariant
  import opened Preserve

  /** Any sequence of instructions, failing ones included. Every state on the way keeps `Inv`. */
  ghost function Run(s: State, ixs: seq<Instruction>): (end: State)
    requires Inv(s)
    ensures Inv(end)
    decreases |ixs|
  {
    InvShaped(s);
    ApplyKeepsInv(s, if ixs == [] then Advance(s.slot) else ixs[0]);
    if ixs == [] then s else Run(Step(s, ixs[0]), ixs[1..])
  }

  /** Every instruction of the run succeeds. */
  ghost predicate AllSucceed(s: State, ixs: seq<Instruction>)
    requires Inv(s)
    decreases |ixs|
  {
    InvShaped(s);
    ApplyKeepsInv(s, if ixs == [] then Advance(s.slot) else ixs[0]);
    ixs == [] || (Apply(s, ixs[0]).Ok? && AllSucceed(Step(s, ixs[0]), ixs[1..]))
  }

  lemma {:induction false} RunAppend(s: State, first: seq<Instruction>, rest: seq<Instruction>)
    requires Inv(s)
    ensures Run(s, first + rest) == Run(Run(s, first), rest)
    decreases |first|
  {
    hide Inv, Shaped, Step;
    InvShaped(s);
    if first == [] {
      assert first + rest == rest;
    } else {
      ApplyKeepsInv(s, first[0]);
      RunAppend(Step(s, first[0]), first[1..], rest);
      assert (first + rest)[1..] == first[1..] + rest;
    }
  }

  lemma OneStepRun(s: State, ix: Instruction)
    requires Inv(s) && Shaped(s)
    ensures Inv(Step(s, ix)) && Run(s, [ix]) == Step(s, ix)
  {
    hide Inv, Shaped, Step;
    ApplyKeepsInv(s, ix);
    assert [ix][1..] == [];
  }

  /** From creation on, through any run, the pool satisfies the whole invariant. */
  lemma ReachableStatesKeepInv(cfg: Config, vault: nat, wallets: map<Key, nat>, owners: map<Key, Key>, slot: nat,
                               ixs: seq<Instruction>)
    requires Create(cfg, vault, wallets, owners, slot).Ok?
    requires Supply(vault, wallets) <= U64_MAX && slot <= U64_MAX
    ensures Inv(Create(cfg, vault, wallets, owners, slot).value)
    ensures Inv(Run(Create(cfg, vault, wallets, owners, slot).value, ixs))
  {
    CreateEstablishesInv(cfg, vault, wallets, owners, slot);
  }

  // ---- Money ----

  /** The reserve never overflows and `spendable` never errs: withdrawals and buybacks can take
      exactly the surplus and nothing more. */
  lemma AlwaysSolvent(s: State)
    requires Inv(s)
    ensures RefundAmount(s.cfg, s.pendingDraws) == Ok(Owed(s.cfg, s.pendingDraws))
    ensures Spendable(s.cfg, s.vault, s.pendingDraws) == Ok(s.vault - Owed(s.cfg, s.pendingDraws))
    ensures Owed(s.cfg, s.pendingDraws) <= s.vault <= U64_MAX
  {
    hide StockAgrees, Queued, Reserved, Timely, Custody, Logged, Recorded;
    assert Owed(s.cfg, MAX_COUNT) == (s.cfg.price + s.cfg.bond) * 10;
  }

  predicate MovesTokens(ix: Instruction) {
    ix.Buy? || ix.Refund? || ix.Buyback? || ix.Withdraw? || ix.Send?
  }

  lemma OnlyPaymentsMoveTokens(s: State, ix: Instruction)
    requires Shaped(s) && !MovesTokens(ix)
    ensures Step(s, ix).vault == s.vault && Step(s, ix).wallets == s.wallets
  {
    hide DrawSteps, DrawOne;
  }

  lemma WithdrawConserves(s: State, signer: Key, destination: Key, amount: nat)
    requires ApplyWithdraw(s, signer, destination, amount).Ok?
    ensures var next := ApplyWithdraw(s, signer, destination, amount).value;
            Supply(next.vault, next.wallets) == Supply(s.vault, s.wallets)
  {
    SpendableAtMostVault(s.cfg, s.vault, s.pendingDraws);
    if destination != s.cfg.vault {
      PayOutKeepsSupply(s.vault, s.wallets, destination, amount);
    }
  }

  lemma SendConserves(s: State, source: Key, destination: Key, amount: nat)
    requires ApplySend(s, source, destination, amount).Ok?
    ensures var next := ApplySend(s, source, destination, amount).value;
            Supply(next.vault, next.wallets) == Supply(s.vault, s.wallets)
  {
    hide Supply;
    SendKeepsSupply(s.vault, s.wallets, source, destination, amount);
  }

  lemma BuyConserves(s: State, buyer: Key, source: Key, count: nat, version: nat, address: PullAddress)
    requires ApplyBuy(s, buyer, source, count, version, address).Ok?
    ensures var next := ApplyBuy(s, buyer, source, count, version, address).value;
            Supply(next.vault, next.wallets) == Supply(s.vault, s.wallets)
  {
    hide Supply, ApplyBuy, RefundAmount, NoOutcomes;
    BuyEffect(s, buyer, source, count, version, address);
    PayInKeepsSupply(s.vault, s.wallets, source, Payment(s.cfg, count).value);
  }

  /** No instruction creates or destroys a token. */
  lemma StepConservesTokens(s: State, ix: Instruction)
    requires Inv(s) && Shaped(s)
    ensures Supply(Step(s, ix).vault, Step(s, ix).wallets) == Supply(s.vault, s.wallets)
  {
    hide StockAgrees, Reserved, Timely, Solvent, Custody, Logged, Recorded, Supply, Owed, WellConfigured,
         ApplyBuy, ApplyRefund, ApplyBuyback, ApplyWithdraw, ApplySettle, ApplyDeliver, ApplyDeposit, ApplyReclaim,
         ApplySend, ApplySetStatus, ApplyTrade, ApplyAdvance, Payment, Spendable, Credit, Debit, HeldBy, CanPayIn;
    if !MovesTokens(ix) {
      OnlyPaymentsMoveTokens(s, ix);
    } else if Apply(s, ix).Ok? {
      match ix
      case Buy(buyer, source, count, version, address) =>
        BuyConserves(s, buyer, source, count, version, address);
      case Refund(index, destination) =>
        RefundEffect(s, index, destination);
        PayOutKeepsSupply(s.vault, s.wallets, destination, Owed(s.cfg, s.pulls[index].count));
      case Buyback(seller, asset, destination, tier, price, quoted, expired) =>
        BuybackEffect(s, seller, asset, destination, tier, price, quoted, expired);
        PayOutKeepsSupply(s.vault, s.wallets, destination, price);
      case Withdraw(signer, destination, amount) =>
        WithdrawConserves(s, signer, destination, amount);
      case Send(source, destination, amount) =>
        SendConserves(s, source, destination, amount);
    }
  }

  lemma SpendableAtMostVault(cfg: Config, vault: nat, pendingDraws: nat)
    ensures Spendable(cfg, vault, pendingDraws).Ok? ==> Spendable(cfg, vault, pendingDraws).value <= vault
  {
  }

  lemma PayInKeepsSupply(vault: nat, wallets: map<Key, nat>, source: Key, amount: nat)
    requires amount <= Balance(wallets, source)
    ensures Supply(vault + amount, Debit(wallets, source, amount)) == Supply(vault, wallets)
  {
    WalletSumUpdate(wallets, source, Balance(wallets, source) - amount);
  }

  lemma {:induction false} RunConservesTokens(s: State, ixs: seq<Instruction>)
    requires Inv(s)
    ensures var end := Run(s, ixs); Supply(end.vault, end.wallets) == Supply(s.vault, s.wallets)
    decreases |ixs|
  {
    hide Inv, Shaped, Step, Supply;
    InvShaped(s);
    if ixs != [] {
      ApplyKeepsInv(s, ixs[0]);
      StepConservesTokens(s, ixs[0]);
      RunConservesTokens(Step(s, ixs[0]), ixs[1..]);
    }
  }
}
