/** A gap in the parameter bounds. CreatePool bounds the price and the penalty but not the deadline: it
    also accepts pools whose deadlines do not fit the slot counter, and these never sell. */
module Deadlines {
  import opened Bits
  import opened Results
  import opened Stock
  import opened Protocol
  import opened Invariant
  import opened Preserve
  import opened Runs
  import opened Lifecycle
  import opened Conditions

  // ---- Launching a pool ----

  /** A pool is created in a world whose tokens and clock are `u64`s. */
  ghost predicate Launched(cfg: Config, vault: nat, wallets: map<Key, nat>, owners: map<Key, Key>, slot: nat) {
    Create(cfg, vault, wallets, owners, slot).Ok? && Supply(vault, wallets) <= U64_MAX && slot <= U64_MAX
  }

  ghost function Launch(cfg: Config, vault: nat, wallets: map<Key, nat>, owners: map<Key, Key>, slot: nat): (s: State)
    requires Launched(cfg, vault, wallets, owners, slot)
    ensures Inv(s) && s.cfg == cfg && s.slot == slot && s.nextIndex == 0
  {
    CreateEstablishesInv(cfg, vault, wallets, owners, slot);
    Create(cfg, vault, wallets, owners, slot).value
  }

  // ---- Too far ----

  /** Once the deadline of a new purchase would pass the slot counter, no purchase succeeds on any run. */
  lemma {:induction false} FarDeadlinesNeverSell(s: State, ixs: seq<Instruction>)
    requires Inv(s) && s.slot + s.cfg.deadlineSlots > U64_MAX
    ensures Run(s, ixs).nextIndex == s.nextIndex
    decreases |ixs|
  {
    hide Step, Shaped, Inv;
    InvShaped(s);
    if ixs != [] {
      StepKeepsConfig(s, ixs[0]);
      FarDeadlineRefusesBuy(s, ixs[0]);
      ApplyKeepsInv(s, ixs[0]);
      FarDeadlinesNeverSell(Step(s, ixs[0]), ixs[1..]);
    }
  }

  lemma FarDeadlineRefusesBuy(s: State, ix: Instruction)
    requires Shaped(s) && s.slot + s.cfg.deadlineSlots > U64_MAX
    ensures Step(s, ix).nextIndex == s.nextIndex
  {
    hide DrawSteps, HeldBy, RefundAmount, Spendable, AllDelivered, Credit, SettleRefusal, Sum, Payment, CanPayIn;
  }

  // ---- A pool ready to sell ----

  const ASSET := 0

  /** A buyer and a wallet that are neither the pool nor its vault. */
  function Buyer(cfg: Config): Key {
    cfg.pool + 1
  }

  function Wallet(cfg: Config): Key {
    cfg.vault + 1
  }

  function Opening(cfg: Config): seq<Instruction> {
    [Deposit(cfg.authority, ASSET, 0)] + [SetStatus(cfg.authority, 1)]
  }

  /** The state after the authority has deposited its one asset and opened the pool. */
  ghost function OpenState(cfg: Config, vault: nat, wallets: map<Key, nat>, slot: nat): State
    requires |cfg.weights| > 0
  {
    State(cfg, Active, [1], seq(|cfg.weights|, _ => 0)[0 := 1], 0, 0, 0, map[0 := Item(0, ASSET)], map[],
          vault, wallets, map[ASSET := cfg.pool], slot, [])
  }

  lemma DepositFirst(created: State, cfg: Config, vault: nat, wallets: map<Key, nat>, slot: nat)
    requires Shaped(created) && |cfg.weights| > 0
    requires created == State(cfg, Paused, [], seq(|cfg.weights|, _ => 0), 0, 0, 0, map[], map[],
                              vault, wallets, map[ASSET := cfg.authority], slot, [])
    ensures Step(created, Deposit(cfg.authority, ASSET, 0)) == OpenState(cfg, vault, wallets, slot).(status := Paused)
  {
  }

  lemma OpenPool(stocked: State)
    requires Shaped(stocked) && stocked.status == Paused
    ensures Step(stocked, SetStatus(stocked.cfg.authority, 1)) == stocked.(status := Active)
  {
  }

  lemma Opened(cfg: Config, vault: nat, wallets: map<Key, nat>, slot: nat) returns (created: State, s: State)
    requires Launched(cfg, vault, wallets, map[ASSET := cfg.authority], slot)
    ensures created == Launch(cfg, vault, wallets, map[ASSET := cfg.authority], slot)
    ensures |cfg.weights| > 0 && s == OpenState(cfg, vault, wallets, slot)
    ensures Inv(s) && s == Run(created, Opening(cfg)) && 1 <= Sum(s.remaining)
  {
    hide Inv, Step, Shaped, Sum, Supply, RefundAmount;
    created := Launch(cfg, vault, wallets, map[ASSET := cfg.authority], slot);
    InvShaped(created);
    var deposit, open := Deposit(cfg.authority, ASSET, 0), SetStatus(cfg.authority, 1);
    DepositFirst(created, cfg, vault, wallets, slot);
    OneStepRun(created, deposit);
    var stocked := Step(created, deposit);
    InvShaped(stocked);
    OpenPool(stocked);
    OneStepRun(stocked, open);
    s := Step(stocked, open);
    RunAppend(created, [deposit], [open]);
    SumBound(s.remaining, 0);
  }

  function Funding(cfg: Config): Instruction {
    Send(Wallet(cfg), cfg.vault, cfg.bond)
  }

  /** From every accepted set of parameters, at every slot, a pool is reachable on which one draw may be
      bought: it has a prize, its vault the penalty and the wallet the price. */
  lemma ReadyToSell(cfg: Config, slot: nat) returns (created: State, s: State)
    requires Create(cfg, 0, map[], map[], slot).Ok? && slot <= U64_MAX
    ensures Launched(cfg, 0, map[Wallet(cfg) := cfg.price + cfg.bond], map[ASSET := cfg.authority], slot)
    ensures created == Launch(cfg, 0, map[Wallet(cfg) := cfg.price + cfg.bond], map[ASSET := cfg.authority], slot)
    ensures Inv(s) && s == Run(created, Opening(cfg) + [Funding(cfg)])
    ensures MayBuy(s, Buyer(cfg), Wallet(cfg), 1, 1, PullAddress(0, 255))
    ensures s.cfg == cfg && s.slot == slot && s.nextIndex == s.nextSettle == 0
    ensures s.items == map[0 := Item(0, ASSET)] && s.pulls == map[]
  {
    hide Inv, Sum, Supply, Step, Shaped, Create, MayBuy, CanPayIn, RefundAmount;
    AcceptedRefund(cfg, slot);
    var wallets := map[Wallet(cfg) := cfg.price + cfg.bond];
    OneWallet(cfg, wallets);
    SameAcceptance(cfg, wallets, map[ASSET := cfg.authority], slot);
    var ready;
    created, ready := Opened(cfg, 0, wallets, slot);
    InvShaped(ready);
    OneStepRun(ready, Funding(cfg));
    RunAppend(created, Opening(cfg), [Funding(cfg)]);
    s := Step(ready, Funding(cfg));
    FundPool(ready, cfg, slot);
  }

  lemma SameAcceptance(cfg: Config, wallets: map<Key, nat>, owners: map<Key, Key>, slot: nat)
    requires Create(cfg, 0, map[], map[], slot).Ok?
    ensures Create(cfg, 0, wallets, owners, slot).Ok?
  {
  }

  lemma AcceptedRefund(cfg: Config, slot: nat)
    requires Create(cfg, 0, map[], map[], slot).Ok?
    ensures RefundAmount(cfg, MAX_COUNT).Ok?
  {
  }

  lemma FundPool(ready: State, cfg: Config, slot: nat)
    requires |cfg.weights| > 0 && Shaped(ready) && 1 <= Sum(ready.remaining)
    requires ready == OpenState(cfg, 0, map[Wallet(cfg) := cfg.price + cfg.bond], slot)
    ensures Step(ready, Funding(cfg)) == ready.(vault := cfg.bond, wallets := map[Wallet(cfg) := cfg.price])
    ensures MayBuy(Step(ready, Funding(cfg)), Buyer(cfg), Wallet(cfg), 1, 1, PullAddress(0, 255))
  {
    hide Sum;
    assert Owed(cfg, 1) == cfg.price + cfg.bond;
  }

  lemma OneWallet(cfg: Config, wallets: map<Key, nat>)
    requires RefundAmount(cfg, MAX_COUNT).Ok? && wallets == map[Wallet(cfg) := cfg.price + cfg.bond]
    ensures Supply(0, wallets) <= U64_MAX
  {
    WalletSumSplit(wallets, Wallet(cfg));
    assert wallets - {Wallet(cfg)} == map[];
    assert Owed(cfg, MAX_COUNT) == (cfg.price + cfg.bond) * 10;
  }

  // ---- The exact condition ----

  /** Some world and some run in it make a pool with these parameters, created at this slot, sell. */
  ghost predicate CanEverSell(cfg: Config, slot: nat) {
    exists vault, wallets, owners, ixs ::
      Launched(cfg, vault, wallets, owners, slot) && Run(Launch(cfg, vault, wallets, owners, slot), ixs).nextIndex > 0
  }

  /** The pool that is ready to sell does so if its deadline fits, and its Buy panics otherwise. */
  lemma DeadlineDecides(cfg: Config, slot: nat) returns (created: State, s: State)
    requires Create(cfg, 0, map[], map[], slot).Ok? && slot <= U64_MAX
    ensures Launched(cfg, 0, map[Wallet(cfg) := cfg.price + cfg.bond], map[ASSET := cfg.authority], slot)
    ensures created == Launch(cfg, 0, map[Wallet(cfg) := cfg.price + cfg.bond], map[ASSET := cfg.authority], slot)
    ensures Inv(s) && s == Run(created, Opening(cfg) + [Funding(cfg)])
    ensures MayBuy(s, Buyer(cfg), Wallet(cfg), 1, 1, PullAddress(0, 255)) && s.cfg == cfg && s.slot == slot
    ensures s.nextIndex == s.nextSettle == 0 && s.items == map[0 := Item(0, ASSET)] && s.pulls == map[]
    ensures var bought := ApplyBuy(s, Buyer(cfg), Wallet(cfg), 1, 1, PullAddress(0, 255));
            if slot + cfg.deadlineSlots <= U64_MAX then bought.Ok? && bought.value.nextIndex == 1
            else bought == Err(Abort)
  {
    hide Inv, MayBuy, ApplyBuy, Supply, Create, Run, Launch, Launched, Opening, Funding, Payment, CanPayIn,
         RefundAmount, Sum, Debit, NoOutcomes, Offered, Collateralized;
    created, s := ReadyToSell(cfg, slot);
    BuySucceedsExactly(s, Buyer(cfg), Wallet(cfg), 1, 1, PullAddress(0, 255));
    BuyPanicsExactly(s, Buyer(cfg), Wallet(cfg), 1, 1, PullAddress(0, 255));
    if slot + cfg.deadlineSlots <= U64_MAX {
      BuyEffect(s, Buyer(cfg), Wallet(cfg), 1, 1, PullAddress(0, 255));
    }
  }

  /** Parameters that CreatePool accepts give a pool that can sell, in some world, exactly when the slot
      of its creation and its deadline fit the slot counter together. */
  lemma SellsExactlyWhenDeadlineFits(cfg: Config, slot: nat)
    requires Create(cfg, 0, map[], map[], slot).Ok? && slot <= U64_MAX
    ensures CanEverSell(cfg, slot) <==> slot + cfg.deadlineSlots <= U64_MAX
  {
    hide Inv, Run, MayBuy, ApplyBuy, Supply, Create, Shaped;
    if CanEverSell(cfg, slot) {
      var vault, wallets, owners, ixs :|
        && Launched(cfg, vault, wallets, owners, slot)
        && Run(Launch(cfg, vault, wallets, owners, slot), ixs).nextIndex > 0;
      if slot + cfg.deadlineSlots > U64_MAX {
        FarDeadlinesNeverSell(Launch(cfg, vault, wallets, owners, slot), ixs);
      }
    }
    if slot + cfg.deadlineSlots <= U64_MAX {
      var created, s := DeadlineDecides(cfg, slot);
      var ix := Buy(Buyer(cfg), Wallet(cfg), 1, 1, PullAddress(0, 255));
      InvShaped(s);
      OneStepRun(s, ix);
      RunAppend(created, Opening(cfg) + [Funding(cfg)], [ix]);
    }
  }

  /** A pool created with a deadline that does not fit never sells, in any world and on any run. */
  lemma CreatedTooFarNeverSells(cfg: Config, vault: nat, wallets: map<Key, nat>, owners: map<Key, Key>, slot: nat,
                                ixs: seq<Instruction>)
    requires Launched(cfg, vault, wallets, owners, slot) && slot + cfg.deadlineSlots > U64_MAX
    ensures Run(Launch(cfg, vault, wallets, owners, slot), ixs).nextIndex == 0
  {
    hide Inv, Supply, Create;
    FarDeadlinesNeverSell(Launch(cfg, vault, wallets, owners, slot), ixs);
  }

  // ---- Concrete panics ----

  /** The largest deadline passes CreatePool. One slot later a stocked, open and funded pool panics on a
      purchase that meets every condition but the deadline's. */
  lemma LargestDeadlinePanics() returns (cfg: Config, s: State)
    ensures Create(cfg, 0, map[], map[], 1).Ok? && cfg.deadlineSlots == U64_MAX
    ensures Inv(s) && s.cfg == cfg && s.slot == 1
    ensures MayBuy(s, Buyer(cfg), Wallet(cfg), 1, 1, PullAddress(0, 255))
    ensures ApplyBuy(s, Buyer(cfg), Wallet(cfg), 1, 1, PullAddress(0, 255)) == Err(Abort)
    ensures !CanEverSell(cfg, 1)
  {
    cfg := Config(1, 2, 3, map[], 1, U64_MAX, 1, [1]);
    hide Inv, MayBuy, ApplyBuy, CanEverSell;
    var created;
    created, s := DeadlineDecides(cfg, 1);
    SellsExactlyWhenDeadlineFits(cfg, 1);
  }

  /** The other panic is reachable too: the vault holds the mint's whole supply, both counters fit, and
      the payment added to the balance overflows before anyone is found unable to pay it. */
  lemma FullVaultPanics() returns (s: State)
    ensures Inv(s) && s.vault == U64_MAX && FitsCounters(s)
    ensures Offered(s, Buyer(s.cfg), 1, 1, PullAddress(0, 255)) && Collateralized(s, 1)
    ensures forall source :: ApplyBuy(s, Buyer(s.cfg), source, 1, 1, PullAddress(0, 255)) == Err(Abort)
  {
    var cfg := Config(1, 2, 3, map[], 1, 1, 1, [1]);
    assert WalletSum(map[]) == 0;
    var created;
    created, s := Opened(cfg, U64_MAX, map[], 0);
    hide Inv, ApplyBuy, Sum;
    assert Owed(cfg, 1) == 2;
    forall source
      ensures ApplyBuy(s, Buyer(s.cfg), source, 1, 1, PullAddress(0, 255)) == Err(Abort)
    {
      BuyPanicsExactly(s, Buyer(s.cfg), source, 1, 1, PullAddress(0, 255));
    }
  }
}
