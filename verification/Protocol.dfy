/** The pool protocol as a state machine over values, one function per instruction.

    The inventory is the linear list of tags; pulls are keyed by FIFO index because the address of a
    closed Pull can be created again. A failing instruction changes nothing. `log` is a history: the
    resolution of each purchase, in the order the Settle and Refund events are emitted. */
module Protocol {
  import opened Bits
  import opened Results
  import opened Stock
  import opened Draw

  type Key = nat

  const MAX_COUNT := 10
  const DELIVERED := 0xff

  datatype Status = Paused | Active | Retired

  /** Parameters fixed at creation. `vault` is the token account the pool owns; `holders` names the
      owner of every other token account of the mint. */
  datatype Config = Config(pool: Key, authority: Key, vault: Key, holders: map<Key, Key>,
                           price: nat, deadlineSlots: nat, bond: nat, weights: seq<nat>)

  datatype Item = Item(tier: nat, asset: Key)

  datatype PullStatus = Pending | Settled

  /** The address of a Pull: derived from its client seed and the bump the buyer passes, which need not
      be the canonical one. */
  datatype PullAddress = PullAddress(seed: Key, bump: nat)

  datatype Outcome = Outcome(tier: nat, asset: Key)
  datatype Pull = Pull(status: PullStatus, count: nat, version: nat, index: nat, deadline: nat,
                       buyer: Key, address: PullAddress, outcomes: seq<Outcome>)

  /** How a purchase is resolved: by a verified output, expanded to one hash per draw, or by refund. */
  type Output = output: seq<Hash> | |output| == MAX_COUNT witness seq(MAX_COUNT, _ => Hash(0, 0))
  datatype Choice = Revealed(output: Output) | TimedOut
  datatype Award = Award(tier: nat, position: nat, asset: Key)
  datatype Resolution = Resolution(index: nat, deadline: nat, slot: nat, choice: Choice, awards: seq<Award>)

  datatype State = State(
    cfg: Config,
    status: Status,
    tags: seq<u8>,            // |tags| is the inventory version
    remaining: seq<nat>,      // the header's per-tier counters
    pendingDraws: nat,
    nextIndex: nat,
    nextSettle: nat,
    items: map<nat, Item>,    // live Item accounts by position
    pulls: map<nat, Pull>,    // live Pull accounts by FIFO index
    vault: nat,
    wallets: map<Key, nat>,   // every other token account of the mint
    owners: map<Key, Key>,    // Core assets
    slot: nat,
    log: seq<Resolution>)

  /** An account passed as an Item: this pool's Item at a position, or another pool's. */
  datatype ItemRef = Here(position: nat) | Foreign

  datatype Instruction =
    | SetStatus(signer: Key, status: nat)
    | Deposit(signer: Key, asset: Key, tier: nat)
    | Buy(buyer: Key, source: Key, count: nat, version: nat, address: PullAddress)
    | Settle(index: nat, refs: seq<ItemRef>, proof: Option<Output>)
    | Refund(index: nat, destination: Key)
    | Deliver(index: nat, outcome: nat, asset: Key)
    | Buyback(seller: Key, asset: Key, destination: Key, tier: nat, price: nat, quoted: bool, expired: bool)
    | Withdraw(signer: Key, destination: Key, amount: nat)
    | Reclaim(signer: Key, position: nat, asset: Key)
    | Send(source: Key, destination: Key, amount: nat) // a holder's token transfer, into the vault or not
    | Trade(asset: Key, from: Key, to: Key)        // holders moving assets outside the program
    | Advance(slot: nat)                           // the clock

  /** The fixed shape of the pool header. */
  ghost predicate Shaped(s: State) {
    |s.remaining| == |s.cfg.weights| <= MAX_TIERS && ValidTags(s.tags, MAX_TIERS)
  }

  /** Closing an account. */
  function Without<V>(accounts: map<nat, V>, key: nat): map<nat, V> {
    accounts - {key}
  }

  // ---- Checked arithmetic of the header ----

  function Payment(cfg: Config, count: nat): Result<nat> {
    if cfg.price * count <= U64_MAX then Ok(cfg.price * count) else Err(ArithmeticOverflow)
  }

  /** What a refund of `count` draws pays: nothing is prorated. */
  function Owed(cfg: Config, count: nat): nat {
    (cfg.price + cfg.bond) * count
  }

  function RefundAmount(cfg: Config, count: nat): Result<nat> {
    if cfg.price + cfg.bond <= U64_MAX && Owed(cfg, count) <= U64_MAX then Ok(Owed(cfg, count))
    else Err(ArithmeticOverflow)
  }

  /** The vault's surplus over `RefundAmount` of all pending draws, or the error that there is none. */
  function Spendable(cfg: Config, vault: nat, pendingDraws: nat): Result<nat> {
    match RefundAmount(cfg, pendingDraws)
    case Err(e) => Err(e)
    case Ok(reserved) => if reserved <= vault then Ok(vault - reserved) else Err(InsufficientBalance)
  }

  // ---- Called programs ----

  function Balance(wallets: map<Key, nat>, account: Key): nat {
    if account in wallets then wallets[account] else 0
  }

  /** A token transfer into the vault succeeds when the source holds the amount. The vault itself is
      never a source: its owner is the pool, which signs no incoming transfer. */
  predicate CanPayIn(cfg: Config, wallets: map<Key, nat>, source: Key, amount: nat) {
    source != cfg.vault && amount <= Balance(wallets, source)
  }

  /** A token account owned by `who`. The vault's owner is the pool, which never buys or sells. */
  predicate HeldBy(cfg: Config, account: Key, who: Key) {
    account != cfg.vault && account in cfg.holders && cfg.holders[account] == who
  }

  function Debit(wallets: map<Key, nat>, account: Key, amount: nat): map<Key, nat>
    requires amount <= Balance(wallets, account)
  {
    wallets[account := Balance(wallets, account) - amount]
  }

  function Credit(wallets: map<Key, nat>, account: Key, amount: nat): map<Key, nat> {
    wallets[account := Balance(wallets, account) + amount]
  }

  /** A Core transfer succeeds only when the signing authority is the current owner. */
  predicate Owns(owners: map<Key, Key>, authority: Key, asset: Key) {
    asset in owners && owners[asset] == authority
  }

  // ---- Pool creation ----

  function Create(cfg: Config, vault: nat, wallets: map<Key, nat>, owners: map<Key, Key>, slot: nat): Result<State> {
    if cfg.authority == cfg.pool then Err(NotSigner)
    else if |cfg.weights| == 0 || |cfg.weights| > MAX_TIERS || 0 in cfg.weights then Err(InvalidPoolParams)
    else if cfg.price == 0 || cfg.bond == 0 || cfg.deadlineSlots == 0 then Err(InvalidPoolParams)
    else if RefundAmount(cfg, MAX_COUNT).Err? then Err(InvalidPoolParams)
    else Ok(State(cfg, Paused, [], seq(|cfg.weights|, _ => 0), 0, 0, 0, map[], map[], vault, wallets, owners, slot, []))
  }

  // ---- Restocking ----

  function CheckRestock(s: State, tier: nat): Option<Error> {
    if tier >= |s.cfg.weights| then Some(InvalidTier)
    else if |s.tags| in s.items then Some(AlreadyInitialized)
    else None
  }

  /** The next position and the tier's counter must still fit their `u32` fields. */
  predicate CanRestock(s: State, tier: nat)
    requires Shaped(s) && tier < |s.cfg.weights|
  {
    |s.tags| < U32_MAX && s.remaining[tier] < U32_MAX
  }

  function Restocked(s: State, asset: Key, tier: nat): (r: State)
    requires Shaped(s) && tier < |s.cfg.weights|
  {
    s.(tags := s.tags + [(tier + 1) as u8],
       items := s.items[|s.tags| := Item(tier, asset)],
       remaining := s.remaining[tier := s.remaining[tier] + 1])
  }

  // ---- Administration ----

  function ApplySetStatus(s: State, signer: Key, status: nat): Result<State> {
    if signer != s.cfg.authority then Err(InvalidAuthority)
    else if status > 2 then Err(InvalidInstructionData)
    else if s.status == Retired && status != 2 then Err(InvalidPoolStatus)
    else Ok(s.(status := if status == 0 then Paused else if status == 1 then Active else Retired))
  }

  function ApplyDeposit(s: State, signer: Key, asset: Key, tier: nat): Result<State>
    requires Shaped(s)
  {
    if signer != s.cfg.authority then Err(InvalidAuthority)
    else if s.status == Retired then Err(InvalidPoolStatus)
    else if CheckRestock(s, tier).Some? then Err(CheckRestock(s, tier).value)
    else if !CanRestock(s, tier) then Err(Abort)
    else if !Owns(s.owners, signer, asset) then Err(TransferFailed)
    else Ok(Restocked(s, asset, tier).(owners := s.owners[asset := s.cfg.pool]))
  }

  function ApplyWithdraw(s: State, signer: Key, destination: Key, amount: nat): Result<State> {
    if signer != s.cfg.authority then Err(InvalidAuthority)
    else
      match Spendable(s.cfg, s.vault, s.pendingDraws)
      case Err(e) => Err(e)
      case Ok(free) =>
        if amount > free then Err(InsufficientBalance)
        else if destination == s.cfg.vault then Ok(s)
        else Ok(s.(vault := s.vault - amount, wallets := Credit(s.wallets, destination, amount)))
  }

  /** The guards of Reclaim on the accounts. */
  function ReclaimRefusal(s: State, signer: Key, position: nat, asset: Key): Option<Error>
    requires Shaped(s)
  {
    if signer != s.cfg.authority then Some(InvalidAuthority)
    else if s.status != Retired then Some(InvalidPoolStatus)
    else if s.pendingDraws != 0 then Some(PendingPurchases)
    else if position !in s.items then Some(InvalidAccountOwner)
    else
      var item := s.items[position];
      if item.asset != asset || item.tier >= |s.cfg.weights| || position >= |s.tags| then Some(InvalidItem)
      else if s.remaining[item.tier] == 0 then Some(InvalidItem)
      else None
  }

  function ApplyReclaim(s: State, signer: Key, position: nat, asset: Key): Result<State>
    requires Shaped(s)
  {
    if ReclaimRefusal(s, signer, position, asset).Some? then Err(ReclaimRefusal(s, signer, position, asset).value)
    else
      var tier := s.items[position].tier;
      if s.tags[position] != tier + 1 then Err(InvalidItem)
      else if !Owns(s.owners, s.cfg.pool, asset) then Err(TransferFailed)
      else Ok(s.(tags := s.tags[position := 0],
                 remaining := s.remaining[tier := s.remaining[tier] - 1],
                 owners := s.owners[asset := signer],
                 items := Without(s.items, position)))
  }

  // ---- Purchases ----

  predicate AddressInUse(pulls: map<nat, Pull>, address: PullAddress) {
    exists i :: i in pulls && pulls[i].address == address
  }

  /** The zeroed outcome table of a fresh Pull account. */
  function NoOutcomes(): seq<Outcome> {
    seq(MAX_COUNT, _ => Outcome(0, 0))
  }

  /** Everything Buy checks before it writes. */
  function BuyRefusal(s: State, buyer: Key, count: nat, version: nat, address: PullAddress): Option<Error> {
    if buyer == s.cfg.pool then Some(NotSigner)
    else if AddressInUse(s.pulls, address) then Some(AlreadyInitialized)
    else if s.status != Active then Some(InvalidPoolStatus)
    else if count == 0 || count > MAX_COUNT then Some(InvalidCount)
    else if version != |s.tags| then Some(InventoryChanged)
    else if s.pendingDraws + count > U64_MAX then Some(Abort)
    else if s.pendingDraws + count > Sum(s.remaining) then Some(SoldOut)
    else if Payment(s.cfg, count).Err? then Some(ArithmeticOverflow)
    else
      var received := s.vault + Payment(s.cfg, count).value;
      if received > U64_MAX then Some(Abort)
      else if RefundAmount(s.cfg, s.pendingDraws + count).Err? then Some(ArithmeticOverflow)
      else if received < RefundAmount(s.cfg, s.pendingDraws + count).value then Some(InsufficientBalance)
      else if s.slot + s.cfg.deadlineSlots > U64_MAX || s.nextIndex + 1 > U64_MAX then Some(Abort)
      else None
  }

  function ApplyBuy(s: State, buyer: Key, source: Key, count: nat, version: nat, address: PullAddress): Result<State> {
    if BuyRefusal(s, buyer, count, version, address).Some? then Err(BuyRefusal(s, buyer, count, version, address).value)
    else
      var amount := Payment(s.cfg, count).value;
      if !CanPayIn(s.cfg, s.wallets, source, amount) then Err(TransferFailed)
      else Ok(s.(pulls := s.pulls[s.nextIndex := Pull(Pending, count, version, s.nextIndex,
                                                      s.slot + s.cfg.deadlineSlots, buyer, address, NoOutcomes())],
                 pendingDraws := s.pendingDraws + count,
                 nextIndex := s.nextIndex + 1,
                 vault := s.vault + amount,
                 wallets := Debit(s.wallets, source, amount)))
  }

  /** What the draw loop changes. */
  datatype Drawn = Drawn(tags: seq<u8>, remaining: seq<nat>, items: map<nat, Item>,
                         outcomes: seq<Outcome>, awards: seq<Award>)

  predicate LiveRef(items: map<nat, Item>, ref: ItemRef) {
    ref.Here? ==> ref.position in items
  }

  predicate AllLive(items: map<nat, Item>, refs: seq<ItemRef>) {
    forall i :: 0 <= i < |refs| ==> LiveRef(items, refs[i])
  }

  /** One iteration: draw a prize, match the passed Item against it, record and close it. */
  function DrawStep(weights: seq<nat>, cutoff: nat, ref: ItemRef, hash: Hash, i: nat, d: Drawn): (r: Result<Drawn>)
    requires |d.remaining| == |weights| <= MAX_TIERS && i < |d.outcomes|
    ensures r.Ok? ==> |r.value.remaining| == |d.remaining| && |r.value.outcomes| == |d.outcomes|
    ensures r.Ok? ==> |r.value.tags| == |d.tags| && |r.value.awards| == |d.awards| + 1
  {
    match DrawOne(weights, d.tags, cutoff, hash)
    case None => Err(SoldOut)
    case Some(pick) =>
      if !LiveRef(d.items, ref) then Err(InvalidAccountOwner)
      else if ref != Here(pick.position) || d.items[pick.position].tier != pick.tier then Err(InvalidItem)
      else if d.remaining[pick.tier] == 0 then Err(Abort)
      else
        var asset := d.items[pick.position].asset;
        Ok(Drawn(d.tags[pick.position := 0],
                 d.remaining[pick.tier := d.remaining[pick.tier] - 1],
                 Without(d.items, pick.position),
                 d.outcomes[i := Outcome(pick.tier, asset)],
                 d.awards + [Award(pick.tier, pick.position, asset)]))
  }

  function DrawSteps(weights: seq<nat>, cutoff: nat, refs: seq<ItemRef>, output: seq<Hash>, n: nat,
                     start: Drawn): (r: Result<Drawn>)
    requires |start.remaining| == |weights| <= MAX_TIERS
    requires n <= |refs| && n <= |output| && n <= |start.outcomes|
    ensures r.Ok? ==> |r.value.remaining| == |start.remaining| && |r.value.outcomes| == |start.outcomes|
    ensures r.Ok? ==> |r.value.tags| == |start.tags| && |r.value.awards| == |start.awards| + n
  {
    if n == 0 then Ok(start)
    else
      match DrawSteps(weights, cutoff, refs, output, n - 1, start)
      case Err(e) => Err(e)
      case Ok(before) => DrawStep(weights, cutoff, refs[n - 1], output[n - 1], n - 1, before)
  }

  /** The guards of Settle before the draw loop. */
  function SettleRefusal(s: State, index: nat, refs: seq<ItemRef>, proof: Option<Output>): Option<Error> {
    if index !in s.pulls then Some(InvalidAccountOwner)
    else
      var pull := s.pulls[index];
      if pull.status != Pending then Some(InvalidPullStatus)
      else if pull.index != s.nextSettle then Some(NotNextInQueue)
      else if s.slot > pull.deadline then Some(DeadlinePassed)
      else if |refs| != pull.count then Some(InvalidItemCount)
      else if !AllLive(s.items, refs) then Some(InvalidAccountOwner)
      else if proof.None? then Some(InvalidProof)
      else if pull.version > |s.tags| || pull.count > MAX_COUNT || |pull.outcomes| != MAX_COUNT then Some(Abort)
      else None
  }

  function ApplySettle(s: State, index: nat, refs: seq<ItemRef>, proof: Option<Output>): Result<State>
    requires Shaped(s)
  {
    if SettleRefusal(s, index, refs, proof).Some? then Err(SettleRefusal(s, index, refs, proof).value)
    else
      var pull := s.pulls[index];
      match DrawSteps(s.cfg.weights, pull.version, refs, proof.value, pull.count,
                      Drawn(s.tags, s.remaining, s.items, pull.outcomes, []))
      case Err(e) => Err(e)
      case Ok(d) =>
        if s.pendingDraws < pull.count || pull.index + 1 > U64_MAX then Err(Abort)
        else Ok(s.(tags := d.tags, remaining := d.remaining, items := d.items,
                   pendingDraws := s.pendingDraws - pull.count,
                   nextSettle := pull.index + 1,
                   pulls := s.pulls[index := pull.(status := Settled, outcomes := d.outcomes)],
                   log := s.log + [Resolution(pull.index, pull.deadline, s.slot, Revealed(proof.value), d.awards)]))
  }

  /** The guards of Refund on the accounts. */
  function RefundRefusal(s: State, index: nat, destination: Key): Option<Error> {
    if index !in s.pulls then Some(InvalidAccountOwner)
    else
      var pull := s.pulls[index];
      if pull.status != Pending then Some(InvalidPullStatus)
      else if pull.index != s.nextSettle then Some(NotNextInQueue)
      else if s.slot <= pull.deadline then Some(DeadlineNotReached)
      else if !HeldBy(s.cfg, destination, pull.buyer) then Some(InvalidTokenAddress)
      else None
  }

  function ApplyRefund(s: State, index: nat, destination: Key): Result<State> {
    if RefundRefusal(s, index, destination).Some? then Err(RefundRefusal(s, index, destination).value)
    else
      var pull := s.pulls[index];
      if RefundAmount(s.cfg, pull.count).Err? then Err(ArithmeticOverflow)
      else
        var amount := RefundAmount(s.cfg, pull.count).value;
        if s.pendingDraws < pull.count || pull.index + 1 > U64_MAX then Err(Abort)
        else if s.vault < amount then Err(TransferFailed)
        else Ok(s.(pendingDraws := s.pendingDraws - pull.count,
                   nextSettle := pull.index + 1,
                   vault := s.vault - amount,
                   wallets := Credit(s.wallets, destination, amount),
                   pulls := Without(s.pulls, index),
                   log := s.log + [Resolution(pull.index, pull.deadline, s.slot, TimedOut, [])]))
  }

  predicate AllDelivered(pull: Pull)
    requires pull.count <= |pull.outcomes|
  {
    forall i :: 0 <= i < pull.count ==> pull.outcomes[i].tier == DELIVERED
  }

  function ApplyDeliver(s: State, index: nat, outcome: nat, asset: Key): Result<State> {
    if index !in s.pulls then Err(InvalidAccountOwner)
    else
      var pull := s.pulls[index];
      if pull.status != Settled then Err(InvalidPullStatus)
      else if outcome >= pull.count then Err(InvalidOutcome)
      else if pull.count > |pull.outcomes| then Err(Abort)
      else if pull.outcomes[outcome].tier == DELIVERED then Err(InvalidOutcome)
      else if pull.outcomes[outcome].asset != asset then Err(InvalidAsset)
      else if !Owns(s.owners, s.cfg.pool, asset) then Err(TransferFailed)
      else
        var marked := pull.(outcomes := pull.outcomes[outcome := Outcome(DELIVERED, asset)]);
        Ok(s.(owners := s.owners[asset := pull.buyer],
              pulls := if AllDelivered(marked) then Without(s.pulls, index) else s.pulls[index := marked]))
  }

  /** Everything Buyback checks before it calls another program. */
  function BuybackRefusal(s: State, seller: Key, destination: Key, tier: nat, price: nat,
                          quoted: bool, expired: bool): Option<Error> {
    if seller == s.cfg.pool then Some(NotSigner)
    else if s.status != Active then Some(InvalidPoolStatus)
    else if !HeldBy(s.cfg, destination, seller) then Some(InvalidTokenAddress)
    else if expired then Some(QuoteExpired)
    else if tier >= |s.cfg.weights| || !quoted then Some(InvalidQuote)
    else
      match Spendable(s.cfg, s.vault, s.pendingDraws)
      case Err(e) => Some(e)
      case Ok(free) => if price > free then Some(InsufficientBalance) else CheckRestock(s, tier)
  }

  function ApplyBuyback(s: State, seller: Key, asset: Key, destination: Key, tier: nat, price: nat,
                        quoted: bool, expired: bool): Result<State>
    requires Shaped(s)
  {
    var refusal := BuybackRefusal(s, seller, destination, tier, price, quoted, expired);
    if refusal.Some? then Err(refusal.value)
    else if !Owns(s.owners, seller, asset) then Err(TransferFailed)
    else if !CanRestock(s, tier) then Err(Abort)
    else Ok(Restocked(s, asset, tier).(owners := s.owners[asset := s.cfg.pool],
                                       vault := s.vault - price,
                                       wallets := Credit(s.wallets, destination, price)))
  }

  // ---- The world outside the program ----

  function ApplySend(s: State, source: Key, destination: Key, amount: nat): Result<State> {
    if !CanPayIn(s.cfg, s.wallets, source, amount) then Err(TransferFailed)
    else
      var debited := Debit(s.wallets, source, amount);
      if destination == s.cfg.vault then Ok(s.(vault := s.vault + amount, wallets := debited))
      else Ok(s.(wallets := Credit(debited, destination, amount)))
  }

  function ApplyTrade(s: State, asset: Key, from: Key, to: Key): Result<State> {
    if from == s.cfg.pool then Err(NotSigner)
    else if !Owns(s.owners, from, asset) then Err(TransferFailed)
    else Ok(s.(owners := s.owners[asset := to]))
  }

  function ApplyAdvance(s: State, slot: nat): Result<State> {
    if slot < s.slot || slot > U64_MAX then Err(Abort) else Ok(s.(slot := slot))
  }

  // ---- Steps and runs ----

  function Apply(s: State, ix: Instruction): Result<State>
    requires Shaped(s)
  {
    match ix
    case SetStatus(signer, status) => ApplySetStatus(s, signer, status)
    case Deposit(signer, asset, tier) => ApplyDeposit(s, signer, asset, tier)
    case Buy(buyer, source, count, version, address) => ApplyBuy(s, buyer, source, count, version, address)
    case Settle(index, refs, proof) => ApplySettle(s, index, refs, proof)
    case Refund(index, destination) => ApplyRefund(s, index, destination)
    case Deliver(index, outcome, asset) => ApplyDeliver(s, index, outcome, asset)
    case Buyback(seller, asset, destination, tier, price, quoted, expired) =>
      ApplyBuyback(s, seller, asset, destination, tier, price, quoted, expired)
    case Withdraw(signer, destination, amount) => ApplyWithdraw(s, signer, destination, amount)
    case Reclaim(signer, position, asset) => ApplyReclaim(s, signer, position, asset)
    case Send(source, destination, amount) => ApplySend(s, source, destination, amount)
    case Trade(asset, from, to) => ApplyTrade(s, asset, from, to)
    case Advance(slot) => ApplyAdvance(s, slot)
  }

  /** A failing instruction rolls back completely. */
  function Step(s: State, ix: Instruction): State
    requires Shaped(s)
  {
    match Apply(s, ix)
    case Ok(next) => next
    case Err(_) => s
  }
}
