/**
 * The on-chain read layer (`ContractService`). The deployed Kreedia contract is an oracle: each
 * view call maps its arguments to `Some(value)`, or to `None` when the call fails (transport
 * error, revert, decoding error). Every public operation catches its failures and answers a fixed
 * default, so each one here is total.
 */
module Contract {
  import opened Wrappers
  import opened Text
  import opened Units

  /** The three configured token addresses (`BLOCKCHAIN_CONFIG.TOKEN_ADDRESSES`). */
  datatype TokenAddresses = TokenAddresses(usdc: string, usdt: string, dai: string)

  /** The Sepolia addresses used when no environment variable overrides them. */
  const DefaultTokenAddresses := TokenAddresses(
    "0x94a9D9AC8a22534E3FaCa9F4e7F2E2cf85d5E4C8",
    "0x7169D38820dfd117C3FA1f22a697dBA58d90BA06",
    "0xFF34B3d4Aee8ddCd6F9AFFFB6Fe49bD371b8a357")

  const NotInitialized := "Contract not initialized. Please check your configuration."

  /** The struct `getMissionDetails` returns on chain; amounts and ids are unsigned integers. */
  datatype MissionStruct = MissionStruct(
    token: string, amount: nat, ngo: string, worker: string, locked: bool, completed: bool,
    beforeNFTId: nat, afterNFTId: nat, timestamp: nat)

  /** The struct `getMissionProgress` returns on chain. */
  datatype ProgressStruct = ProgressStruct(
    missionExists: bool, locked: bool, completed: bool, beforeNFTId: nat, afterNFTId: nat)

  /** The struct `getNFTDetails` returns on chain. */
  datatype NFTStruct = NFTStruct(missionId: nat, photoType: nat, owner: string)

  /** The view functions of the deployed contract, as answered by the node. */
  datatype Chain = Chain(
    workerTotalEarned: (string, string) -> Option<nat>,
    balanceOf: string -> Option<nat>,
    getMissionDetails: string -> Option<MissionStruct>,
    getMissionProgress: string -> Option<ProgressStruct>,
    hasUserMissionNFT: (string, string) -> Option<bool>,
    getNFTDetails: int -> Option<NFTStruct>,
    totalSupply: Option<nat>,
    acceptedTokens: string -> Option<bool>)

  /** The four symbols `getTokenSymbol` can answer. */
  datatype Symbol = USDC | USDT | DAI | UNKNOWN {
    function Name(): (r: string)
      ensures |r| >= 3
    {
      match this
      case USDC => "USDC"
      case USDT => "USDT"
      case DAI => "DAI"
      case UNKNOWN => "UNKNOWN"
    }
  }

  datatype TokenInfo = TokenInfo(address: string, symbol: Symbol, decimals: nat, earnings: string)

  datatype DynamicWorkerEarnings = DynamicWorkerEarnings(tokens: seq<TokenInfo>, totalEarnings: map<Symbol, string>)

  /** The answer of every failed earnings query. */
  const NoEarnings := DynamicWorkerEarnings([], map[])

  datatype WorkerEarnings = WorkerEarnings(usdc: string, usdt: string, dai: string)

  /** `MissionDetails`: the mission struct with its integers rendered as decimal strings. */
  datatype MissionDetails = MissionDetails(
    token: string, amount: string, ngo: string, worker: string, locked: bool, completed: bool,
    beforeNFTId: string, afterNFTId: string, timestamp: string)

  datatype MissionProgress = MissionProgress(
    missionExists: bool, locked: bool, completed: bool, beforeNFTId: string, afterNFTId: string)

  datatype NFTDetails = NFTDetails(missionId: nat, photoType: nat, owner: string)

  predicate SameAddress(a: string, b: string) {
    EqualFold(a, b)
  }

  /** `getTokenSymbol`: the first configured token, in the order USDC, USDT, DAI, whose address matches. */
  function TokenSymbol(config: TokenAddresses, address: string): (r: Symbol)
    ensures r == UNKNOWN <==> !SameAddress(address, config.usdc) && !SameAddress(address, config.usdt) && !SameAddress(address, config.dai)
  {
    if SameAddress(address, config.usdc) then USDC
    else if SameAddress(address, config.usdt) then USDT
    else if SameAddress(address, config.dai) then DAI
    else UNKNOWN
  }

  /** Which symbol each address resolves to: USDC first, then USDT, then DAI, else UNKNOWN. */
  lemma TokenSymbolResolution(config: TokenAddresses, address: string)
    ensures TokenSymbol(config, address) == USDC <==> SameAddress(address, config.usdc)
    ensures TokenSymbol(config, address) == USDT <==> !SameAddress(address, config.usdc) && SameAddress(address, config.usdt)
    ensures TokenSymbol(config, address) == DAI <==>
      !SameAddress(address, config.usdc) && !SameAddress(address, config.usdt) && SameAddress(address, config.dai)
  {
  }

  /**
   * `getTokenDecimals`: 6 for the USDC and USDT addresses, 18 for every other address, so the
   * decimals follow the symbol the address resolves to.
   */
  function TokenDecimals(config: TokenAddresses, address: string): (r: nat)
    ensures r == 6 || r == 18
    ensures r == 6 <==> SameAddress(address, config.usdc) || SameAddress(address, config.usdt)
    ensures r == (if TokenSymbol(config, address) in {USDC, USDT} then 6 else 18)
  {
    if SameAddress(address, config.usdc) || SameAddress(address, config.usdt) then 6
    else if SameAddress(address, config.dai) then 18
    else 18
  }

  /** Resolution ignores letter case: addresses that agree after lower-casing resolve alike. */
  lemma ResolutionIgnoresCase(config: TokenAddresses, a: string, b: string)
    requires Lower(a) == Lower(b)
    ensures TokenSymbol(config, a) == TokenSymbol(config, b)
    ensures TokenDecimals(config, a) == TokenDecimals(config, b)
  {
    EqualFoldLower(a, config.usdc);
    EqualFoldLower(b, config.usdc);
    EqualFoldLower(a, config.usdt);
    EqualFoldLower(b, config.usdt);
    EqualFoldLower(a, config.dai);
    EqualFoldLower(b, config.dai);
  }

  /** The three default addresses are distinct even ignoring case. */
  predicate DistinctAddresses(config: TokenAddresses) {
    !SameAddress(config.usdc, config.usdt) && !SameAddress(config.usdc, config.dai) && !SameAddress(config.usdt, config.dai)
  }

  /** Two strings whose lower-cased characters differ at one position are different addresses. */
  lemma {:induction false} DifferAt(a: string, b: string, i: nat)
    requires i < |a| && i < |b| && LowerChar(a[i]) != LowerChar(b[i])
    ensures !SameAddress(a, b)
  {
    if i > 0 && |a| == |b| {
      DifferAt(a[1..], b[1..], i - 1);
    }
  }

  /** Addresses told apart by their third character are distinct. */
  lemma DistinctByThirdCharacter(c: TokenAddresses)
    requires |c.usdc| > 2 && |c.usdt| > 2 && |c.dai| > 2
    requires LowerChar(c.usdc[2]) != LowerChar(c.usdt[2]) && LowerChar(c.usdc[2]) != LowerChar(c.dai[2])
    requires LowerChar(c.usdt[2]) != LowerChar(c.dai[2])
    ensures DistinctAddresses(c)
  {
    DifferAt(c.usdc, c.usdt, 2);
    DifferAt(c.usdc, c.dai, 2);
    DifferAt(c.usdt, c.dai, 2);
  }

  /** The default addresses ('9', '7' and 'F' after "0x") are distinct. */
  lemma DefaultAddressesDistinct()
    ensures DistinctAddresses(DefaultTokenAddresses)
  {
    DistinctByThirdCharacter(DefaultTokenAddresses);
  }

  /** The configured addresses in the order `getAcceptedTokens` lists them. */
  function ConfiguredTokens(addresses: TokenAddresses): seq<string> {
    [addresses.usdc, addresses.usdt, addresses.dai]
  }

  /**
   * What the service is built with: the configured token addresses and the decimal formatter
   * (`ethers.formatUnits`, whose reference rendering is `Units.FormatUnits`).
   */
  datatype Config = Config(addresses: TokenAddresses, formatUnits: (nat, nat) -> string)

  const DefaultConfig := Config(DefaultTokenAddresses, FormatUnits)

  /** One entry of the earnings list: the address, its symbol and decimals, and the formatted amount. */
  function MakeTokenInfo(config: Config, address: string, raw: nat): (t: TokenInfo)
    ensures t.address == address && t.symbol == TokenSymbol(config.addresses, address)
    ensures t.decimals == TokenDecimals(config.addresses, address)
    ensures t.earnings == config.formatUnits(raw, t.decimals)
  {
    var decimals := TokenDecimals(config.addresses, address);
    TokenInfo(address, TokenSymbol(config.addresses, address), decimals, config.formatUnits(raw, decimals))
  }

  /** The earnings query for `address` succeeds. */
  predicate Answered(chain: Chain, wallet: string, address: string) {
    chain.workerTotalEarned(wallet, address).Some?
  }

  /** The entry for `address` built from the raw amount the chain reports. */
  function TokenAt(chain: Chain, config: Config, wallet: string, address: string): TokenInfo {
    MakeTokenInfo(config, address, chain.workerTotalEarned(wallet, address).GetOr(0))
  }

  /**
   * The per-token queries of `getDynamicWorkerEarnings` (the `Promise.all` over the accepted tokens):
   * one entry per address in order, or None when any one query fails.
   */
  function QueryTokens(chain: Chain, config: Config, wallet: string, addresses: seq<string>): (r: Option<seq<TokenInfo>>)
    ensures r.Some? <==> forall a | a in addresses :: Answered(chain, wallet, a)
    ensures r.Some? ==> |r.value| == |addresses|
    ensures r.Some? ==> forall i | 0 <= i < |addresses| :: r.value[i] == TokenAt(chain, config, wallet, addresses[i])
  {
    if addresses == [] then Some([])
    else
      var n := |addresses| - 1;
      assert forall a :: a in addresses <==> a in addresses[..n] || a == addresses[n];
      match QueryTokens(chain, config, wallet, addresses[..n])
      case None => None
      case Some(front) =>
        match chain.workerTotalEarned(wallet, addresses[n])
        case None => assert !Answered(chain, wallet, addresses[n]); None
        case Some(raw) =>
          var tokens := front + [MakeTokenInfo(config, addresses[n], raw)];
          assert forall i | 0 <= i < n :: tokens[i] == front[i] && addresses[..n][i] == addresses[i];
          Some(tokens)
  }

  /** No later entry shares the symbol of entry `i`. */
  predicate LastWithSymbol(tokens: seq<TokenInfo>, i: nat)
    requires i < |tokens|
  {
    forall j | i < j < |tokens| :: tokens[j].symbol != tokens[i].symbol
  }

  /** `totalEarnings[token.symbol] = token.earnings` for each token in turn. */
  function SymbolTotals(tokens: seq<TokenInfo>): (m: map<Symbol, string>)
    ensures m.Keys == set t | t in tokens :: t.symbol
  {
    if tokens == [] then map[]
    else
      var n := |tokens| - 1;
      var front := tokens[..n];
      assert forall t :: t in tokens <==> t in front || t == tokens[n];
      SymbolTotals(front)[tokens[n].symbol := tokens[n].earnings]
  }

  /** The last writer wins: an entry whose symbol no later entry repeats is the one the map keeps. */
  lemma {:induction false} SymbolTotalsLastWriter(tokens: seq<TokenInfo>, i: nat)
    requires i < |tokens| && LastWithSymbol(tokens, i)
    ensures tokens[i].symbol in SymbolTotals(tokens) && SymbolTotals(tokens)[tokens[i].symbol] == tokens[i].earnings
  {
    assert tokens[i] in tokens;
    var n := |tokens| - 1;
    if i < n {
      var front := tokens[..n];
      assert tokens[n].symbol != tokens[i].symbol;
      assert LastWithSymbol(front, i);
      SymbolTotalsLastWriter(front, i);
    }
  }

  /** One more successful query extends the answered prefix by its entry. */
  lemma QueryTokensStep(chain: Chain, config: Config, wallet: string, addresses: seq<string>, i: nat,
                        tokens: seq<TokenInfo>, raw: nat)
    requires i < |addresses| && QueryTokens(chain, config, wallet, addresses[..i]) == Some(tokens)
    requires chain.workerTotalEarned(wallet, addresses[i]) == Some(raw)
    ensures QueryTokens(chain, config, wallet, addresses[..i + 1]) == Some(tokens + [MakeTokenInfo(config, addresses[i], raw)])
  {
    assert addresses[..i + 1][..i] == addresses[..i];
  }

  /** Filling the map one more entry. */
  lemma SymbolTotalsStep(tokens: seq<TokenInfo>, j: nat)
    requires j < |tokens|
    ensures SymbolTotals(tokens[..j + 1]) == SymbolTotals(tokens[..j])[tokens[j].symbol := tokens[j].earnings]
  {
    assert tokens[..j + 1][..j] == tokens[..j];
  }

  /** What `getDynamicWorkerEarnings` answers for a contract handle. */
  function DynamicEarnings(contract: Option<Chain>, config: Config, wallet: string): DynamicWorkerEarnings {
    match contract
    case None => NoEarnings
    case Some(chain) =>
      match QueryTokens(chain, config, wallet, ConfiguredTokens(config.addresses))
      case None => NoEarnings
      case Some(tokens) => DynamicWorkerEarnings(tokens, SymbolTotals(tokens))
  }

  /** Every configured token's earnings query succeeds. */
  predicate AllAnswered(chain: Chain, config: Config, wallet: string) {
    Answered(chain, wallet, config.addresses.usdc) && Answered(chain, wallet, config.addresses.usdt) &&
    Answered(chain, wallet, config.addresses.dai)
  }

  /**
   * All or nothing: without a contract, or when one query fails, the answer is empty; otherwise it
   * holds one entry per configured token in order, each with its resolved symbol and decimals and
   * its formatted raw earnings, and a symbol map whose key set is exactly the entries' symbols.
   */
  lemma EarningsAllOrNothing(contract: Option<Chain>, config: Config, wallet: string)
    ensures var d := DynamicEarnings(contract, config, wallet);
      (contract.None? || !AllAnswered(contract.value, config, wallet) <==> d == NoEarnings) &&
      (contract.Some? && AllAnswered(contract.value, config, wallet) ==>
        |d.tokens| == 3 &&
        (forall i :: 0 <= i < 3 ==> d.tokens[i] == TokenAt(contract.value, config, wallet, ConfiguredTokens(config.addresses)[i])) &&
        d.totalEarnings.Keys == set t | t in d.tokens :: t.symbol)
  {
    var d := DynamicEarnings(contract, config, wallet);
    if contract.Some? && AllAnswered(contract.value, config, wallet) {
      assert |d.tokens| == 3;
    }
  }

  /** Each configured address resolves to a known symbol, since it is the same address as itself. */
  lemma ConfiguredSymbolKnown(addresses: TokenAddresses, i: nat)
    requires i < 3
    ensures TokenSymbol(addresses, ConfiguredTokens(addresses)[i]) != UNKNOWN
  {
    var a := ConfiguredTokens(addresses)[i];
    EqualFoldEquivalence(a, a, a);
  }

  /** Every symbol the earnings map can hold is one of the three configured symbols. */
  lemma EarningsSymbols(contract: Option<Chain>, config: Config, wallet: string)
    ensures DynamicEarnings(contract, config, wallet).totalEarnings.Keys <= {USDC, USDT, DAI}
  {
    var d := DynamicEarnings(contract, config, wallet);
    EarningsAllOrNothing(contract, config, wallet);
    if d != NoEarnings {
      forall t | t in d.tokens ensures t.symbol != UNKNOWN {
        var i :| 0 <= i < 3 && d.tokens[i] == t;
        ConfiguredSymbolKnown(config.addresses, i);
      }
    }
  }

  /** A formatter whose every rendering reads back as the amount it rendered. */
  ghost predicate RoundTrips(formatUnits: (nat, nat) -> string) {
    forall value: nat, decimals: nat :: ParseUnits(formatUnits(value, decimals), decimals) == Some(value)
  }

  /** The reference rendering is such a formatter. */
  lemma ReferenceFormatterRoundTrips()
    ensures RoundTrips(FormatUnits)
  {
    forall value: nat, decimals: nat ensures ParseUnits(FormatUnits(value, decimals), decimals) == Some(value) {
      FormatUnitsRoundTrip(value, decimals);
    }
  }

  /** Each entry's earnings read back, with the reference formatter, as the raw amount the chain reported. */
  lemma EarningsReadBack(chain: Chain, config: Config, wallet: string, i: nat)
    requires RoundTrips(config.formatUnits) && AllAnswered(chain, config, wallet) && i < 3
    ensures var d := DynamicEarnings(Some(chain), config, wallet);
      var a := ConfiguredTokens(config.addresses)[i];
      |d.tokens| == 3 && ParseUnits(d.tokens[i].earnings, d.tokens[i].decimals) == Some(chain.workerTotalEarned(wallet, a).value)
  {
    EarningsAllOrNothing(Some(chain), config, wallet);
    var d := DynamicEarnings(Some(chain), config, wallet);
    var a := ConfiguredTokens(config.addresses)[i];
    assert Answered(chain, wallet, a);
    var raw := chain.workerTotalEarned(wallet, a).value;
    assert d.tokens[i] == MakeTokenInfo(config, a, raw);
  }

  /** The last writer wins: when USDT resolves to the USDC symbol, its earnings replace USDC's. */
  lemma SharedSymbolKeepsLast(chain: Chain, config: Config, wallet: string)
    requires SameAddress(config.addresses.usdt, config.addresses.usdc)
    requires !SameAddress(config.addresses.dai, config.addresses.usdc)
    requires AllAnswered(chain, config, wallet)
    ensures var d := DynamicEarnings(Some(chain), config, wallet);
      |d.tokens| == 3 && d.totalEarnings.Keys == {USDC, DAI} && d.totalEarnings[USDC] == d.tokens[1].earnings
  {
    var d := DynamicEarnings(Some(chain), config, wallet);
    var c := config.addresses;
    EarningsAllOrNothing(Some(chain), config, wallet);
    EqualFoldEquivalence(c.usdc, c.usdc, c.usdc);
    EqualFoldEquivalence(c.dai, c.dai, c.dai);
    EqualFoldEquivalence(c.dai, c.usdt, c.usdc);
    assert d.tokens[0].symbol == USDC && d.tokens[1].symbol == USDC && d.tokens[2].symbol == DAI;
    assert d.totalEarnings == SymbolTotals(d.tokens);
    SharedFirstSymbol(d.tokens);
  }

  /** Three entries whose first two share the USDC symbol and whose third is DAI. */
  lemma SharedFirstSymbol(ts: seq<TokenInfo>)
    requires |ts| == 3 && ts[0].symbol == USDC && ts[1].symbol == USDC && ts[2].symbol == DAI
    ensures SymbolTotals(ts).Keys == {USDC, DAI} && SymbolTotals(ts)[USDC] == ts[1].earnings
  {
    assert LastWithSymbol(ts, 1);
    SymbolTotalsLastWriter(ts, 1);
    forall t | t in ts ensures t.symbol in {USDC, DAI} {
      var k :| 0 <= k < 3 && ts[k] == t;
    }
    assert ts[0] in ts && ts[2] in ts;
  }

  /** `x || '0'` on an entry of the earnings map: a missing or empty entry reads as "0". */
  function OrZero(m: map<Symbol, string>, key: Symbol): (r: string)
    ensures |r| >= 1
    ensures key in m && m[key] != "" ==> r == m[key]
    ensures key !in m || m[key] == "" ==> r == "0"
  {
    if key in m && m[key] != "" then m[key] else "0"
  }

  /** The compatibility projection of `getWorkerTotalEarned`. */
  function ProjectEarnings(d: DynamicWorkerEarnings): WorkerEarnings {
    WorkerEarnings(OrZero(d.totalEarnings, USDC), OrZero(d.totalEarnings, USDT), OrZero(d.totalEarnings, DAI))
  }

  /** Any failure projects to "0" for each token. */
  lemma ProjectionOnFailure(contract: Option<Chain>, config: Config, wallet: string)
    requires contract.None? || !AllAnswered(contract.value, config, wallet)
    ensures ProjectEarnings(DynamicEarnings(contract, config, wallet)) == WorkerEarnings("0", "0", "0")
  {
    EarningsAllOrNothing(contract, config, wallet);
  }

  /** A formatted amount as the projection reports it: an empty rendering reads as "0". */
  function Reported(s: string): string {
    if s == "" then "0" else s
  }

  /** With distinct addresses each configured token resolves to its own symbol and decimals. */
  lemma ConfiguredResolution(c: TokenAddresses)
    requires DistinctAddresses(c)
    ensures TokenSymbol(c, c.usdc) == USDC && TokenDecimals(c, c.usdc) == 6
    ensures TokenSymbol(c, c.usdt) == USDT && TokenDecimals(c, c.usdt) == 6
    ensures TokenSymbol(c, c.dai) == DAI && TokenDecimals(c, c.dai) == 18
  {
    EqualFoldEquivalence(c.usdc, c.usdt, c.dai);
    EqualFoldEquivalence(c.usdt, c.usdc, c.dai);
    EqualFoldEquivalence(c.dai, c.usdc, c.usdt);
    EqualFoldEquivalence(c.dai, c.usdt, c.usdc);
  }

  /**
   * With distinct configured addresses and every query answered, each of the three fields is the
   * formatted raw earnings of its own token, at 6, 6 and 18 decimals.
   */
  lemma ProjectionOnSuccess(chain: Chain, config: Config, wallet: string)
    requires DistinctAddresses(config.addresses) && AllAnswered(chain, config, wallet)
    ensures var w := ProjectEarnings(DynamicEarnings(Some(chain), config, wallet));
      var c := config.addresses;
      w.usdc == Reported(config.formatUnits(chain.workerTotalEarned(wallet, c.usdc).value, 6)) &&
      w.usdt == Reported(config.formatUnits(chain.workerTotalEarned(wallet, c.usdt).value, 6)) &&
      w.dai == Reported(config.formatUnits(chain.workerTotalEarned(wallet, c.dai).value, 18))
  {
    var d := DynamicEarnings(Some(chain), config, wallet);
    var c := config.addresses;
    EarningsAllOrNothing(Some(chain), config, wallet);
    ConfiguredResolution(c);
    var ts := d.tokens;
    assert ts[0] == TokenAt(chain, config, wallet, c.usdc);
    assert ts[1] == TokenAt(chain, config, wallet, c.usdt);
    assert ts[2] == TokenAt(chain, config, wallet, c.dai);
    assert ts[0].symbol == USDC && ts[1].symbol == USDT && ts[2].symbol == DAI;
    assert d.totalEarnings == SymbolTotals(ts);
    SymbolTotalsLastWriter(ts, 0);
    SymbolTotalsLastWriter(ts, 1);
    SymbolTotalsLastWriter(ts, 2);
  }

  /** `ContractService`: the provider and contract handle, set while the service is constructed. */
  class ContractService {
    const config: Config
    var contract: Option<Chain>

    /**
     * `binding` is the contract handle `new ethers.Contract` produces, or None when constructing
     * the provider or the contract threw.
     */
    constructor(config: Config, binding: Option<Chain>)
      ensures this.config == config && contract == binding
    {
      this.config := config;
      contract := None;
      new;
      InitializeProvider(binding);
    }

    /** `initializeProvider`: a failed construction leaves the handle null. */
    method InitializeProvider(binding: Option<Chain>)
      modifies this
      ensures contract == binding
    {
      contract := binding;
    }

    /** `ensureContract`: the handle, or the configuration error. */
    function EnsureContract(): (r: Result<Chain, string>)
      reads this
      ensures r.Ok? <==> contract.Some?
      ensures r.Ok? ==> r.value == contract.value
      ensures r.Err? ==> r.error == NotInitialized
    {
      match contract
      case None => Err(NotInitialized)
      case Some(c) => Ok(c)
    }

    /** `getAcceptedTokens`: the configured addresses in the order USDC, USDT, DAI, or none without a contract. */
    function GetAcceptedTokens(): (r: seq<string>)
      reads this
      ensures contract.Some? ==> r == [config.addresses.usdc, config.addresses.usdt, config.addresses.dai]
      ensures contract.None? ==> r == []
    {
      if EnsureContract().Ok? then ConfiguredTokens(config.addresses) else []
    }

    /**
     * `getDynamicWorkerEarnings`: query each accepted token in turn, then fill the symbol map in
     * list order. Any failure answers the empty result.
     */
    method GetDynamicWorkerEarnings(wallet: string) returns (r: DynamicWorkerEarnings)
      ensures r == DynamicEarnings(contract, config, wallet)
    {
      var ensured := EnsureContract();
      if ensured.Err? {
        return NoEarnings;
      }
      var chain := ensured.value;
      var accepted := GetAcceptedTokens();
      var tokens: seq<TokenInfo> := [];
      var i := 0;
      while i < |accepted|
        invariant 0 <= i <= |accepted|
        invariant QueryTokens(chain, config, wallet, accepted[..i]) == Some(tokens)
      {
        var earnings := chain.workerTotalEarned(wallet, accepted[i]);
        if earnings.None? {
          assert !Answered(chain, wallet, accepted[i]);
          return NoEarnings;
        }
        var address := accepted[i];
        var symbol := TokenSymbol(config.addresses, address);
        var decimals := TokenDecimals(config.addresses, address);
        var formatted := config.formatUnits(earnings.value, decimals);
        QueryTokensStep(chain, config, wallet, accepted, i, tokens, earnings.value);
        tokens := tokens + [TokenInfo(address, symbol, decimals, formatted)];
        i := i + 1;
      }
      assert accepted[..i] == accepted;
      var totalEarnings: map<Symbol, string> := map[];
      var j := 0;
      while j < |tokens|
        invariant 0 <= j <= |tokens|
        invariant totalEarnings == SymbolTotals(tokens[..j])
      {
        SymbolTotalsStep(tokens, j);
        totalEarnings := totalEarnings[tokens[j].symbol := tokens[j].earnings];
        j := j + 1;
      }
      assert tokens[..j] == tokens;
      r := DynamicWorkerEarnings(tokens, totalEarnings);
    }

    /** `getWorkerTotalEarned`: the three-key projection of the dynamic earnings, missing keys as "0". */
    method GetWorkerTotalEarned(wallet: string) returns (r: WorkerEarnings)
      ensures r == ProjectEarnings(DynamicEarnings(contract, config, wallet))
    {
      var dynamicEarnings := GetDynamicWorkerEarnings(wallet);
      r := WorkerEarnings(
        OrZero(dynamicEarnings.totalEarnings, USDC),
        OrZero(dynamicEarnings.totalEarnings, USDT),
        OrZero(dynamicEarnings.totalEarnings, DAI));
    }

    /** `getUserNFTCount`: the NFT balance, or 0 on any failure. */
    function GetUserNFTCount(wallet: string): (r: nat)
      reads this
      ensures contract.Some? && contract.value.balanceOf(wallet).Some? ==> r == contract.value.balanceOf(wallet).value
      ensures contract.None? || contract.value.balanceOf(wallet).None? ==> r == 0
    {
      match EnsureContract()
      case Err(_) => 0
      case Ok(c) => c.balanceOf(wallet).GetOr(0)
    }

    /** `getMissionDetails`: the struct copied field by field, integers as decimal strings; null on failure. */
    function GetMissionDetails(missionId: string): (r: Option<MissionDetails>)
      reads this
      ensures r.Some? <==> contract.Some? && contract.value.getMissionDetails(missionId).Some?
      ensures r.Some? ==>
        var m := contract.value.getMissionDetails(missionId).value;
        r.value.token == m.token && r.value.ngo == m.ngo && r.value.worker == m.worker &&
        r.value.locked == m.locked && r.value.completed == m.completed &&
        ParseNat(r.value.amount) == Some(m.amount) && ParseNat(r.value.beforeNFTId) == Some(m.beforeNFTId) &&
        ParseNat(r.value.afterNFTId) == Some(m.afterNFTId) && ParseNat(r.value.timestamp) == Some(m.timestamp)
    {
      match EnsureContract()
      case Err(_) => None
      case Ok(c) =>
        match c.getMissionDetails(missionId)
        case None => None
        case Some(m) =>
          NatToStringRoundTrip(m.amount);
          NatToStringRoundTrip(m.beforeNFTId);
          NatToStringRoundTrip(m.afterNFTId);
          NatToStringRoundTrip(m.timestamp);
          Some(MissionDetails(m.token, NatToString(m.amount), m.ngo, m.worker, m.locked, m.completed,
            NatToString(m.beforeNFTId), NatToString(m.afterNFTId), NatToString(m.timestamp)))
    }

    /** `getMissionProgress`: the progress struct with its NFT ids as decimal strings; null on failure. */
    function GetMissionProgress(missionId: string): (r: Option<MissionProgress>)
      reads this
      ensures r.Some? <==> contract.Some? && contract.value.getMissionProgress(missionId).Some?
      ensures r.Some? ==>
        var p := contract.value.getMissionProgress(missionId).value;
        r.value.missionExists == p.missionExists && r.value.locked == p.locked && r.value.completed == p.completed &&
        ParseNat(r.value.beforeNFTId) == Some(p.beforeNFTId) && ParseNat(r.value.afterNFTId) == Some(p.afterNFTId)
    {
      match EnsureContract()
      case Err(_) => None
      case Ok(c) =>
        match c.getMissionProgress(missionId)
        case None => None
        case Some(p) =>
          NatToStringRoundTrip(p.beforeNFTId);
          NatToStringRoundTrip(p.afterNFTId);
          Some(MissionProgress(p.missionExists, p.locked, p.completed, NatToString(p.beforeNFTId), NatToString(p.afterNFTId)))
    }

    /** `hasUserMissionNFT`: the contract's answer, or false on any failure. */
    function HasUserMissionNFT(wallet: string, missionId: string): (r: bool)
      reads this
      ensures r <==> contract.Some? && contract.value.hasUserMissionNFT(wallet, missionId) == Some(true)
    {
      match EnsureContract()
      case Err(_) => false
      case Ok(c) => c.hasUserMissionNFT(wallet, missionId).GetOr(false)
    }

    /** `getNFTDetails`: mission id, photo type (0 before, 1 after) and owner as returned; null on failure. */
    function GetNFTDetails(tokenId: int): (r: Option<NFTDetails>)
      reads this
      ensures r.Some? <==> contract.Some? && contract.value.getNFTDetails(tokenId).Some?
      ensures r.Some? ==>
        var d := contract.value.getNFTDetails(tokenId).value;
        r.value.missionId == d.missionId && r.value.photoType == d.photoType && r.value.owner == d.owner
    {
      match EnsureContract()
      case Err(_) => None
      case Ok(c) =>
        match c.getNFTDetails(tokenId)
        case None => None
        case Some(d) => Some(NFTDetails(d.missionId, d.photoType, d.owner))
    }

    /** `getTotalSupply`: the number of minted NFTs, or 0 on any failure. */
    function GetTotalSupply(): (r: nat)
      reads this
      ensures contract.Some? && contract.value.totalSupply.Some? ==> r == contract.value.totalSupply.value
      ensures contract.None? || contract.value.totalSupply.None? ==> r == 0
    {
      match EnsureContract()
      case Err(_) => 0
      case Ok(c) => c.totalSupply.GetOr(0)
    }

    /** `isTokenAccepted`: the contract's `acceptedTokens` entry, or false on any failure. */
    function IsTokenAccepted(tokenAddress: string): (r: bool)
      reads this
      ensures r <==> contract.Some? && contract.value.acceptedTokens(tokenAddress) == Some(true)
    {
      match EnsureContract()
      case Err(_) => false
      case Ok(c) => c.acceptedTokens(tokenAddress).GetOr(false)
    }
  }
}
