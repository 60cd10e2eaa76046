/**
  The fixed stablecoin table of the setup test and the raw amounts that
  `setupAll` transfers from each token's whale account to the lending
  contract. The transfers themselves are calls into token contracts; the
  model keeps only which token, from whom, to whom and how much.
*/
module TestSetup {
  import opened DecimalScaling

  /** One stablecoin: its symbol, its token address, the whale account that
      funds the test, its coin index in the three-coin pool and its decimals. */
  datatype Asset = Asset(symbol: string, token: string, whale: string, index: nat, decimals: nat)

  const Dai := Asset("DAI", "0x6B175474E89094C44Da98b954EedeAC495271d0F",
                     "0x28c6c06298d514db089934071355e5743bf21d60", 0, 18)
  const Usdc := Asset("USDC", "0xA0b86991c6218b36c1d19D4a2e9Eb0cE3606eB48",
                      "0xcffad3200574698b78f32232aa9d63eabd290703", 1, 6)
  const Usdt := Asset("USDT", "0xdAC17F958D2ee523a2206206994597C13D831ec7",
                      "0x5754284f345afc66a98fbb0a0afe71e0f007b949", 2, 6)

  /** The lending contract that receives the stablecoins. */
  const LendingContract := "0xe63e0c52605b33a93c1a6d8118f9f801c30d7cf8"

  /** Whole units of each stablecoin that `setupAll` sends. */
  const FundingUnits: nat := 1000000

  /** The stablecoin table in pool-index order. */
  const Assets: seq<Asset> := [Dai, Usdc, Usdt]

  /** One token transfer of `amount` raw units. */
  datatype Transfer = Transfer(token: string, from: string, to: string, amount: nat)

  /** The table is well formed: the indices are distinct and are exactly
      0, 1 and 2, and every asset has 6 or 18 decimals. */
  predicate WellFormed(table: seq<Asset>)
  {
    && (forall i, j :: 0 <= i < j < |table| ==> table[i].index != table[j].index)
    && (set a | a in table :: a.index) == {0, 1, 2}
    && (forall a :: a in table ==> a.decimals == 6 || a.decimals == 18)
  }

  lemma AssetsWellFormed()
    ensures WellFormed(Assets)
    ensures forall i :: 0 <= i < |Assets| ==> Assets[i].index == i
    ensures Assets[0].symbol == "DAI" && Assets[0].decimals == 18
    ensures Assets[1].symbol == "USDC" && Assets[1].decimals == 6
    ensures Assets[2].symbol == "USDT" && Assets[2].decimals == 6
    ensures forall i, j :: 0 <= i < j < |Assets| ==> Assets[i].token != Assets[j].token && Assets[i].whale != Assets[j].whale
  {
    assert (set a | a in Assets :: a.index) == {0, 1, 2} by {
      assert Assets[0].index == 0 && Assets[1].index == 1 && Assets[2].index == 2;
    }
  }

  /** The ERC-20 transfers `setupAll` makes, in order: `FundingUnits` whole
      units of each of the three assets, from its whale to `destination`.
      Every amount is a whole number of units of its asset that normalises
      back to exactly `FundingUnits` with that asset's own decimals; the two
      together fix the raw amount. */
  function SetupAll(destination: string, a1: Asset, a2: Asset, a3: Asset): (plan: seq<Transfer>)
    ensures |plan| == 3
    ensures plan[0].token == a1.token && plan[0].from == a1.whale
    ensures plan[1].token == a2.token && plan[1].from == a2.whale
    ensures plan[2].token == a3.token && plan[2].from == a3.whale
    ensures forall i :: 0 <= i < 3 ==> plan[i].to == destination
    ensures Normalise(plan[0].amount, a1.decimals) == FundingUnits
    ensures Normalise(plan[1].amount, a2.decimals) == FundingUnits
    ensures Normalise(plan[2].amount, a3.decimals) == FundingUnits
    ensures plan[0].amount % Pow10(a1.decimals) == 0
    ensures plan[1].amount % Pow10(a2.decimals) == 0
    ensures plan[2].amount % Pow10(a3.decimals) == 0
  {
    RoundTrip(FundingUnits, a1.decimals);
    RoundTrip(FundingUnits, a2.decimals);
    RoundTrip(FundingUnits, a3.decimals);
    UnnormaliseWhole(FundingUnits, a1.decimals);
    UnnormaliseWhole(FundingUnits, a2.decimals);
    UnnormaliseWhole(FundingUnits, a3.decimals);
    [ Transfer(a1.token, a1.whale, destination, Unnormalise(FundingUnits, a1.decimals)),
      Transfer(a2.token, a2.whale, destination, Unnormalise(FundingUnits, a2.decimals)),
      Transfer(a3.token, a3.whale, destination, Unnormalise(FundingUnits, a3.decimals)) ]
  }

  /** The setup test's own call: 10^24 raw DAI and 10^12 raw USDC and USDT
      go to the lending contract. */
  lemma SetupAllAmounts()
    ensures var plan := SetupAll(LendingContract, Dai, Usdc, Usdt);
      && plan[0].amount == 1_000_000_000_000_000_000_000_000
      && plan[1].amount == 1_000_000_000_000
      && plan[2].amount == 1_000_000_000_000
  {
    assert Pow10(6) == 1_000_000;
    Pow10Add(6, 12);
    assert Pow10(12) == 1_000_000_000_000 by { Pow10Add(6, 6); }
  }

  /** The same whole amount of DAI is 10^12 times as many raw units as of
      USDC or USDT, the difference of their decimals; and reading a raw
      amount with DAI's 18 decimals is reading it with USDC's 6 and then
      dropping 12 more decimal places. */
  lemma DecimalDifference(x: nat, r: nat)
    ensures Unnormalise(x, Dai.decimals) == Unnormalise(x, Usdc.decimals) * Pow10(12)
    ensures Unnormalise(x, Usdc.decimals) == Unnormalise(x, Usdt.decimals)
    ensures Normalise(r, Dai.decimals) == Normalise(Normalise(r, Usdc.decimals), 12)
  {
    UnnormaliseCompose(x, 6, 12);
    NormaliseCompose(r, 6, 12);
  }
}
