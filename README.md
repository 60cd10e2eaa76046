# Decimal scaling in the DeFiSandbox test suite

DeFiSandbox's JavaScript tests drive Solidity contracts for lending
stablecoins to a Curve pool, staking the pool shares on Convex and swapping
the CRV and CVX rewards. The tests contain only one piece of logic of their own.
That piece is the pair of helpers that convert between human amounts (whole
tokens) and raw amounts (the token's smallest unit):

- `unnormalise(x, d) = x * 10^d`
- `normalise(r, d) = r div 10^d`

Both are written with web3's big-number type. There are two identical copies,
in `test/test-swap-governance.js` and in `test/test-setup.js`. This model has
one definition, module `DecimalScaling`, and it stands for both copies. The model also covers:

- the stablecoin table of the setup test (DAI index 0 with 18 decimals, USDC
  index 1 with 6, USDT index 2 with 6), in module `TestSetup`;
- the transfers `setupAll` makes, 1,000,000 whole units of each coin, in
  module `TestSetup`;
- the arithmetic behind the swap tests' exact-equality assertions, in module
  `SwapGovernanceTests`.

Amounts and decimals are natural numbers. On them big-number `div` is floor
division, which is Dafny's `/`. `Pow10` is defined by recursion on the
exponent. The central property is whole-unit subtraction. Taking `k` whole
units' worth of raw amount out of a balance lowers the normalised balance by
exactly `k`, whatever fraction of a unit the balance holds. This is why the
swap tests can compare normalised balances with `==`.

## Model

| member | source | states |
|---|---|---|
| `DecimalScaling.Pow10` | test/test-swap-governance.js:313 | 10^d is at least 1, so the division in `normalise` is always defined |
| `DecimalScaling.Unnormalise` | test/test-swap-governance.js:316-318 | a nonzero whole amount becomes at least one whole unit `10^d` of raw units, and scaling never makes an amount smaller |
| `DecimalScaling.Normalise` | test/test-swap-governance.js:312-314 | floor division: `unnormalise(normalise(r,d),d) <= r < unnormalise(normalise(r,d)+1,d)` |
| `DecimalScaling.RoundTrip` | test/test-swap-governance.js:312-318 | `normalise(unnormalise(x,d),d) == x` for every amount and every decimals count |
| `DecimalScaling.NormaliseIsGreatest` | test/test-swap-governance.js:312-314 | `x` whole units fit in raw amount `r` exactly when `x <= normalise(r,d)` (both directions) |
| `DecimalScaling.UnnormaliseMonotone` | test/test-swap-governance.js:316-318 | unnormalise is monotone non-decreasing in the amount |
| `DecimalScaling.NormaliseMonotone` | test/test-swap-governance.js:312-314 | normalise is monotone non-decreasing in the raw amount |
| `DecimalScaling.WholeUnitSubtraction` | test/test-swap-governance.js:55-66 | if `unnormalise(k,d) <= r` then `k <= normalise(r,d)` and `normalise(r - unnormalise(k,d), d) == normalise(r,d) - k` |
| `DecimalScaling.ZeroMapsToZero` | test/test-swap-governance.js:130 | `unnormalise(0,d) == 0`, the "no minimum output" value given to swaps, and `normalise(0,d) == 0` |
| `DecimalScaling.BelowOneUnit` | test/test-swap-governance.js:313 | a raw amount normalises to 0 exactly when it is below one whole unit `10^d` (both directions) |
| `DecimalScaling.UnnormaliseWhole` | test/test-swap-governance.js:316-318 | an unnormalised amount is a multiple of `10^d`, a whole number of units |
| `DecimalScaling.Pow10Add` | test/test-setup.js:72 | `10^(a+b) == 10^a * 10^b` |
| `DecimalScaling.UnnormaliseCompose` | test/test-setup.js:75-77 | unnormalising by `a+b` decimals is unnormalising by `a` and then by `b` |
| `DecimalScaling.NormaliseCompose` | test/test-setup.js:71-73 | normalising by `a+b` decimals is normalising by `a` and then by `b` (floor of a floor); it is the normalising half of `TestSetup.DecimalDifference` |
| `DecimalScaling.ZeroDecimalsIdentity` | test/test-setup.js:71-77 | with 0 decimals, both normalise and unnormalise are the identity |
| `TestSetup.AssetsWellFormed` | test/test-setup.js:6-19 | the constant table `Dai`, `Usdc`, `Usdt` (`Assets`): DAI has 18 decimals, USDC and USDT have 6; the indices are distinct and are exactly 0, 1 and 2, each in its table position; every decimals value is 6 or 18; token and whale addresses are pairwise distinct |
| `TestSetup.SetupAll` | test/test-setup.js:45-55 | three transfers, one per asset in argument order, each from that asset's whale to the destination; each amount is a whole number of that asset's units and normalises back to exactly 1000000 (`FundingUnits`) with that asset's own decimals, which together fix it as `1000000 * 10^decimals` |
| `TestSetup.SetupAllAmounts` | test/test-setup.js:31 | the setup call, with `LendingContract` (test/test-setup.js:23) as destination, funds it with `10^24` raw DAI and `10^12` raw USDC and USDT |
| `TestSetup.DecimalDifference` | test/test-setup.js:9-19 | the same whole amount is `10^12` times as many raw DAI units as USDC units; USDC and USDT scale alike; normalising with DAI's 18 decimals is normalising with USDC's 6 and then by 12 more |
| `SwapGovernanceTests.SwapAmount` | test/test-swap-governance.js:55 | the raw swap amount, with the 18 decimals of `Erc20Decimal` (line 13), is a whole number of units and normalises back to `absToSwap` |
| `SwapGovernanceTests.OnlySwapped` | test/test-swap-governance.js:58-66 | the assertion `assert.equal(final, initial - absToSwap)` on normalised balances, with the subtraction on integers; when it holds, `absToSwap` is at most the initial whole balance and the final raw balance is below the whole unit after `initial - absToSwap` |
| `SwapGovernanceTests.ExactDebitPasses` | test/test-swap-governance.js:55-66 | a swap that debits exactly the raw swap amount passes the assertion "normalised balance went down by `absToSwap`" |
| `SwapGovernanceTests.AssertionAccepts` | test/test-swap-governance.js:58-66 | the assertion holds exactly when `absToSwap` is at most the initial whole balance and the final raw balance lies in the whole unit `absToSwap` below it (both directions) |
| `SwapGovernanceTests.CrvSwapScenario` | test/test-swap-governance.js:38-66 | the CRV test's scenario: with `FundedUnits` = 10 CRV funded (line 38) and `AbsToSwap` = 10 (line 53), a swap that debits exactly the swap amount leaves a zero balance, and the assertion holds |
| `SwapGovernanceTests.CvxAssertionAsWritten` | test/test-swap-governance.js:75-83 | the CVX test's assertion as written, against the initial CRV balance; when it holds, the final whole CVX balance plus `absToSwap` equals the initial whole CRV balance |
| `SwapGovernanceTests.CvxAssertionCorrected` | test/test-swap-governance.js:80-83 | the intended CVX assertion, against the initial CVX balance; when it holds, the final whole CVX balance plus `absToSwap` equals the initial whole CVX balance |
| `SwapGovernanceTests.CvxAsWrittenAgreesUnderEqualFunding` | test/test-swap-governance.js:38-41 | when CRV and CVX hold the same whole balance, as after the equal 10-unit funding, the CVX assertion as written accepts exactly what the corrected one accepts |
| `SwapGovernanceTests.CvxAsWrittenRejectsExactSwap` | test/test-swap-governance.js:75-83 | with 20 CRV and 10 CVX, an exact 10-unit CVX swap fails the assertion as written and passes the corrected one |
| `SwapGovernanceTests.CvxCorrectedAcceptsExactSwap` | test/test-swap-governance.js:72-83 | the corrected CVX assertion accepts every exact debit of the swap amount, whatever the CRV balance |

## Left out

- Contract calls are left out because their Solidity source is not part of this model. These are `lendAll`, `withdrawAll`, `stakeAllLP`, `redeemAllStakedLP`, `swapAll`, `curveSwapGovernanceToWETH`, `swapV2`, `swapGovernanceFor3CRV`, `lend` and the `get*Balance` getters. A swap is represented only by the raw balance it leaves.
- ERC-20 `transfer` and `balanceOf` are left out because they are calls into mainnet token contracts. `SetupAll` returns the transfers it would make; it does not perform them.
- `sendETH` is left out. It funds each whale with 1 ether before the token transfers, and it is chain-environment I/O.
- Time travel (`advanceTime`) and the repeated swap loop are left out as chain-environment I/O.
- `toDate` and every `debugDisplayAll`/`displayAll` are left out because they only print to the console.
- The assertions at test/test-setup.js:33-39 are not encoded. They pass an unresolved promise to `normalise` and compare with 0, while their messages say the tokens should be present.
- The skipped test at test/test-swap-governance.js:86-101 is not modelled separately. Its arithmetic is the same as the CRV test's.
- Negative amounts and decimals are left out. The big-number type accepts them, but no caller passes them.
- `SwapGovernanceTests.OnlySwapped` subtracts on unbounded integers. In JavaScript, `initial - absToSwap` turns the big number into a floating-point Number. That loses precision above 2^53 whole units, which the tests' balances (10 units) never reach.
- Reading inputs as JavaScript numbers is not modelled. The helpers' `toBN` of a Number is exact only below 2^53. The amounts used (at most 1000000) are far below that.

## Findings

| source | as written | input that shows it | evidently intended | confidence | as-written member | corrected member |
|---|---|---|---|---|---|---|
| test/test-swap-governance.js:75-83 | the CVX swap test reads its initial balance from the CRV token (`CRV_CONTRACT.balanceOf`) and compares the final CVX balance with it | 20 whole CRV and 10 whole CVX on the contract; an exact 10-unit CVX swap leaves 0 CVX, but the expected value is 20 - 10 = 10 | read the initial balance from `CVX_CONTRACT`, as the message "Only ... of CVX should have been swapped" says; under the equal 10-unit funding of lines 38-41 the assertion as written accepts exactly what the corrected one accepts, so the two differ only when the balances differ | high that the intent differs, not executed | `SwapGovernanceTests.CvxAsWrittenRejectsExactSwap` | `SwapGovernanceTests.CvxCorrectedAcceptsExactSwap` |
