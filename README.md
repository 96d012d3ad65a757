# Virtual Auto Football: a verified model

This project models the betting app "Virtual Football". The app has two parts:

- **The on-chain contract, `VirtualAutoFootball`.** It generates fixtures from
  three league rosters at most once every five minutes, and it resolves them
  with pseudo-random scores. It accepts multi-leg accumulator bets paid in
  ether. A claim pays twice the stake when every leg is right and nothing
  otherwise, and marks the bet claimed either way. The owner can withdraw from
  the same pool.
- **The web client.** It holds a betting slip of (match, prediction) picks and
  turns it into the parallel `matchIds`/`predictions` arrays of a bet. It
  evaluates a bet against the loaded matches (pending, winning or losing) and
  shows cooldown countdowns as `m:ss`. It also has an owner panel that selects
  matches to play, and it abbreviates wallet addresses.

The Solidity contract is not part of this model. The ledger
(`Ledger.VirtualAutoFootball`, a class with `modifies` clauses) says what the
contract's Hardhat test suite asserts and what its ABI fixes:

- names and field order come from `client/lib/contract.ts`;
- the `bets` getter returns only bettor, amount and claimed;
- only `placeBet` is payable.

Each test scenario is a verified method in `LedgerTests`. The method holds for
every pseudo-random choice the contract could make. Fixture picks and scores are
inputs; the only constraint is that a played match's result is not `NotSet`.

A transaction that reverts returns `Reverted(reason)` and changes nothing. The
tests assert only two reverts: "Wait 5 minutes" (`CooldownActive`) and
"Only owner" (`OnlyOwner`). The other revert reasons are modelling assumptions:

- unknown or already played matches in `playMatches`;
- malformed bets;
- unknown, foreign, repeated or unresolved claims;
- payouts or withdrawals larger than the balance.

`placeBet` accepts matches that are already played, because the tests bet on
played matches and expect success.

The ledger keeps an invariant (`Valid`), and every operation preserves it:

- match ids are exactly `1..matchCounter`;
- bet ids are exactly `1..betCounter`;
- a match is played exactly when its result is set;
- every stored bet is well formed;
- the balance equals what was staked minus what was paid out and withdrawn.

Modules, one per source file: `Ledger` and `LedgerTests` (the contract test
suite), `UserDashboard`, `Page` (the home page), `OwnerPanel`, `ContractHook`
(the `useContract` hook), `BettingSlip`, `ContractStatus` and `WalletConnect`.
`Types`, `Seqs` (an order-preserving `filter`) and `Decimal` (`toString` of a
natural number and its inverse) are shared.

Two more remarks on the test suite, which the model does not reproduce:

- `smart_contract/test/VirtualAutoFootball.ts:93-94` reads `bet.matchIds` and
  `bet.predictions` from the `bets` getter, but the getter returns no arrays
  (`client/lib/contract.ts:155-175`). `LedgerTests.PlaceAndStore` reads the
  stored arrays directly.
- `smart_contract/test/VirtualAutoFootball.ts:239` computes `matchCounter - 5 + 1`
  with a bigint `matchCounter`. That mixes bigint and number, which throws once
  more than five matches exist. `LedgerTests.LatestMatches` proves the intended
  bound.

## Model

| member | source | states |
|---|---|---|
| Types.LeagueCode | client/types/contract.ts:1-5 | leagues encode as 0, 1, 2, LaLiga as 0 and SerieA as 2 |
| Types.ResultCode | client/types/contract.ts:7-12 | results encode below 4, and only NotSet encodes as 0 |
| Types.ResultCodeRoundTrip | client/types/contract.ts:7-12 | decoding an encoded result gives it back, and the only code decoding to a result is its own |
| Decimal.ParseNatToString | client/app/page.tsx:67 | reading back the decimal rendering of a number gives the number |
| Ledger.Fixture | smart_contract/test/VirtualAutoFootball.ts:68-72 | a generated fixture has its id, two non-empty team names, is unplayed and has result NotSet |
| Ledger.PlayedWith | smart_contract/test/VirtualAutoFootball.ts:66-73 | a played fixture is marked played with the given result and keeps its id, league and teams |
| Ledger.OneWrongLegLoses | smart_contract/test/VirtualAutoFootball.ts:142-180 | one leg whose result differs from its prediction makes the payout 0 |
| Ledger.NotSetNeverWins | smart_contract/test/VirtualAutoFootball.ts:73 | once the legs are played, a NotSet prediction never wins |
| Ledger.VirtualAutoFootball.constructor | smart_contract/test/VirtualAutoFootball.ts:6-13 | deployment makes the deployer owner, records the deployment time as the last generation, starts with no matches, no bets, zero balance |
| Ledger.VirtualAutoFootball.LeagueTeam | smart_contract/test/VirtualAutoFootball.ts:16-35 | `leagueTeams(l, i)` is defined exactly for indices inside the rosters and is then a non-empty name |
| Ledger.VirtualAutoFootball.CreateMatches | smart_contract/test/VirtualAutoFootball.ts:39-63 | reverts with CooldownActive before 300 s since the last generation; otherwise appends fixtures with ids old matchCounter+1.., restarts the cooldown, keeps old matches, bets and balance |
| Ledger.VirtualAutoFootball.CheckBatch | smart_contract/test/VirtualAutoFootball.ts:66 | accepts a batch exactly when every id names an existing unplayed match and no id repeats |
| Ledger.VirtualAutoFootball.PlayMatches | smart_contract/test/VirtualAutoFootball.ts:66-73 | succeeds exactly on a playable batch; each listed match becomes played with its non-NotSet score, every other match and played match is unchanged |
| Ledger.VirtualAutoFootball.PlaceBet | smart_contract/test/VirtualAutoFootball.ts:78-95 | a well-formed bet on existing (even played) matches gets id betCounter+1, stores caller, value and both arrays unclaimed, and adds the value to the balance |
| Ledger.VirtualAutoFootball.ClaimBet | smart_contract/test/VirtualAutoFootball.ts:97-180 | the result is the ordered claim checks; a successful claim pays 2x the stake when all legs win and 0 otherwise, marks the bet claimed and lowers the balance by the payout |
| Ledger.VirtualAutoFootball.OwnerWithdraw | smart_contract/test/VirtualAutoFootball.ts:184-225 | a non-owner reverts with OnlyOwner; the owner receives exactly the amount and the balance drops by exactly that |
| Ledger.VirtualAutoFootball.GetLatestMatches | smart_contract/test/VirtualAutoFootball.ts:229-245 | at most n matches, the first with id >= max(1, matchCounter - n + 1) (tested); by assumption exactly the last min(n, matchCounter), oldest first |
| Ledger.VirtualAutoFootball.BetInfo | client/lib/contract.ts:155-175 | the `bets` getter returns bettor, amount, claimed of a stored bet and the zero record otherwise; the amount is non-zero exactly for ids 1..betCounter |
| LedgerTests.CreatedIds | smart_contract/test/VirtualAutoFootball.ts:60-63 | the push loop builds exactly [1, ..., matchCounter] |
| LedgerTests.DeployPopulatesLeagues | smart_contract/test/VirtualAutoFootball.ts:16-35 | after deployment the first team of each league is a non-empty string |
| LedgerTests.CreateBeforeCooldown | smart_contract/test/VirtualAutoFootball.ts:39-44 | createMatches within 300 s of deployment reverts with CooldownActive and creates nothing |
| LedgerTests.DeployCreateAndPlay | smart_contract/test/VirtualAutoFootball.ts:46-66 | after the cooldown, creating and playing ids 1..matchCounter leaves every match played with its drawn result and named teams |
| LedgerTests.CreateAndPlay | smart_contract/test/VirtualAutoFootball.ts:46-74 | matchCounter > 0 and match 1 is played, has a non-NotSet result and two non-empty team names |
| LedgerTests.PlaceAndStore | smart_contract/test/VirtualAutoFootball.ts:78-95 | the first bet gets id 1, the getter shows the user as bettor with 1 ETH, and the stored arrays are the inputs |
| LedgerTests.WinningClaimAsTested | smart_contract/test/VirtualAutoFootball.ts:97-140 | the test's winning claim reverts with InsufficientBalance: the pool holds only the 1 ETH stake |
| LedgerTests.WinningClaimFunded | smart_contract/test/VirtualAutoFootball.ts:97-140 | with a second 1 ETH stake in the pool the winning claim pays exactly 2 ETH and marks the bet claimed |
| LedgerTests.IncorrectPredictionAsWritten | smart_contract/test/VirtualAutoFootball.ts:158 | the test's "incorrect" prediction is always 1 (TeamAWin) |
| LedgerTests.IncorrectPredictionAsWrittenCanBeRight | smart_contract/test/VirtualAutoFootball.ts:158 | after a home win the "incorrect" prediction decodes to the actual result |
| LedgerTests.IncorrectPrediction | smart_contract/test/VirtualAutoFootball.ts:157-158 | the intended prediction differs from the result and is never NotSet |
| LedgerTests.LosingClaimAsTested | smart_contract/test/VirtualAutoFootball.ts:142-180 | as written, after a home win the "losing" claim is a winning one and reverts with InsufficientBalance, unclaimed; the withdrawal test's lost bet (:195-199) is the same bet and claim |
| LedgerTests.LoseOneBet | smart_contract/test/VirtualAutoFootball.ts:195-199 | a 1 ETH single with the intended wrong prediction (not the as-written one of :197) is claimed for 0 and leaves 1 ETH in the contract |
| LedgerTests.LosingClaim | smart_contract/test/VirtualAutoFootball.ts:142-180 | a wrong prediction is claimed successfully, pays nothing and is marked claimed |
| LedgerTests.OwnerWithdrawsHalf | smart_contract/test/VirtualAutoFootball.ts:184-219 | after the intended lost bet of LoseOneBet the balance is positive, and withdrawing 0.5 ETH sends exactly 0.5 ETH and lowers the balance by exactly that |
| LedgerTests.NonOwnerWithdraw | smart_contract/test/VirtualAutoFootball.ts:221-225 | a non-owner's withdrawal reverts with OnlyOwner and sends nothing |
| LedgerTests.LatestMatches | smart_contract/test/VirtualAutoFootball.ts:229-245 | getLatestMatches(5) gives at most 5 matches, the first with id >= max(1, matchCounter - 4) and a named home team |
| UserDashboard.GetMatchById | client/components/UserDashboard.tsx:21 | nothing exactly when no match has the id; otherwise the first match with that id |
| UserDashboard.PendingIffLegUnresolved | client/components/UserDashboard.tsx:23-29 | a bet is pending exactly when some leg's match is missing or unplayed |
| UserDashboard.WinningIffEveryLegCorrect | client/components/UserDashboard.tsx:31-36 | a bet is winning exactly when every leg's match exists and the leg is correct |
| UserDashboard.OneWrongLegLoses | client/components/UserDashboard.tsx:31-36 | with every leg played, one wrong prediction makes the bet losing |
| UserDashboard.EmptyBetWins | client/components/UserDashboard.tsx:24-36 | a bet without legs is winning |
| UserDashboard.IsCorrectMeansLegWins | client/components/UserDashboard.tsx:136 | a leg is correct exactly when its match is played and the ledger counts the leg as won; a missing prediction is never correct |
| UserDashboard.StatusAgreesWithLedger | client/components/UserDashboard.tsx:23-37 | on the ledger's matches a fully played bet is never pending, and is winning exactly when the ledger's every-leg rule holds |
| UserDashboard.ShowClaimButton | client/components/UserDashboard.tsx:180 | the claim button shows exactly for a winning unclaimed bet, and only when every leg is played |
| UserDashboard.PotentialWinIsLedgerPayout | client/components/UserDashboard.tsx:85 | the shown potential win is what the ledger pays a winning bet, twice the stake |
| Page.FindEntry | client/app/page.tsx:211 | nothing exactly when the match is not on the slip; otherwise the first entry of the slip for that match |
| Page.AddExistingReplaces | client/app/page.tsx:78-82 | re-picking a match keeps length and order and changes only that match's prediction |
| Page.AddNewAppends | client/app/page.tsx:84 | picking a new match appends it at the end |
| Page.AddKeepsUniqueIds | client/app/page.tsx:76-86 | adding keeps at most one entry per match |
| Page.AddPlacesPick | client/app/page.tsx:76-86 | after an add the match is on the slip and all its entries carry the new prediction |
| Page.FindAfterAdd | client/app/page.tsx:76-86 | looking a match up after adding it yields the new prediction |
| Page.AddIdempotent | client/app/page.tsx:76-86 | adding the same pick twice equals adding it once |
| Page.RemoveDropsMatch | client/app/page.tsx:88-90 | removing drops every entry for the match and keeps the others in order |
| Page.FindAfterRemove | client/app/page.tsx:88-90 | after a remove the lookup finds nothing |
| Page.RemoveKeepsUniqueIds | client/app/page.tsx:88-90 | removing keeps at most one entry per match |
| Page.RemoveUndoesNewAdd | client/app/page.tsx:76-90 | removing a newly added match gives the original slip back |
| Page.TickInRange | client/app/page.tsx:59 | a tick maps 0 to 300 and any other value in [1, 300] to one less |
| Page.TicksFromStart | client/app/page.tsx:55-61 | after n ticks from 300 the countdown is 300 - n mod 301, always within [0, 300] |
| Page.Pad2 | client/app/page.tsx:67 | padding to two characters with leading zeros keeps longer strings and ends with the input |
| Page.FormatTimeReadsBack | client/app/page.tsx:64-68 | the rendering is minutes, ':', two seconds digits; reading back gives s/60 and s mod 60, and mins*60 + secs = s |
| ContractStatus.CountdownReadsBack | client/components/ContractStatus.tsx:21-25 | while generation is closed, the card's m:ss countdown reads back as minutes = wait/60 and seconds = wait mod 60, two digits, summing to the wait |
| Page.BetPlacedClearsSlip | client/app/page.tsx:243-246 | placing a bet empties the slip |
| Page.GenerateResetsCountdown | client/app/page.tsx:70-74 | an enabled generate resets the countdown to 300; while the countdown runs the disabled button changes nothing |
| Page.StepPreservesInv | client/app/page.tsx:55-90 | every page event keeps one entry per match and the countdown within [0, 300] |
| Page.RunPreservesInv | client/app/page.tsx:51-90 | any sequence of events keeps that invariant |
| Page.ReachableStatesKeepInv | client/app/page.tsx:51-62 | every state reached from the initial empty slip and 300 s countdown satisfies the invariant |
| OwnerPanel.ToggleAbsentAppends | client/components/OwnerPanel.tsx:56-61 | toggling an unselected id appends it |
| OwnerPanel.UnselectKeepsOthers | client/components/OwnerPanel.tsx:59 | dropping an id keeps every other id as often as before |
| OwnerPanel.TogglePresentRemoves | client/components/OwnerPanel.tsx:58-59 | toggling a selected id removes every occurrence and keeps the count of every other id |
| OwnerPanel.TogglePresentKeepsOrder | client/components/OwnerPanel.tsx:58-59 | toggling a selected id keeps the remaining ids in their order |
| OwnerPanel.ToggleTwiceRestores | client/components/OwnerPanel.tsx:56-62 | toggling an unselected id twice restores the selection |
| OwnerPanel.SelectAllIsUnplayedIds | client/components/OwnerPanel.tsx:64-66 | select-all gives exactly the unplayed matches' ids, in order, each naming an unplayed match |
| OwnerPanel.NonOwnerSeesNothing | client/components/OwnerPanel.tsx:32-34 | the panel is not drawn without an address or owner, and only for addresses equal to the owner ignoring case |
| OwnerPanel.OwnerPanelState.constructor | client/components/OwnerPanel.tsx:24-25 | the panel starts with an empty selection and an empty amount |
| OwnerPanel.OwnerPanelState.ToggleMatchSelection | client/components/OwnerPanel.tsx:56-62 | the selection becomes its toggle and the amount is untouched |
| OwnerPanel.OwnerPanelState.SelectAllMatches | client/components/OwnerPanel.tsx:64-66 | the selection becomes the unplayed matches' ids |
| OwnerPanel.OwnerPanelState.ClearSelection | client/components/OwnerPanel.tsx:68-70 | the selection becomes empty |
| OwnerPanel.OwnerPanelState.HandlePlayMatches | client/components/OwnerPanel.tsx:36-44 | an empty selection sends nothing; otherwise the selection is sent and always cleared, since `writeContract` does not throw |
| OwnerPanel.OwnerPanelState.HandleWithdraw | client/components/OwnerPanel.tsx:46-54 | an empty amount sends nothing; otherwise the amount is sent and cleared when `parseEther` accepts it, and nothing is sent and the amount kept when it throws |
| ContractHook.TimeUntilIsClampedGap | client/hooks/useContract.ts:124-129 | the countdown is max(0, last + 300 - now), at most 300 once now >= last |
| ContractHook.TimeUntilWithoutLastIsZero | client/hooks/useContract.ts:125 | with no or zero last generation time the countdown is 0 |
| ContractHook.CanGenerateAgreesWithLedger | client/hooks/useContract.ts:131-133 | with a known last time the client's gate opens exactly when createMatches would not revert with CooldownActive |
| ContractHook.Lower | client/hooks/useContract.ts:136 | lower-casing keeps the length and lower-cases each character |
| ContractHook.IsOwnerIgnoresCase | client/hooks/useContract.ts:135-137 | the owner test ignores capitalisation, is symmetric, and fails when either side is missing |
| ContractHook.OwnerRecognisesItself | client/hooks/useContract.ts:135-137 | a non-empty owner address is recognised in any capitalisation |
| ContractHook.TransformMatches | client/hooks/useContract.ts:140-154 | nothing read gives no matches; otherwise the length is kept |
| ContractHook.TransformMatchesRoundTrip | client/hooks/useContract.ts:143-153 | the transform keeps order, scales startTime by 1000, copies every other field, and converting back gives the records read |
| ContractHook.PartitionCovers | client/hooks/useContract.ts:157-159 | played and unplayed lists hold only their kind, share no record, and together hold every record as often as the list |
| ContractHook.PartitionKeepsOrder | client/hooks/useContract.ts:158-159 | each side of the split keeps the original order |
| ContractHook.ToPlaceBetArgs | client/hooks/useContract.ts:77-88 | the converted arguments keep both lengths |
| ContractHook.PlaceBetArgsDecode | client/hooks/useContract.ts:79-80 | ids pass unchanged and each prediction number is below 4 and decodes back to the prediction |
| ContractHook.CounterOrZero | client/hooks/useContract.ts:163-164 | an unread counter is 0, a read one is its value |
| BettingSlip.TotalOddsIsLedgerMultiplier | client/components/BettingSlip.tsx:30-33 | the slip's odds equal the ledger's payout multiplier, 2 |
| BettingSlip.ParseAmount | client/components/BettingSlip.tsx:36 | the stake is not a number exactly when the text starts with neither a digit nor a point followed by a digit; otherwise it is an amount in wei |
| BettingSlip.ParseAmountWholeEther | client/components/BettingSlip.tsx:36 | the whole ether of a parsed stake (its wei divided by 10^18) are the value of its leading digits |
| BettingSlip.ParseAmountOfDecimal | client/components/BettingSlip.tsx:44 | a stake `whole.fraction` with at most 18 fraction digits is exactly whole·10^18 + fraction·10^(18-len) wei, the fraction is not truncated |
| BettingSlip.HalfEtherStake | client/components/BettingSlip.tsx:36-44 | a stake of "0.5" is half an ether and shows a potential win of one ether |
| BettingSlip.ParseAmountOfNumber | client/components/BettingSlip.tsx:44 | a stake written as the digits of n parses to n ether, n·10^18 wei |
| BettingSlip.PotentialWinDoublesStake | client/components/BettingSlip.tsx:36 | the potential win is twice the stake and the profit is the stake; not a number gives 0 and no profit |
| BettingSlip.HandlePlaceBet | client/components/BettingSlip.tsx:38-48 | with an empty stake or slip nothing is emitted and the stake stays; otherwise a bet is emitted and the stake cleared |
| BettingSlip.EmittedArraysRoundTrip | client/components/BettingSlip.tsx:41-45 | both arrays have the slip's length, entry i of each comes from slip entry i, and pairing them gives the slip back |
| BettingSlip.EmittedLegsDistinct | client/components/BettingSlip.tsx:41-42 | a slip with one entry per match emits distinct match ids |
| BettingSlip.EnabledButtonEmits | client/components/BettingSlip.tsx:140 | clicking the enabled button always emits a bet, clears the stake and sends a stake of whole digits as that many ether in wei |
| ContractStatus.AsWrittenAlwaysReady | client/components/ContractStatus.tsx:99 | as written the label is always "Ready", even 1 s after a generation with 299 s to wait |
| ContractStatus.CountdownIsNotReady | client/components/ContractStatus.tsx:99 | a rendered countdown is never the word "Ready" |
| ContractStatus.CorrectedLabelShowsCooldown | client/components/ContractStatus.tsx:99 | calling canGenerateMatches, the label is "Ready" exactly when generation is open, and otherwise the m:ss countdown |
| ContractStatus.ViewAsWrittenSaysReady | client/components/ContractStatus.tsx:29-59 | the shipped card, deployed and connected, shows the counters and "Ready" whatever the time; 1 s after a generation the corrected card shows "4:59" instead |
| ContractStatus.ViewsDifferOnlyInLabel | client/components/ContractStatus.tsx:29-59 | the shipped and corrected cards choose the same branch and counters and differ only in the label, and exactly when generation is closed |
| ContractStatus.ViewPrecedence | client/components/ContractStatus.tsx:29-59 | not deployed wins over wallet not connected, which wins over the statistics |
| ContractStatus.ShippedAddressNeverDeployed | client/components/ContractStatus.tsx:27 | the shipped zero address counts as not deployed, so the card always shows that warning |
| WalletConnect.FormatAddressShape | client/components/WalletConnect.tsx:15 | for addresses of 10+ characters the result is 13 characters: first six, "...", last four |
| WalletConnect.FormatAddressKeepsEnds | client/components/WalletConnect.tsx:14-16 | the result starts with the first (up to) six characters and ends with the last (up to) four |
| WalletConnect.FormatHexAddress | client/components/WalletConnect.tsx:15 | a 42-character 0x address shows "0x", its first four and last four hex digits |
| WalletConnect.ConnectedViewNeedsAddress | client/components/WalletConnect.tsx:18 | the connected view shows exactly when connected and the address is present and non-empty |

## Left out

- The Solidity contract's source is not part of this model. The ledger's contracts come from the tests and the ABI, and the untested revert reasons are modelling assumptions. Whole-batch rejection in `playMatches`, rejection of second claims and of claims on unplayed legs, and the balance checks are among them.
- Pseudo-random fixture and score generation and the goal-to-result rule: no shown code defines them. `CreateMatches` and `PlayMatches` take the picks and scores as inputs. The only constraints are valid roster positions and a result other than NotSet.
- Ledger.VirtualAutoFootball.PlayMatches: whether only the owner may call it is not shown anywhere, so the model does not restrict the caller.
- Ledger.VirtualAutoFootball.CreateMatches: the number of fixtures per round is not shown. Any non-empty list of picks is accepted, and the tests' "at least 3 matches" is a precondition of the scenarios.
- Ledger.VirtualAutoFootball.GetLatestMatches: the tests assert only "at most `count`" matches and a lower bound on the first id. The exact length min(count, matchCounter), the oldest-first order and the empty result with no matches are modelling assumptions; a contract returning the newest first would pass the same tests.
- uint256 wrap-around: counters and balances are unbounded naturals. Gas costs, events and the EVM transfer mechanics are left out too, as are `ethers` bigint-to-number precision above 2^53.
- LedgerTests.PlaceAndStore: it reads the stored arrays directly, because the `bets` getter the test calls does not return them.
- React and wagmi plumbing is left out: `useState`, `setInterval`, `writeContract`, `useReadContract`, `useBalance`, `parseEther` and `formatEther`. The clock enters as a parameter (`nowSeconds`). `writeContract` reports failures through hook state and does not throw, so a handler awaiting a wrapper only sees a throw from argument conversion; whether `parseEther` accepts the withdrawal amount enters `HandleWithdraw` as the `amountParses` flag, because its decimal grammar is not modelled.
- The `createMatches`, `playMatches`, `claimBet` and `ownerWithdraw` wrappers in `useContract.ts` are left out: they only forward to `writeContract`. Only the argument conversion of `placeBet` is modelled.
- BettingSlip.ParseAmount: it models `parseFloat` on unsigned decimals, exactly and in wei, with fraction digits beyond the 18th dropped. A sign, an exponent, leading spaces and "Infinity" are not modelled, nor is the rounding of a binary floating-point number.
- ContractHook.Lower: it lower-cases ASCII letters only, which is all a hex address contains. Unicode case mapping is not modelled.
- The remaining display code is left out: `toFixed`, locale dates and the `MatchCard` component, and the mock match and bet arrays of the page and the dashboard.
- The page's "Payout Rate 2.4x" card (client/app/page.tsx:158) is a fixed string, not the contract's 2x multiplier.

## Findings

| source | as written | input that shows it | evidently intended | confidence | as-written member | corrected member |
|---|---|---|---|---|---|---|
| smart_contract/test/VirtualAutoFootball.ts:133-136 | expects a 2 ETH payout although the only ether in the contract is the bettor's 1 ETH stake (the constructor is nonpayable, only placeBet is payable) | any round in which the 1 ETH bet on matches 1-3 predicts all three results | the pool must hold the payout, e.g. another stake, before the winning claim | not executed | LedgerTests.WinningClaimAsTested | LedgerTests.WinningClaimFunded |
| smart_contract/test/VirtualAutoFootball.ts:158 | `(match1.result === 1) ? 2 : 1` compares an ethers v6 bigint with a number, which is never strictly equal, so the prediction is always 1 | match 1 ends in a home win (result 1n): the "incorrect" prediction 1 is right, the bet wins 2 ETH, and the claim reverts | predict TeamBWin after a home win and TeamAWin otherwise | not executed | LedgerTests.IncorrectPredictionAsWrittenCanBeRight | LedgerTests.IncorrectPrediction |
| smart_contract/test/VirtualAutoFootball.ts:197 | the withdrawal test builds its "losing" bet with the same `(match1.result === 1) ? 2 : 1`, so the prediction is always 1 | match 1 ends in a home win: the bet on it wins, the claim at :199 is 2 ETH against a 1 ETH pool and reverts, and the test stops before the withdrawal | a really wrong prediction, so the claim pays 0 and 1 ETH stays for the owner to withdraw | not executed | LedgerTests.LosingClaimAsTested | LedgerTests.LoseOneBet |
| client/components/ContractStatus.tsx:99 | `canGenerateMatches ? 'Ready' : …` tests the function value, which is always truthy | last generation at 1000 s, now 1001 s: 299 s remain and the card says "Ready" | `canGenerateMatches() ? 'Ready' : formatTime(timeUntilNext)` | not executed | ContractStatus.AsWrittenAlwaysReady | ContractStatus.CorrectedLabelShowsCooldown |
