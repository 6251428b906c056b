# Verification of the portfolio engines

Dafny models of the parts of this application that decide things with money or
keep a protocol, and proofs of what they promise. `dafny verify dfyconfig.toml` checks
the whole project.

Amounts, prices and weights are exact reals; sleeve and split sizes are whole
hundredths and ten-thousandths of a percent. Dictionaries whose order matters
(targets, holdings) are sequences. A value the source computes with logarithms,
square roots or a standard deviation is a function parameter, so the results hold
for any such function.

| file | models |
|---|---|
| Basics, Sizing | shared vocabulary; the smallest trade and a name's room |
| Simulator | the backtest's walk over the calendar: cash, shares, average basis, loss bank, tax, dealing cost |
| TradingDays, CostBasis, RoundTrips | which days trade and where they end; average cost; finished round trips |
| Accounting, Causality, UnitInvariance | conservation, solvency, what a day may depend on, and price units, for every run |
| Indicators, Overlays, OverlayMeaning | moving averages, strength, breakouts; the overlays that turn closes into targets, and what their loops amount to |
| Signals, Rotation | what each overlay holds on each day, in terms of the closes |
| Regime, GateMeaning | the market regime, live and in the backtest, and the days it blocks |
| Lookahead, Backtest, OverlayUnits | overlay, gate and simulator end to end |
| Blend, EqualRisk | several sleeves in one book; drawdown and matching it |
| Resilience, SingleFlight, Replies, ColdKeys | token bucket, circuit breaker and retry; the cache and the single-flight protocol as an interleaved step system; what callers are given; when a key is fetched twice |
| SleeveBook, TargetApply, ApplyUndo | the sleeve book, the planner of resizes, applying them and undoing it |
| Funding, WorstFit, Raising | paying for a purchase: from what, in which order, and what a plan that comes short has left |
| FundedBuy, Proposals, Swaps | when a purchase is shown; the ledger threaded through a set of cards; what a labelled swap does to the mix |
| Redeploy, IdleCash, RedeployAccept | putting idle cash to work, what stays idle, and accepting it |
| SplitGrid, SplitMoves, SplitSearch | the split search: lattice, moves, memoised search |
| TradingRules, RuleConditions, RuleBook | one rule over its life; at which prices it fires; a user's rules together |
| NavHistory | time-weighted return over recorded values and flows |

Code that updates variables in loops or fields of objects is modelled as methods
and classes, each proved equal to a function on values; the lemmas are about those
functions.

Where the code and its own documentation differ the model follows the code. The
differences found:

* the planner's refusal that no order of the changes fits can be false
  (`TargetApply.NoOrderRefusalIsWrongIff` gives exactly when);
* a plan it accepts can still be refused one layer down
  (`ApplyUndo.AcceptedPlanCanBeRefused`; `ApplyUndo.ApplyIff` gives exactly when),
  and a refusal there, said to come before any row is touched, leaves the steps before
  it written in a session its caller is then told not to commit
  (`ApplyUndo.RefusalKeepsTheBookIff`);
* the regime score, described as -1 to 1, can go below -1 (`Regime.ScoreInRangeIff`),
  and the breakout rule turns over every day of a market that does not move
  (`OverlayMeaning.FlatMarketAlternates`; `OverlayMeaning.BothDayIff` says on which
  days any market makes it turn over so);
* a key that is cold can be fetched twice (`SingleFlight.ColdKeyFetchedTwice`;
  `ColdKeys.FetchedTwiceMeansMissedBefore` says what must have happened);
* a purchase labelled a swap is said to move no weight and so no drift, but may do
  both (`Swaps.SwapCanRaiseDrift`; `Swaps.MovesNoWeightIff` and
  `Swaps.CashSwapMovesNoWeightIff` give exactly when it moves no weight,
  `Swaps.SwapKeepsDriftIff` and `Swaps.CashSwapKeepsDriftIff` when it does not raise
  drift);
* the one more share that closes a gap is said to be taken when the position can spare
  it, but is not when it would also be the first: a share worth more than what must be
  sold stays unsold, and a plan can come short beside a holding far over its target
  (`Raising.ExpensiveShareStaysUnsold`; `Raising.ShortPlanGaveAll` says what every
  candidate has given when a plan comes short);
* new positions in a redeployment are not clipped by the single-name cap
  (`Redeploy.EveryLegFitsIff` gives exactly when that matters), and accepting one
  fails: the call that would store the new name does not fit that function's
  parameters, so the acceptance raises and nothing is kept
  (`RedeployAccept.AcceptGoesThroughIff`);
* a price alert or cap at a negative level re-arms against the level's absolute
  value and fires against the level itself (`TradingRules.HysteresisIff`);
* switching a rule back on can put two active rules on one ticker
  (`RuleBook.StepKeepsIff`), rules said to be retired are deleted
  (`RuleBook.EvaluationDeletesOrphans`), and an empty position index, left alone by
  the purge as a possible failed read, still switches the rules off
  (`RuleBook.EmptyIndexDisarms`).

## Model

| member | source | states |
|---|---|---|
| Simulator.Simulate | app/engines/strategy_backtest.py:386-477 | the walk over the calendar, with its cash, share, basis, entry and loss-bank variables, ends in the state the day-by-day specification gives, and records each day's value before that day's trading |
| Simulator.SellDown | app/engines/strategy_backtest.py:418-452 | sales come first, in holding order, each one settled against the loss bank the sales before it left |
| Simulator.BuyUp | app/engines/strategy_backtest.py:454-472 | purchases come next, in target order, each one limited to the cash the purchases before it left |
| Simulator.After | app/engines/strategy_backtest.py:396-472 | after any number of days the share, basis and two entry dictionaries have the same keys, each listed once in holding order, and every one has a close on every day |
| Accounting.RebalanceBalances | app/engines/strategy_backtest.py:409-472 | a day's trading moves value out of the book only as tax, dealing cost and forgotten dust: equity before equals equity after plus exactly those three, at the same closes |
| Accounting.DayBalances | app/engines/strategy_backtest.py:409-473 | from before a day's trading to after it, both at that day's closes, the book of every run changes by that day's tax, cost and dust and by nothing else |
| Accounting.RunConserves | app/engines/strategy_backtest.py:396-473 | conservation over every run: a day's value is the starting 100 plus every revaluation of what was held, less all tax, cost and dust so far |
| Accounting.RunTaxBalances | app/engines/strategy_backtest.py:424-435 | over every run tax paid equals the tax rate times gains minus losses plus what is still in the loss bank: no gain is taxed twice and no loss is used twice |
| Accounting.RunSolvent | app/engines/strategy_backtest.py:396-473 | with targets that are not negative and a tax rate and dealing cost that together do not exceed the proceeds, no run ever holds negative cash, shares, basis or loss bank, so buying never borrows |
| Accounting.RunDropsNothing | app/engines/strategy_backtest.py:441-453 | when every target weight is zero or at least half a percent, no run ever forgets a residual holding, so conservation holds with no dust term |
| Accounting.SaleLandsOnTarget | app/engines/strategy_backtest.py:418-440 | a sale leaves the holding worth exactly its target weight of the book |
| TradingDays.DayTradesIff | app/engines/strategy_backtest.py:404-416 | over every run a day on which the book is worth nothing, or its weights stand within one percent in all of the wanted ones, changes nothing; on every other day each holding more than half a percent over its target is sold down to it, and then, out of that cash too, each entry more than that short is bought in target order |
| TradingDays.NothingEndsOver | app/engines/strategy_backtest.py:418-472 | no holding ends a traded day more than half a percent of the book over its target |
| TradingDays.NothingEndsShortIff | app/engines/strategy_backtest.py:454-472 | with cash left over an entry ends within half a percent under its target exactly when the dealing cost of what it was short of is within that, and otherwise ends below it by exactly that cost |
| CostBasis.RunKeepsInvested | app/engines/strategy_backtest.py:421-472 | over every run cash, what the holdings cost on average, all tax and dealing cost and the cost of what was forgotten come to the starting 100 plus gains less losses, and nothing is held short |
| RoundTrips.RunRecordsTrips | app/engines/strategy_backtest.py:441-470 | over every run each finished round trip is recorded once, with the move from the close its holding was opened at to the one it ended at and the days between, and the wins are those that rose |
| Causality.StateIsCausal | app/engines/strategy_backtest.py:404-473 | the state after n days is fixed by the closes of those n days and the targets of the first n - 1 |
| Causality.ValueIsCausal | app/engines/strategy_backtest.py:404-411 | a day's value depends on targets only up to two days before it |
| UnitInvariance.RebalanceInUnits | app/engines/strategy_backtest.py:409-472 | one day's trading on rescaled prices gives the rescaled state: the same sales, purchases, tax and round trips |
| UnitInvariance.RunInUnits | app/engines/strategy_backtest.py:396-477 | multiplying each ticker's prices by its own positive factor leaves a run's cash, tax, loss bank, trade count, turnover and round trips unchanged, with shares and bases restated in the new unit |
| UnitInvariance.ValuesInUnits | app/engines/strategy_backtest.py:404-407 | every daily value is the same in every unit of every ticker's price |
| Indicators.SmaIsWindowMean | app/engines/strategy_backtest.py:79-85 | the difference of running totals is the plain mean of the trailing window, and there is none before the window is full |
| Indicators.ComputeRsi | app/engines/strategy_backtest.py:88-101 | the smoothing loop computes Wilder's strength from the seeded averages and the daily moves |
| Indicators.RsiIsShareOfRises | app/engines/strategy_backtest.py:88-101 | the strength reading is the share of rises in all smoothed moves, in percent |
| Indicators.RsiAtTheEnds | app/engines/strategy_backtest.py:88-101 | it is 100 while nothing has fallen and 0 while every move was a fall |
| Indicators.ComputeConfirm | app/engines/strategy_backtest.py:118-136 | the run counter confirms exactly the days the specification confirms |
| Indicators.ConfirmMeansConsecutive | app/engines/strategy_backtest.py:118-136 | a confirmed day is exactly one that ends the asked number of consecutive raw days |
| Overlays.ComputeChannel | app/engines/strategy_backtest.py:194-214 | the breakout loop holds from an entry over the channel's high until a close under its low |
| Overlays.ComputePullback | app/engines/strategy_backtest.py:217-242 | the pullback loop enters on a weak strength reading in an uptrend and leaves on recovery or on the trend's end |
| Overlays.ComputeBrake | app/engines/strategy_backtest.py:306-337 | the drawdown-brake loop, with its peak and trough, is out from a fall of the limit until a rise of the recovery share |
| Overlays.ComputeSector | app/engines/strategy_backtest.py:340-357 | the sector rotation re-ranks only on its holding days and otherwise keeps what it holds |
| Overlays.ComputeVol | app/engines/strategy_backtest.py:266-303 | the volatility-target loop moves its weight only when the new one leaves the band around the held one, and fills the rest with the base |
| OverlayMeaning.LatchMeansEntered | app/engines/strategy_backtest.py:203-214 | a rule that enters on one kind of day and leaves on another is in exactly when it has entered and not left since, while no day is both |
| OverlayMeaning.BothTurnsOver | app/engines/strategy_backtest.py:207-213 | a day that is both turns the position over, whichever it was |
| OverlayMeaning.ChannelIsALatch | app/engines/strategy_backtest.py:194-214 | the breakout rule enters on a close at the high of its entry window and leaves on one at the low of its exit window, once both windows are full |
| OverlayMeaning.FlatMarketAlternates | app/engines/strategy_backtest.py:194-214 | in a market that does not move every close is both, so the breakout rule goes in and out on alternate days |
| OverlayMeaning.BothDayIff | app/engines/strategy_backtest.py:203-214 | a day is both an entry and an exit exactly when both windows are full, the closes of the shorter one are all alike, and no close of the longer one is beyond them |
| OverlayMeaning.ChannelMeansEntered | app/engines/strategy_backtest.py:194-214 | so until a market stands still for a whole window at such an extreme the breakout rule is in exactly when it has entered and not left since |
| OverlayMeaning.FlatAtExtremeTurnsOver | app/engines/strategy_backtest.py:203-214 | and on a day on which it does, the rule turns over, whichever way it was |
| OverlayMeaning.PullbackIsALatch | app/engines/strategy_backtest.py:217-242 | dip buying enters on weakness inside the uptrend, leaves on strength or the uptrend's end, and never ends a day in outside the uptrend |
| OverlayMeaning.BrakeFollowsItsSpell | app/engines/strategy_backtest.py:325-336 | through a spell in, the peak is the spell's highest close and none was the limit below it; through a spell out, the trough is its lowest and none was the recovery above it |
| OverlayMeaning.LeaderIsTheBest | app/engines/strategy_backtest.py:245-263 | the momentum leader is the first of the universe that nothing beats |
| OverlayMeaning.WinnersAreTheBest | app/engines/strategy_backtest.py:350-354 | every winner rose, there are at most N, and a riser is passed over only when N names did at least as well |
| Signals.AbstainsIff | app/engines/strategy_backtest.py:360-379 | targets come back, one for each day, unless the strategy has no basket or names no known overlay, and the refusal says which |
| Signals.TrendFilterHolds | app/engines/strategy_backtest.py:170-181 | the trend filter holds the basket exactly when each of the last `confirm` closes of the gate stood the band above the plain mean of its own window, and otherwise the base, else the risk-off fund, else nothing |
| Signals.MaCrossHolds | app/engines/strategy_backtest.py:184-191 | the cross holds the basket exactly when on each of the last `confirm` days the fast mean stood over the slow one and the close over its long mean, if one is asked for |
| Signals.DonchianHolds | app/engines/strategy_backtest.py:194-214 | the breakout rule holds the basket exactly while its position is in; until the market stands still at an extreme, exactly when it has entered and not left since |
| Signals.RsiPullbackHolds | app/engines/strategy_backtest.py:217-242 | dip buying holds the basket exactly while a position is in that is taken on weakness inside the uptrend and given up on strength or at the uptrend's end |
| Signals.DrawdownBrakeHolds | app/engines/strategy_backtest.py:306-337 | the brake holds the basket exactly while its position is in: from the start, out on a fall of the limit from the peak of the spell, in again on a rise of the recovery share from its trough |
| Signals.BuyHoldHolds | app/engines/strategy_backtest.py:366-367 | buy and hold holds the basket every day |
| Rotation.DualMomentumHolds | app/engines/strategy_backtest.py:245-263 | dual momentum holds the safe ticker until its window fills, then all of the ticker that rose most over it, or the safe one when none rose |
| Rotation.SectorMomentumHolds | app/engines/strategy_backtest.py:340-357 | sector rotation holds, in equal parts, what had risen most over the window ending on the latest day it ranked, or the base when nothing rose; before the first such day, the base |
| Rotation.VolTargetHolds | app/engines/strategy_backtest.py:266-303 | constant volatility holds the base until its window fills, then its ticker at an exposure that moves only when the one asked for leaves the band, the rest going to the base and entries of half a percent or less dropped |
| Rotation.AskedMeetsTheTarget | app/engines/strategy_backtest.py:293-294 | while the limits allow it the exposure asked for carries exactly the volatility aimed at, and else it is the limit |
| Lookahead.TargetsCut | app/engines/strategy_backtest.py:360-379 | every overlay kind, on a history cut short, gives its own targets cut short: no overlay reads past the day it decides |
| Lookahead.PlanCut | app/engines/strategy_backtest.py:611-622 | the same with the regime gate applied on top of any overlay |
| GateMeaning.GatedPlanHolds | app/engines/strategy_backtest.py:611-622 | with the gate on, a blocked day holds the base, else the risk-off fund, else nothing, and every other day what the overlay asked for |
| Backtest.PlanIsCovered | app/engines/strategy_backtest.py:591-608 | every ticker a plan names on any day is one the needed-ticker list fetched, with a close on every day |
| Backtest.NoLookahead | app/engines/strategy_backtest.py:360-477 | end to end: two histories that agree through day k abstain together or give the same targets, state and values through day k, whatever they hold afterwards, for every overlay, gated or not |
| OverlayUnits.TargetsInUnits | app/engines/strategy_backtest.py:360-379 | every overlay's targets are the same in every price unit of every ticker |
| OverlayUnits.PlanInUnits | app/engines/strategy_backtest.py:611-622 | and stay the same with the regime gate applied |
| OverlayUnits.BacktestInUnits | app/engines/strategy_backtest.py:360-477 | end to end: rescaling the whole close history of any tickers, each by its own positive factor, changes no target, daily value, tax, trade count or round-trip result |
| Regime.ComputeRank | app/engines/regime.py:93-107 | the share of a window's measured values at or below today's, and nothing from fewer than twenty or for an unmeasured day |
| Regime.ComputePercentiles | app/engines/regime.py:93-107 | each day is ranked within its own trailing window, shorter while the history is |
| Regime.ReadingRecent | app/engines/regime.py:110-170 | finite memory: a day's state, score and components depend only on that day's close and the 523 before it |
| Regime.LiveIsBacktest | app/engines/regime.py:173-201 | the live reading on any feed of at least 524 recent closes is the reading the backtest gates on for that day |
| Regime.WarmUpIsNeutral | app/engines/regime.py:164-167 | until the 200-day average exists the state is neutral: never risk-on, and never a block |
| Regime.TrendIsTheBackbone | app/engines/regime.py:149-164 | no mix of breadth and volatility makes a day under the long average risk-on, or one over it risk-off, so the gate never blocks an uptrend |
| Regime.ScoreInRangeIff | app/engines/regime.py:119-120 | the score, described as -1 to 1, never passes 1 and goes below -1 exactly under the average, in stress, with fewer than a third of the set above theirs |
| GateMeaning.MoodIs | app/engines/regime.py:132-167 | the whole state: neutral before the 200-day mean exists; over it risk-on, unless volatility is in the top fifth of its own history and some index of the set is not over its mean; under it risk-off, unless volatility is in the calmer half and more than half of the set is over theirs |
| GateMeaning.GateBlocksIff | app/engines/regime.py:204-214 | so the gate blocks exactly those days under the mean that are not calm with most of the set over theirs |
| Lookahead.GateCut | app/engines/regime.py:204-214 | the gate on a history cut short is the gate cut short |
| OverlayUnits.ReadingInUnits | app/engines/regime.py:110-170 | state, score and every component are the same in every price unit |
| Blend.ComputeBlend | app/engines/blend.py:125-154 | the three loops build, for every day, the accumulated row the specification gives |
| Blend.BlendAddsClaims | app/engines/blend.py:139-141 | a ticker's weight in the blend is the sum of what every sleeve puts on it, scaled by the sleeve's share: two sleeves wanting one ticker share one position |
| Blend.BlendStaysInside | app/engines/blend.py:136-138 | sleeves that each ask for at most their own money never ask for more than their shares together, so the rest is cash and the blend cannot lever the book |
| Blend.BlendNoLookahead | app/engines/blend.py:125-154 | blending adds no foresight: histories that agree through day k give the blended book the same targets and values on every day through k |
| EqualRisk.ComputeEqualRisk | app/engines/blend.py:157-193 | the bisection loop returns the midpoint of the bracket after sixty halvings, or nothing when the book cannot be made that risky |
| EqualRisk.BracketHolds | app/engines/blend.py:183-192 | every halving keeps drawdown below target at the low end and at or above it at the high end, with no assumption that drawdown rises with leverage, and halves the width |
| EqualRisk.EqualRiskIsBracketed | app/engines/blend.py:157-193 | there is an answer exactly when the path at five times leverage is risky enough; it lies strictly inside a bracket 5/2^60 wide across which the target's drawdown is crossed |
| EqualRisk.LeverageCancels | app/engines/blend.py:157-165 | a book whose every return is multiplied traces, at leverage k, the plain book's path at that multiple of k, so matching drawdown undoes leverage |
| EqualRisk.PlainPathIsTheBooks | app/engines/blend.py:176-181 | at leverage one the path is the book's own values, over the first |
| EqualRisk.DrawdownIsWorstFall | app/engines/performance.py:29-34 | on a positive path the running-peak form is the largest fall from any earlier point to any later one, attained by some pair, and lies in [0, 1) |
| Resilience.TokenBucket.constructor | app/providers/resilience.py:94-101 | a bucket starts full, at the time it is made |
| Resilience.TokenBucket.Take | app/providers/resilience.py:103-111 | one request refills up to capacity for the time since the last and is granted exactly when enough is there, taking what it asked |
| Resilience.GrantsAreFunded | app/providers/resilience.py:103-111 | what a run of requests is granted is at most what the bucket held plus what the time in between refilled |
| Resilience.TokensStayWithin | app/providers/resilience.py:103-111 | over every run of requests the bucket stays between empty and full |
| Resilience.RateBound | app/providers/resilience.py:93-111 | whatever the bucket's past, requests spread over some time are granted at most one full bucket plus what that time refills |
| Resilience.RateBoundAnywhere | app/providers/resilience.py:93-111 | the same bound for every stretch of every run, between the times of its first and last request |
| Resilience.SustainedIsGranted | app/providers/resilience.py:103-111 | nothing is refused that the refill has earned: requests each within the capacity and within what was refilled since the one before are granted in full, however empty the bucket was |
| Resilience.CircuitBreaker.constructor | app/providers/resilience.py:61-69 | a breaker starts closed with no failures |
| Resilience.CircuitBreaker.Allow | app/providers/resilience.py:71-78 | an open breaker lets one caller through, half open, once the recovery time has passed, and refuses until then |
| Resilience.CircuitBreaker.RecordSuccess | app/providers/resilience.py:80-83 | a success closes the breaker and forgets the failures |
| Resilience.CircuitBreaker.RecordFailure | app/providers/resilience.py:85-90 | a failure opens the breaker at the threshold or from half open, from this moment |
| Resilience.ClosedMeansFewFailures | app/providers/resilience.py:71-90 | after any history the breaker is closed exactly when the failures since the last success are fewer than the threshold |
| Resilience.OpenRefuses | app/providers/resilience.py:71-90 | once open it refuses every call until a success is recorded or the recovery time has passed since the last failure |
| Resilience.AllowedIff | app/providers/resilience.py:71-90 | after any history of a new breaker a call is let through exactly when the failures since the last success are fewer than the threshold, or the recovery time has passed since the latest of them, or a trial call was let through since it |
| Resilience.Retry | app/providers/resilience.py:137-147 | the first success among the allowed attempts is returned, else an exception is raised, as it is when no attempt is allowed; it calls once per attempt made and pauses, doubling, between attempts but not after the last |
| SingleFlight.TtlCache.Get | app/providers/resilience.py:121-130 | an unexpired value is returned and the cache left alone; an expired one is dropped and reported missing |
| SingleFlight.TtlCache.Set | app/providers/resilience.py:132-134 | a value is stored with the moment it expires, and nothing else changes |
| SingleFlight.InFlight.Claim | app/providers/resilience.py:167-174 | a caller leads exactly when nobody holds the key, and otherwise learns the flight it must wait for |
| SingleFlight.InFlight.Release | app/providers/resilience.py:176-180 | the key leaves the table and its own event is set, and no other event |
| SingleFlight.StepKeepsInv | app/providers/resilience.py:199-228 | every atomic step of every caller keeps the protocol's invariant |
| SingleFlight.RunKeepsInv | app/providers/resilience.py:199-228 | so does every interleaving, with time passing between steps |
| SingleFlight.ReachableIsConsistent | app/providers/resilience.py:167-228 | in every interleaving of any number of callers, from an empty cache, every state is consistent |
| SingleFlight.OneLeaderPerKey | app/providers/resilience.py:167-180 | a key is in the table exactly when one leader that has not released owns it, and never two do |
| SingleFlight.NoLostWakeUp | app/providers/resilience.py:176-180 | a waiter's event is set, or a leader still on its way will set it |
| SingleFlight.SomeoneCanMove | app/providers/resilience.py:199-228 | no deadlock: while any caller has not returned, some caller can move |
| SingleFlight.EveryCallEnds | app/providers/resilience.py:199-228 | no interleaving from the start makes more than seven moves per caller, so every call ends |
| SingleFlight.FollowersFetchOnlyWhenExcused | app/providers/resilience.py:224-228 | a follower fetches for itself only after its own leader's fetch raised, or once what that leader stored had expired |
| SingleFlight.JoinersShareOneFetch | app/providers/resilience.py:210-228 | until what its leader stored expires, the leader's fetch is the only one made on that flight |
| SingleFlight.FollowersShareToo | app/providers/resilience.py:182-227 | what a follower fetches for itself is shared too: until it expires, whoever looks for the key returns at once and fetches nothing |
| SingleFlight.RepliesBelong | app/providers/resilience.py:199-228 | whatever a caller returns was fetched for the key it asked for |
| Replies.RepliesAreOwn | app/providers/resilience.py:199-227 | a caller that fetched returns what its own fetch gave, value or exception, and fetches once, and one that did not returns a value: nobody is handed an exception another's fetch raised |
| Replies.NothingStaleIsServed | app/providers/resilience.py:121-135 | once the time to live has passed with nothing stored, whoever looks goes on to claim or to fetch |
| SingleFlight.ClaimLeadsIffNoLeader | app/providers/resilience.py:210-213 | a claim leads, and so fetches, exactly when no leader of its key is un-released at that moment, even if the value missed has been cached since |
| SingleFlight.ColdKeyFetchedTwice | app/providers/resilience.py:199-228 | so one fetch per cold key is not guaranteed: a run in which the second caller misses before the first stores, claims after it released, and fetches again |
| ColdKeys.FetchedTwiceMeansMissedBefore | app/providers/resilience.py:199-228 | a second leading fetch of a key before what the first leader stored has expired is by a caller that had read the cache, and missed, before that store, and that claimed only after the first leader had released |
| ColdKeys.OnlyClaimersLead | app/providers/resilience.py:205-213 | from a store on, and until it expires, no caller of the key that was not already about to claim ever claims it: one that has yet to read the cache finds the value there |
| ColdKeys.LaterClaimsFollowReleases | app/providers/resilience.py:167-180 | no two flights of a key overlap: from the claim of the later one on, the leader of the earlier has taken it out of the table |
| SleeveBook.ValidateMeansBookFits | app/services/sleeve_service.py:116-155 | a resize is accepted exactly when the size is a size and the book it would make is within the ceiling, the resized sleeve counted once |
| SleeveBook.ValidateIff | app/services/sleeve_service.py:116-155 | a sleeve may be added or resized exactly when the size is a size, the strategy has a name and, to be added, is not run yet, and the book it would make is within the ceiling |
| SleeveBook.SameSizesSameMap | app/services/sleeve_service.py:100-113 | sound books with the same sizes are the same map |
| SleeveBook.Book.AddOrResize | app/services/sleeve_service.py:194-222 | an accepted size is written and no other sleeve changes; a refusal says why and writes nothing |
| SleeveBook.Book.Remove | app/services/sleeve_service.py:225-239 | the sleeve goes and no other changes; false, and nothing written, when the book does not run it |
| TargetApply.FindRepeat | app/services/target_apply.py:85-89 | whether any strategy is named twice |
| TargetApply.Walk | app/services/target_apply.py:125-135 | the running totals after each step, stopped at the first above the ceiling |
| TargetApply.MakePlan | app/services/target_apply.py:56-142 | the planner's answer: which check refuses first, or the ordered steps |
| TargetApply.PeakIsAnEndpoint | app/services/target_apply.py:113-120 | no intermediate book of the chosen order is larger than the larger of the book before and the book after, which is the least any order can reach |
| TargetApply.AcceptedIff | app/services/target_apply.py:56-135 | a well-formed plan is accepted exactly when its final total fits and so does the book after its first decrease |
| TargetApply.FittingPlanIsAccepted | app/services/target_apply.py:93-135 | from a book within the ceiling a well-formed plan is accepted whenever its final total fits |
| TargetApply.NoOrderRefusalIsWrongIff | app/services/target_apply.py:125-135 | the refusal that no order of the changes fits is false exactly when some decrease, not the one to the smallest target, brings the book within the ceiling on its own |
| TargetApply.NoOrderRefusalCanBeWrong | app/services/target_apply.py:125-135 | a book at 95% under an 80% ceiling that is told no order fits although one does |
| ApplyUndo.ExecuteReaches | app/services/target_apply.py:210-223 | whatever sizes the steps were solved against, the book takes exactly those that fit by its own sizes up to the first that does not, which it names; it is sound then, each step taken at its target |
| ApplyUndo.StaleIff | app/services/target_apply.py:145-169 | a set of resizes is stale exactly when some one was solved against a size more than five hundredths of a percent from the one the book holds |
| ApplyUndo.ApplyIff | app/services/target_apply.py:172-233 | a set of resizes is written with no refusal exactly when no size it was solved against is stale, it is well formed, its own totals fit, and so does every running total of the whole book by the book's own sizes; from the book's own sizes this is that no raised sleeve exceeds the book and, if anything is raised, the whole book with the sleeves it does not name still fits |
| ApplyUndo.ApplyReachesTarget | app/services/target_apply.py:209-233 | a successful application leaves each sleeve it resizes at its target, each it names but leaves alone within the tolerance of its own, and every other as it was |
| ApplyUndo.CoveringPlanGoesThrough | app/services/target_apply.py:172-233 | resizes covering the book, from its exact sizes, with each target within the book and the total within the ceiling, are never refused at any step, and the book ends exactly at the targets |
| ApplyUndo.AcceptedPlanCanBeRefused | app/services/target_apply.py:48-51 | the promise that an accepted plan is never refused one layer down fails for a size a hair over the whole book |
| ApplyUndo.UndoRestores | app/services/target_apply.py:262-289 | turning an application around on the book it left restores the sizes it replaced, whatever they were |
| ApplyUndo.Service.ApplyTarget | app/services/target_apply.py:172-245 | writes the plan and logs before and after on success; a refusal leaves the log as it was, and the book too, unless it is the book that refuses a step, which leaves the steps before it written |
| ApplyUndo.RefusalKeepsTheBookIff | app/services/target_apply.py:178-225 | every refusal before the first step leaves the book as it was; one by the book at a step leaves it as it was exactly when no step before it changed a size, which for the book's own sizes is when it is the first |
| ApplyUndo.RefusalCanLeaveAStep | app/services/target_apply.py:178-225 | a full book with one sleeve to shrink and one to grow: the shrinking is written, the growing refused |
| ApplyUndo.Service.RunSteps | app/services/target_apply.py:209-225 | carries the steps out through the book's own validation, naming the one refused |
| ApplyUndo.Service.UndoLast | app/services/target_apply.py:248-289 | turns the newest recorded application around through the same planning, validation and logging |
| ApplyUndo.Turned | app/services/target_apply.py:275-278 | one resize for every strategy either side of the application names, back to what it was |
| ApplyUndo.ApplyUndoUndo | app/services/target_apply.py:248-289 | undo is an involution on the sleeve map: after any successful application, from sizes within the tolerance of the book's, one undo restores the map before it, and a second restores the map after it |
| ApplyUndo.NewestApply | app/services/target_apply.py:258-262 | the first undo's own application row, not its undo row, is what the second undo turns around |
| Funding.ComputeFunding | app/services/funding_service.py:167-288 | the funding loop, with its early exit, its remaining amount and its class budgets, sells what the specification sells |
| Funding.CandidatesAreHoldings | app/services/funding_service.py:110-164 | what may be sold is exactly every row not excluded, worth a trade and scoring at all, as often as it is listed, the worst fit first |
| WorstFit.MayBeSoldIff | app/services/funding_service.py:136-149 | a holding may be sold exactly when it is not barred, is worth a trade, and is past its cap, or its class past its target, or it has less than doubled |
| WorstFit.WorstFitIsFirst | app/services/funding_service.py:110-164 | a holding sold after another fits no worse than it by more than a tenth of the book, and of two that fit alike the one nearer to having doubled is never sold first |
| WorstFit.CashGoesFirst | app/services/funding_service.py:51-53 | a plan draws cash down to the floor and what earlier cards drew, and sells nothing before that is used up |
| Funding.SaleFitsHolding | app/services/funding_service.py:257-277 | a sale is of at least one whole share, of no more than the holding less what earlier cards were promised, at its price and its tax |
| Funding.ClipNeverBinds | app/services/funding_service.py:252-255 | with a cost that is not negative and a tax rate of at most 95% the clip never binds: the tax fraction is exactly the tax on one share over its price |
| Funding.NetIsExact | app/services/funding_service.py:274-282 | so a share nets its price less its tax, and always something |
| Funding.SaleOvershoot | app/services/funding_service.py:255-277 | one sale passes what was still needed by less than one of its own shares, net |
| Funding.RemainingIsExact | app/services/funding_service.py:189-196 | throughout the loop what is left to raise is the request less everything netted so far |
| Funding.FundingIsTight | app/services/funding_service.py:167-288 | funding never passes the request by as much as one share, net, of the last holding sold; paid from cash alone it never passes it |
| Raising.TurnSellsIff | app/services/funding_service.py:220-288 | a candidate sells, at its turn, exactly when a trade is still to be raised, what the rules let go and is free is worth a trade and a share, and what must be sold for the need and its tax is worth a share; it then raises all of the need when it can, to within one net share, and otherwise all it can to within a share |
| Raising.TurnFollowsTheSales | app/services/funding_service.py:189-288 | throughout, what is still to be raised is the request less what the sales made so far net, and each class may still give its overweight less what was sold of it |
| Raising.ShortPlanGaveAll | app/services/funding_service.py:187-196 | when a plan leaves a trade or more unraised every candidate has given all it can: up to within a share, or that was not worth a trade or a share, or one share of it fetches more than had to be sold |
| Raising.OneHoldingIsEnough | app/services/funding_service.py:255-275 | one candidate that can give up all that must be sold leaves less than one of its net shares unraised, and nothing when it has a further share free |
| Raising.WholePositionWhenNothingIsOver | app/services/funding_service.py:245-249 | with nothing in the book overweight, a holding can give up the whole of itself |
| Raising.ExpensiveShareStaysUnsold | app/services/funding_service.py:264-277 | a share worth more than the need stays unsold: a plan leaves all of a 3,000 request unraised beside a holding 30,000 over its target |
| Funding.LoopSellsWithin | app/services/funding_service.py:257-262 | of each ticker the loop sells at most what its rows hold beyond what is already promised |
| Funding.FundSellsWithin | app/services/funding_service.py:182-262 | a plan sells nothing of an excluded ticker, no more of any other than its rows have free, and draws no more cash than is left above the floor |
| Funding.ClassBudgetHolds | app/services/funding_service.py:203-223 | while anything is overweight, what a class has sold plus what is left of its budget is at most its first budget plus, for each of its names sold, that name's own excess and one share |
| Funding.ClassSoldWithinOverweight | app/services/funding_service.py:203-288 | so whatever is asked for, no class is sold past its overweight beyond those same allowances: one budget a class, drawn down once |
| FundedBuy.FundingLedger.constructor | app/services/funding_service.py:546-547 | a ledger starts with nothing promised |
| FundedBuy.FundingLedger.Commit | app/services/funding_service.py:549-553 | a card's cash and each of its sales are added to what is promised |
| FundedBuy.ProposeFundedBuy | app/services/funding_service.py:389-524 | returns the card the specification gives and books it only when there is one; a refusal leaves the ledger alone |
| Proposals.WantedIff | app/services/funding_service.py:428-440 | a purchase is sized exactly when its class is short of its target by a trade, or it may be a swap, and a trade of it has room; and then for the most that the shortfall, the name's cap and the request allow |
| Proposals.CardIff | app/services/funding_service.py:389-531 | a card is shown exactly when a purchase is sized, the book can pay for a trade of it, and what the card would claim of its class and of the whole mix holds; and then for all that can be paid for |
| Proposals.CashPurchaseIsShown | app/services/funding_service.py:389-531 | a purchase for a class that is short, paid from free cash, is always shown, for all that is wanted and with nothing sold, as long as it moves the class by half a point and not past its target |
| FundedBuy.CardIsPaidFor | app/services/funding_service.py:441-461 | the amount on a card is worth trading and is what its funding nets, to within one share of the last holding it sells, after the second planning too |
| FundedBuy.CardKeepsTheCap | app/services/funding_service.py:428-442 | no card takes a name past its cap nor, unless it may be a swap, a class past the money its gap stands for |
| FundedBuy.CardTakesOnlyWhatIsLeft | app/services/funding_service.py:445-449 | a card never sells the name it buys or an excluded one, nor of any row the shares earlier cards were promised, nor cash they were promised |
| FundedBuy.LedgerIsTheCards | app/services/funding_service.py:549-553 | after any requests the ledger holds exactly what the returned cards sell and spend |
| FundedBuy.NothingIsPromisedTwice | app/services/funding_service.py:530-553 | over any set of cards sharing one ledger and one book, sales of a ticker total at most what all its rows hold, cash at most what lies above the floor, and no card sells its own name or an excluded one |
| FundedBuy.BuildCards | app/services/funding_service.py:530-553 | a build threads one ledger through every request in turn |
| Swaps.EveryClaimHolds | app/services/funding_service.py:471-504 | of every card of a build, however many share the ledger, what it claims holds of the book: a claimed move is of half a point at least, toward the target, and makes the book no more overweight as a whole; a swap moves its class less and is offered only to callers that allow one |
| Swaps.DriftIsOverweightTwice | app/services/funding_service.py:493-504 | the distance from the plan that any card adds is exactly twice what it adds to what the classes are together over their targets |
| Swaps.MovesNoWeightIff | app/services/funding_service.py:481-483 | a swap is said to move no weight: in a book without short holdings a card moves none exactly when only the bought class is held, or it sells that class alone for exactly what it buys, or it sells more and the surplus leaves every class in proportion |
| Swaps.CashSwapMovesNoWeightIff | app/services/funding_service.py:481-483 | a card the cash pays for, which is known before it is built, moves no weight exactly when the book holds nothing but the class it buys |
| Swaps.SwapKeepsDriftIff | app/services/funding_service.py:481-504 | a card funded from cash and its own class raises drift exactly when the classes end together further over their targets: never if the sales fetch what is bought; if cash comes in, never while the class ends at or under target, and from at or over it exactly when every other held class ends at or over its own; if tax goes out, the mirror image |
| Swaps.CashSwapKeepsDriftIff | app/services/funding_service.py:481-504 | for a card the cash pays for, from the book, the account and the request alone: drift does not rise exactly when the classes are together no further over their targets in the mix the cash leads to; bought into a class at or over target, exactly when every other held class still ends at or over its own; and with no other class over, it rises by twice what the class gains |
| Swaps.SwapCanRaiseDrift | app/services/funding_service.py:481-504 | a Balanced plan at a 25% cap, ten points over in equities: a thousand of equities bought from cash is labelled a swap, moves weight, and takes the book further from its plan |
| Redeploy.FillHeld | app/services/recommendations.py:1764-1774 | one class's top-ups, lightest first, each within its share, its name's room and what is left |
| Redeploy.FirstPass | app/services/recommendations.py:1755-1793 | each short class gets its share of the surplus, largest shortfall first |
| Redeploy.SecondPass | app/services/recommendations.py:1803-1814 | the single largest trade any short class's holding has room for, the first of equals |
| Redeploy.ComputeRedeploy | app/services/recommendations.py:1711-1842 | the three passes, the last editing the legs in place, end in the plan the specification gives |
| Redeploy.GapsAreTheShortfalls | app/services/recommendations.py:1740-1752 | the classes bought are exactly those short of their target by a trade or more, the shortest first |
| Redeploy.LightestIsSorted | app/services/recommendations.py:1765-1766 | holdings are topped up lightest first, each of them once |
| Redeploy.BestOfIsLargest | app/services/recommendations.py:1803-1809 | the one trade made when every leg is too thin is at least as large as any holding of a short class has room for |
| Redeploy.RedeployIsSound | app/services/recommendations.py:1711-1842 | through all three passes legs and remainder make up the surplus exactly, the remainder is never negative, every leg is worth trading, and every top-up leaves its holding within the single-name cap |
| Redeploy.NewPositionsAreTheOpenings | app/services/recommendations.py:1755-1793 | the new positions are exactly those the gaps alone call for, each at its class's share or its shortfall, whatever the top-ups beside them do |
| Redeploy.EveryLegFitsIff | app/services/recommendations.py:1699-1705 | every leg is said to be clipped by the cap; it is so exactly when no class a name is opened in is due more than that name has room for |
| Redeploy.NewNameCanPassTheCap | app/services/recommendations.py:1776-1784 | a Balanced plan at a 15% cap, all its equities sold, opens one name with more than half of the book |
| IdleCash.EarlierPassesAre | app/services/recommendations.py:1755-1817 | the first passes, from the gaps alone: each short class's new name at its share, or each of its holdings' equal part of it clipped by the name's room, and the one largest trade when no such part is worth one; each class due a trade that nothing can be bought for is recorded with what it was due, and no class that got a leg is |
| IdleCash.NothingStaysIdle | app/services/recommendations.py:1820-1842 | the last pass leaves no trade's worth of cash beside a top-up with a trade's worth of room; it shrinks no leg, changes no new position and adds to a holding only once every lighter one is full |
| IdleCash.NoCardIff | app/services/recommendations.py:1711-1842 | there is no card exactly when no surplus is worth a trade, no class is short by one, or nothing of any short class can be bought |
| RedeployAccept.Account.AcceptRedeploy | app/services/recommendations.py:2210-2276 | buys leg by leg out of cash, or changes nothing at all when a leg is for a name not yet held |
| RedeployAccept.CashPaysForWhatIsBought | app/services/recommendations.py:2235-2274 | whatever prices have done since, cash falls by exactly what was bought and never below zero |
| RedeployAccept.AcceptGoesThroughIff | app/services/recommendations.py:2235-2271 | with cash for all its legs, accepting goes through exactly when every leg that has a live price is for a name already held, and then each of those is bought |
| RedeployAccept.AcceptKeepsTheFloor | app/services/recommendations.py:2212-2217 | accepting the plan on the cash it was made for ends at that cash less what was bought, at or above the floor |
| RedeployAccept.BasisFollowsTheMoney | app/services/recommendations.py:2254-2263 | however many legs top up a holding, its shares grow by what was bought and its total cost by what that cost |
| RedeployAccept.AcceptKeepsValue | app/services/recommendations.py:2234-2272 | accepting only turns cash into holdings: at the live prices both together are worth what they were before, to within what storing the share counts rounds off |
| RedeployAccept.BuyableIff | app/services/recommendations.py:2240-2253 | with counts stored exactly a leg is bought exactly when it has a live price and is for something |
| SplitGrid.ComputeSimplexGrid | app/services/split_solver.py:85-107 | the coarsening loop returns the grid the specification gives |
| SplitGrid.GridPointsAre | app/services/split_solver.py:97-101 | the lattice holds every simplex point whose sizes are multiples of the step and nothing else |
| SplitGrid.GridIsExact | app/services/split_solver.py:97-103 | the lattice is exact, sorted, without repeats, and has C(m + n, n) points for m steps under the ceiling |
| SplitGrid.CoarsenIsExact | app/services/split_solver.py:96-106 | an early return is the full lattice at the first doubling of the step that is affordable |
| SplitGrid.AffordableIff | app/services/split_solver.py:98-104 | a step is coarse enough exactly when at most 200,000 tuples would be built and at most the wanted number of them fit, both counted and not built |
| SplitGrid.CoarsenIsCut | app/services/split_solver.py:96-107 | when no round is coarse enough, the front of the last list that was built is returned, at twice the last step, and nothing when none was |
| SplitGrid.PowerCountsTuples | app/services/split_solver.py:98-100 | the bound that keeps the tuples from being built counts exactly them |
| SplitGrid.FirstOfIsFront | app/services/split_solver.py:107 | a cut grid is the front of it |
| SplitGrid.GridIsNeverCutShort | app/services/split_solver.py:85-107 | for every ceiling under 128 steps the grid is never truncated and never unbuilt, and the step is doubled only while it was too fine |
| SplitMoves.ComputeNeighbours | app/services/split_solver.py:110-138 | the two loops collect the moves in order, each once |
| SplitMoves.NeighboursAre | app/services/split_solver.py:110-138 | from a simplex point the moves are exactly the single steps and opposite pairs that stay on the simplex, sorted, at most n(n + 1) of them, the point itself not among them |
| SplitMoves.NeighboursAreMutual | app/services/split_solver.py:110-138 | every move can be taken back: on the simplex, being a neighbour is mutual |
| SplitSearch.Scorer.constructor | app/services/split_solver.py:285-286 | nothing has been measured yet |
| SplitSearch.Scorer.Score | app/services/split_solver.py:288-299 | answers from the memo when it can, measures otherwise, and never measures a point twice |
| SplitSearch.Scorer.ScoreAll | app/services/split_solver.py:301-302 | the coarse sweep measures the grid in order |
| SplitSearch.Scorer.TryNeighbours | app/services/split_solver.py:333-337 | one round tries every neighbour of the best it started from and moves to each that beats the best so far |
| SplitSearch.Scorer.RefineAt | app/services/split_solver.py:331-339 | at most six rounds at one step, ended early by one that finds nothing better |
| SplitSearch.ComputeSearch | app/services/split_solver.py:264-343 | the whole driver, its log of measurements being exactly the points tried |
| SplitSearch.ChampionLeads | app/services/split_solver.py:314-323 | the coarse winner is a ranked point no other beats, or nothing was admissible |
| SplitSearch.KeyIsTheFirstMeasured | app/services/split_solver.py:304-309 | every point is ranked on the out-of-sample figure exactly when the first point that could be measured has one |
| SplitSearch.SearchIsSound | app/services/split_solver.py:264-343 | whatever is measured: every point tried is on the simplex and measured once, the cost is the sweep plus at most 6 n(n + 1) for each refinement step, nothing tried beats the answer by more than 1e-9, and if the last step ended by itself no neighbour at that step does |
| SplitSearch.WinnerIsAdmissible | app/services/split_solver.py:304-349 | an answer is admissible, and shows as high a figure as any admissible split that was tried, to within 1e-9 |
| SplitSearch.FoundIff | app/services/split_solver.py:280-321 | with a grid built, there is an answer exactly when some split of it is admissible and shows the figure that ranks |
| TradingRules.FiresOncePerArming | app/services/rules_service.py:383-409 | whatever happens to it, a rule fires at most once for each time it is armed |
| TradingRules.OneShotFiresOnce | app/services/rules_service.py:478-511 | a stop, target, trailing stop or dip order is never re-armed by the market, the screen or being dealt with: it fires at most once, and once more each time the user switches it over or sets it again |
| TradingRules.HysteresisHolds | app/services/rules_service.py:75-108 | a standing rule at a level that is not negative that fires k times has seen its value move at least 2(k - 1) times the larger of half a point and 2.5% of the level |
| TradingRules.HysteresisIff | app/services/rules_service.py:91-108 | that promise holds for every run exactly for alerts from below, levels that are not negative, and levels too close under zero to be cleared: re-arming measures the level's absolute value, firing does not |
| TradingRules.TrailingStopWatchesDrawdown | app/services/rules_service.py:253-257 | a newly set trailing stop has fired exactly when some price stood that percentage below the highest price up to it |
| RuleConditions.OrderTriggersIff | app/services/rules_service.py:239-262 | over every run of evaluations a new stop-loss, take-profit or dip order triggers exactly when a price is at its level, in percent of the cost or as a price, and fires once |
| RuleConditions.TrailingTriggersIff | app/services/rules_service.py:253-257 | a new trailing stop triggers exactly when some price is the trail below the same or an earlier one |
| RuleConditions.StandingIsOnIff | app/services/rules_service.py:258-267 | over every run of evaluations an alert or a cap is on exactly when its value has been at its level and has not stood clear of it, by the larger of half a point and 2.5%, since |
| RuleConditions.StandingFiresIff | app/services/rules_service.py:383-409 | whatever has happened to it, it fires exactly when it is armed and its value is at its level |
| RuleConditions.ScreenRearmsIff | app/services/rules_service.py:553-588 | showing the rules changes nothing but this: an alert or a cap that is on, has fired and stands clear of its level is armed again |
| RuleConditions.RelevelledTriggersIff | app/services/rules_service.py:641-653 | an order given a new level while it is on is armed at it, and triggers on the prices at the new level and no other |
| RuleConditions.SignalFiresIff | app/services/rules_service.py:289-298 | a subscription fires, once, exactly when the flip recorded for its strategy turned its ticker from at most half a percent to more, for an entry, or back, for an exit |
| RuleConditions.RequestIff | app/services/rules_service.py:620-660 | a request arms a rule unless it is a subscription that does not say what it follows and which way; alerts are read as prices, trails and caps as percentages, an order as a percentage unless it says price |
| RuleBook.TradingRule.constructor | app/services/rules_service.py:655-657 | a stored rule is what was asked for |
| RuleBook.TradingRule.Evaluate | app/services/rules_service.py:316-413 | one rule's turn: track the peak, latch once, re-arm by a margin, or retire, and report whether it fired |
| RuleBook.TradingRule.Relevel | app/services/rules_service.py:641-648 | a rule set again takes the new level and is armed, in its old place |
| RuleBook.TradingRule.Resolve | app/services/rules_service.py:505-509 | dealing with a rule unlatches it and, if it is one-shot, spends it |
| RuleBook.TradingRule.Toggle | app/services/rules_service.py:857-859 | switching over; back on means armed |
| RuleBook.Book.Create | app/services/rules_service.py:620-656 | an invalid subscription is refused, a duplicate re-levels the rule it would stack on, anything else is added |
| RuleBook.Book.ResolveRule | app/services/rules_service.py:481-511 | exactly the rule of that id, or else the first whose id starts so, is dealt with; false, and nothing changed, when no id does |
| RuleBook.ExactIdIsMeant | app/services/rules_service.py:481-511 | an id in full is meant before the start of another, wherever either stands |
| RuleBook.StartIsMeant | app/services/rules_service.py:481-511 | and without one the first row whose id starts so |
| RuleBook.Book.ToggleRule | app/services/rules_service.py:849-861 | exactly the named rule is switched over |
| RuleBook.Book.DeleteRule | app/services/rules_service.py:838-846 | exactly the named rule goes |
| RuleBook.Book.PurgeOrphans | app/services/rules_service.py:143-183 | rules on tickers not held are deleted, and none on an empty index |
| RuleBook.Book.EvaluateEach | app/services/rules_service.py:312-409 | every remaining rule gets its turn once, and those that fired are returned in order |
| RuleBook.Book.EvaluateAt | app/services/rules_service.py:316-409 | one rule's turn leaves every other rule alone |
| RuleBook.Book.EvaluateUser | app/services/rules_service.py:301-414 | one run of the evaluator: purge, then every rule's turn |
| RuleBook.ClashIff | app/services/rules_service.py:46-71 | two rules contradict each other exactly when both are on, watch one ticker, and are of one protective kind or subscribe to one side of one strategy; price alerts never do |
| RuleBook.StepKeepsIff | app/services/rules_service.py:676-692 | at most one active rule a key: every operation keeps it, except switching a rule back on exactly when another active one has taken its key |
| RuleBook.RunKeepsOnePerKey | app/services/rules_service.py:46-71 | over any run in which no rule is switched back on beside its successor, no ticker ever carries two active rules that contradict each other |
| RuleBook.SwitchingOnCanStack | app/services/rules_service.py:849-861 | a stop switched off, replaced and switched on again leaves two active on one ticker |
| RuleBook.EvaluationDeletesOrphans | app/services/rules_service.py:301-308 | with anything held, every rule on a ticker not held is deleted, subscriptions to enter one included, and the branch that would retire it is never reached |
| RuleBook.EmptyIndexDisarms | app/services/rules_service.py:155-170 | an empty index deletes nothing, but the same run then switches off every rule but strategy subscriptions |
| NavHistory.ComputeNetFlow | app/services/nav_history.py:45-62 | the loop over the ledger sums the flows dated in the half-open window |
| NavHistory.ComputeTimeWeighted | app/services/nav_history.py:65-118 | one pass with the running product returns the cumulative percentage at every snapshot, the flows and their total |
| NavHistory.WindowsAdd | app/services/nav_history.py:45-62 | adjacent windows add up |
| NavHistory.FlowsCountedOnce | app/services/nav_history.py:90-115 | over snapshots in date order the windows' flows add up to the flow after the first date up to the last: each counted once, none on the first day |
| NavHistory.ReturnIsTheMarkets | app/services/nav_history.py:65-118 | whatever was paid in or taken out at each period's end, the chained return is the compound of what the market did |
| NavHistory.ReportedIsTheMarkets | app/services/nav_history.py:105-117 | and in percent it is what every snapshot and the total report |
| NavHistory.SameMarketSameReturn | app/services/nav_history.py:16-22 | two owners in the same market have the same return series, whatever either pays in |
| NavHistory.PureFlowsEarnNothing | app/services/nav_history.py:105-109 | when every change of value is a flow, every period's return is zero |
| NavHistory.SimpleChangeIs | app/services/nav_history.py:121-132 | the endpoint figure is the change in percent of where it started, and nothing without two snapshots or a start |
| NavHistory.NoFlowsTelescopes | app/services/nav_history.py:105-109 | with no flows the chain is the last value over the first |
| NavHistory.WithoutFlowsBothAgree | app/services/nav_history.py:121-132 | and the time-weighted and endpoint figures agree |
| NavHistory.SplitMultiplies | app/services/nav_history.py:90-117 | cut at any shared snapshot, the growth of the pieces multiplies to the growth of the whole |
| NavHistory.DepositsFlatter | app/services/nav_history.py:121-132 | when only deposits were made the endpoint figure never reads below the time-weighted one |

## Left out

- Rounding to cents, to hundredths of a percent in percentages reported, of ranking scores to two places, and floating-point error: arithmetic is exact, except where sizes are whole units and where a share count's rounding is a parameter.
- The cash row and sleeves marked as core are taken out of the holdings beforehand.
- Raising.ShortPlanGaveAll: asks prices and costs that are not negative, positive rates and a tax rate of at most 95%, as do Raising.TurnSellsIff and Raising.OneHoldingIsEnough; Proposals.CashPurchaseIsShown asks a book without short holdings.
- Redeploy.RedeployIsSound: states each leg against its name's whole position, so a name listed under two classes or in two rows is not covered.
- Regime.WarmUpIsNeutral: says nothing about a feed without the primary index, for which the source returns nothing at all.
- SplitGrid.GridIsNeverCutShort: asks for a ceiling under 128 steps; past it the loop may cut its last list or fail with none built, as SplitGrid.CoarsenIsCut says.
- TradingRules.HysteresisIff: quantifies over sightings whose price and weight are not negative, as the position index supplies them.
- NavHistory.ReturnIsTheMarkets: asks that every period starts from a positive value; from a value that is not positive the source carries the level.
- CostBasis.RunKeepsInvested: asks that dealing cost is no more than what is spent, without which a purchase would sell shares.
- TradingDays.DayTradesIff: asks that a target lists a ticker once, as a dictionary does; so do Rotation.VolTargetHolds of the base and TradingDays.NothingEndsShortIff, through the day it speaks of.
- Accounting.RunSolvent: asks that tax and dealing cost together take no more than a sale's proceeds, and that targets are not negative.
- apply_target's cash floor is always zero, because it awaits a function that is not asynchronous and falls back; the floor is a parameter of the planner only.
- Overlay parameters that fail to parse, and histories whose tickers differ in length: the source aligns them before any of this runs.
- Retry's and the breaker's clocks are parameters; threads are steps of a transition system, one per bookkeeping section the locks protect.
- RuleBook.Book.ResolveRule: an id is compared as it is written; other spellings of the same identifier that the source's parser also accepts are not.
- The order ties are broken in by a database query, and identifiers' case and surrounding space.
- Exhaustion of the search's honesty blocks (spread, rank, stability, fit test), backtest metrics, sweeps and out-of-sample splits: summaries of paths already modelled.
- measure_blend's checks on weights and its metrics; core composition: single checks and filters.
- Rule execution plans, notifications, the event log's outcomes, rule suggestions: one branch each, no state of their own.
- Core-row functions and backfills of the sleeve service, and its history of who applied what beyond undo.
- Card prose, audit trails, routes, persistence sessions, schedulers, live providers, broker adapters, push delivery, authentication, Monte Carlo engines, decision scoring, and the rest of the recommendation builders.
