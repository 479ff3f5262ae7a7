# Frontier Isles

Frontier Isles is a board-game engine inside a multiplayer server that survives crashes. This
project models both, and the client at the other end, and proves what their runtime checks,
comments and tests promise.

**The rules engine.** `Engine.Execute` is the step function over the 20 commands, 9 phases and
7 pending decisions. Every runtime assertion the engine evaluates is evaluated here too, and a
failing one makes the step `Threw`. The invariant in `Invariants` is stronger than those
assertions; `Safety` shows that no run ever throws. `Rulebook` states the rules a second time,
as a table of when a command is allowed and what it moves, `Stages` adds where it leads, and
`EngineRules` shows that the engine follows the table, both ways. `Harvest` and `RuleFacts` say the
table's terms again of corners, edges, single cards and points, and `Refusals` what each refusal
means. `Reachability`, `StateFacts`, `AwardMoves` and `Progress` add the order of setup, the legality
of every reachable state, who holds the awards, and that no state is stuck.
The loops the rules are written with are methods, each proved against the function the step
uses (`ProductionLoop`, `RuleLoops`, `LongestRoad`).

**Randomness and the board.** The random words, the rejection loop, the shuffle, the search for
the red numbers, the assembly of the board, the coastline walk and the creation of a game;
`WordNumbers` has the generator on numbers. The board's topology is any one that satisfies
`Board.ValidTopology`, with axial tile coordinates.

**The session protocol.** `Sessions` has what one request does to a game, `SessionRuns` the
machine that runs requests, retries, AI moves, commits with uncertain outcomes, crashes and
recoveries in any order, and `GameSessions` the class with its fields. `SessionActors` says in whose
name commands are executed, `SessionProgress` what gets done. They are generic over the rules;
`OnlineGame` instantiates them with the engine, and `OnlinePlay` and `Decisions` show that an online
game is played by the rule table. `Gateway`, `Delivery` and `CommandDelivery` follow an update and a
command to the client.

**Rooms.** `RoomSteps` has the operations of the Room service, `RoomSafety` the proof that
they keep the service's invariant and save valid records, `RoomEffects` what else they keep, and
`RoomServices` the class. `RoomRules` states the operations a second time, as a table of when each is
granted and what it does, and `RoomTokens` who can take a seat again. `RoomPlay` ties the game a
Room stores to the session authority that plays it, and `RoomStore` runs the whole server over its
repository: operations whose writes overlap, failed saves, crashes and restarts; `RoomProgress` shows
that operations are carried out and that recovery ends.

**Limits.** The token buckets and the limiter that draws on several at once (over reals), and
the walk over untrusted JSON.

The contracts of the costlier helper lemmas begin with `hide *`: they are well-formed whatever the
definitions say, and checking them so keeps the verification short.

Identifiers: players and vertices are integers, an edge is its two endpoints, a tile its axial
coordinate. Occupancy records with null entries are partial maps. Sorted key orders are fields
of the topology. 32-bit words are sequences of 32 booleans.

## Model

| member | source | states |
|---|---|---|
| LongestRoad.DeriveLongestRoadLength | packages/game-core/src/rules/longest-road.ts:42-59 | the loop over owned edges in both directions computes the specification function, which is the length of a longest trail |
| LongestRoad.SearchTrailLengthFrom | packages/game-core/src/rules/longest-road.ts:13-40 | the recursive search with its fresh used-edge sets computes the best continuation, and ends because the unused own edges shrink |
| LongestRoad.SearchIsExact | packages/game-core/src/rules/longest-road.ts:13-59 | the result is the length of some trail of distinct own edges with no building of another player at an inner vertex, and no trail is longer; trails are said of the buildings and roads on the board alone |
| LongestRoad.OpponentsAreAlike | packages/game-core/src/rules/longest-road.ts:8-11 | which other player owns a building makes no difference |
| LongestRoad.InterruptedNeverCounts | packages/game-core/src/rules/longest-road.ts:8-40 | a walk over own edges that is longer than the longest road passes a building of another player |
| LongestRoad.RoadBuiltEffect | packages/game-core/src/rules/longest-road.ts:13-59 | a new road never shortens its owner's longest road and changes nobody else's |
| LongestRoad.SettlementBuiltEffect | packages/game-core/src/rules/longest-road.ts:8-40 | a new settlement never lengthens an opponent's longest road and leaves its owner's alone |
| LongestRoad.CityUpgradeEffect | packages/game-core/src/rules/longest-road.ts:8-40 | a city upgrade changes nobody's longest road |
| LongestRoad.AtMostRoadsOwned | packages/game-core/src/rules/longest-road.ts:42-59 | a longest road never counts more edges than its owner has |
| EngineRules.EngineFollowsTheRules | packages/game-core/src/engine/game-engine.ts:24-93 | on every reachable state a command is accepted exactly when it names the current version and the rule table allows it, and then it moves exactly the pieces, cards, random state and turn the table says and leads to the phase and the pending decision the table names, or, with a winner, to the end of the game |
| Refusals.RefusalsAreTrue | packages/game-core/src/engine/game-engine.ts:24-93 | in every reachable state whatever is refused is refused for a reason that holds, stated for each violation code |
| Engine.RollIsTwoDraws | packages/game-core/src/random/roll-dice.ts:14-34 | each die is the residue modulo six of an accepted word; the second is drawn from the state the first left, and the game goes on from the state the second leaves |
| Safety.EveryRunIsSafe | packages/game-core/src/engine/trading-invariants.ts:101-104 | from a new game, after any commands at all, the whole assertion stack holds, the version counts the accepted commands, and the next command, whatever it is, throws nothing |
| Safety.StepIsSafe | packages/game-core/src/engine/game-engine.ts:24-93 | any command against any state of the inductive invariant is rejected, or accepted one version higher with the invariant kept |
| Safety.RunKeepsInv | packages/game-core/src/engine/game-engine.ts:24-93 | runs of any length keep the invariant and the version count |
| Safety.NewGameInv | packages/game-core/src/engine/create-game.ts:44-103 | the initial state over any valid board, order, deck and random state satisfies the invariant |
| Safety.ShuffledDeckHasAllIds | packages/game-core/src/engine/development-card-invariants.ts:104-148 | any permutation of the standard deck carries each of the 25 identities once |
| InvariantsImplyAssertions.SafeImpliesTrading | packages/game-core/src/engine/trading-invariants.ts:25-104 | the inductive invariant implies the top of the assertion stack |
| InvariantsImplyAssertions.SafeImpliesScoring | packages/game-core/src/engine/scoring-invariants.ts:15-98 | and the scoring assertions: unique cards, leaders hold the awards, a winner is the current player with ten points |
| InvariantsImplyAssertions.CoreImpliesPaid | packages/game-core/src/engine/paid-building-invariants.ts:68-93 | and 19 of each resource in all, and the piece limits |
| InvariantsImplyAssertions.CoreImpliesNormal | packages/game-core/src/engine/normal-turn-invariants.ts:198-311 | and the coherence of phase, roll and pending decision |
| InvariantsImplyAssertions.CoreImpliesRobber | packages/game-core/src/engine/robber-workflow-invariants.ts:16-56 | and outstanding discards that match the hands |
| InvariantsImplyAssertions.CoreImpliesSetup | packages/game-core/src/engine/initial-setup-invariants.ts:62-103 | and the setup assertions |
| SetupSafety.SetupIsSafe | packages/game-core/src/engine/initial-setup-engine.ts:93-191 | both setup commands keep the invariant and never throw |
| SetupSafety.GrantConserves | packages/game-core/src/rules/starting-resource-grant.ts:44-57 | granting moves cards from bank to hand and takes at most one per tile of each kind |
| SetupSafety.GrantInFull | packages/game-core/src/rules/starting-resource-grant.ts:44-69 | with a card of each kind per tile everything asked for is granted |
| EngineRules.GrantIsYield | packages/game-core/src/rules/starting-resource-grant.ts:44-57 | what is then granted is one card for every tile around the settlement but the desert |
| Rules.GrantLoop | packages/game-core/src/rules/starting-resource-grant.ts:44-57 | the loop over the tiles computes the grant, and fails exactly on a tile without content |
| TurnSafety.NormalTurnIsSafe | packages/game-core/src/engine/normal-turn-lifecycle-engine.ts:32-160 | rolls, seven or production, and ends of turn keep the invariant and never throw |
| RobberSafety.RobberIsSafe | packages/game-core/src/engine/robber-workflow-engine.ts:62-252 | discard, move and steal keep the invariant and never throw |
| BuildSafety.PaidBuildingIsSafe | packages/game-core/src/engine/paid-building-engine.ts:36-137 | paid building keeps the invariant and never throws |
| CardSafety.CardsAreSafe | packages/game-core/src/engine/development-card-lifecycle-engine.ts:54-403 | buying, playing, free roads, Invention and Monopoly keep the invariant and never throw, victory in the middle of an effect included |
| CardSafety.MonopolyConserves | packages/game-core/src/rules/development-card-rules.ts:141-169 | a Monopoly conserves every resource and touches no card |
| TradeSafety.TradingIsSafe | packages/game-core/src/engine/trading-engine.ts:41-259 | every trade command keeps the invariant and never throws |
| TradeSafety.ExchangeKeepsResources | packages/game-core/src/rules/domestic-trade-rules.ts:85-115 | an exchange conserves every resource |
| Geometry.SettlementKeepsBoard | packages/game-core/src/rules/initial-settlement-rules.ts:5-24 | a settlement on an open site keeps the distance rule, the piece limits and every road's anchor |
| Geometry.ConnectedIsAnchored | packages/game-core/src/rules/paid-road-rules.ts:25-46 | an edge classified as connected leads, over the player's own roads, to one of the player's buildings |
| RuleFacts.OpenSiteIs | packages/game-core/src/rules/initial-settlement-rules.ts:5-24 | a site is open exactly if it and the other end of every edge at it are free |
| RuleFacts.SpacedIs | packages/game-core/src/rules/paid-settlement-rules.ts:14-22 | the distance rule holds of a board exactly if no edge has buildings at both ends |
| RuleFacts.RoadToIs | packages/game-core/src/rules/paid-settlement-rules.ts:23-27 | a road leads to a vertex exactly if an own edge ends there |
| RuleFacts.TouchesIs | packages/game-core/src/rules/robber-target-rules.ts:34-47 | a player is beside a tile exactly if one of their buildings is at one of its vertices |
| RuleFacts.FairOfferIs | packages/game-core/src/rules/domestic-trade-rules.ts:61-75 | an offer is fair exactly if both sides give something, nothing is negative and no resource goes both ways |
| RuleFacts.NonBlankIs | packages/game-core/src/rules/domestic-trade-rules.ts:29-31 | a trade ID is valid exactly if trimming white space leaves something of it |
| RuleFacts.DrawIs | packages/game-core/src/random/draw-random-resource.ts:39-55 | a theft takes the card at the residue of the first accepted word, counted through the hand |
| RuleFacts.BagFacts | packages/game-core/src/rules/resource-payment.ts:25-57 | adding, paying and covering, resource by resource |
| RuleFacts.SettlementIsOnePoint | packages/game-core/src/rules/scoring.ts:24-62 | nothing scores nothing, and a settlement one point for its owner alone |
| RuleFacts.UpgradeIsOnePoint | packages/game-core/src/rules/scoring.ts:24-62 | a city scores one more than the settlement it replaces |
| RuleFacts.AwardIsTwoPoints | packages/game-core/src/rules/scoring.ts:30-35 | each award scores two for its holder alone |
| RuleFacts.CardIsOnePoint | packages/game-core/src/rules/scoring.ts:36-45 | a Victory Point card scores one, no other card any |
| RuleFacts.RevealIs | packages/game-core/src/engine/scoring-reconciliation.ts:81-113 | a winner turns up exactly the hidden Victory Point cards |
| RuleFacts.OneMoreRoad | packages/game-core/src/rules/player-piece-counts.ts:10-28 | a road counts as one piece for its owner alone |
| Victory.ReconcileAndResolveFacts | packages/game-core/src/engine/scoring-reconciliation.ts:39-121 | reconciling and resolving never throws and restores the full invariant |
| Invariants.HolderLeads | packages/game-core/src/engine/scoring-reconciliation.ts:21-37 | a derived holder meets the minimum and nobody beats it |
| Invariants.DeriveIsIdempotent | packages/game-core/src/engine/scoring-reconciliation.ts:21-37 | deriving a holder again changes nothing |
| AwardMoves.OnlyTheRaisedGain | packages/game-core/src/engine/scoring-reconciliation.ts:21-37 | from a fixpoint, raising one player's value changes nothing or crowns that player |
| AwardMoves.AwardsMoveForTheActor | packages/game-core/src/engine/scoring-reconciliation.ts:39-79 | in every reachable state both awards are fixpoints; a road moves Longest Road only to its builder, a settlement moves it only by cutting a road, the holder's if it is held, a Knight moves Largest Army only to its player, and nothing else moves either |
| AwardMoves.HolderExactly | packages/game-core/src/engine/scoring-reconciliation.ts:21-37 | an award is derived for exactly the holder who still leads, or for whoever leads alone |
| AwardMoves.HoldersAre | packages/game-core/src/engine/scoring-reconciliation.ts:39-79 | in every reachable state the holder of Longest Road has five or more and nobody has more, and whoever has five or more and more than everybody else holds it; the same for Largest Army and three Knights |
| Reachability.SetupIsSnakeOrder | packages/game-core/src/engine/initial-setup-engine.ts:32-91 | setup takes sixteen accepted commands, version, round, index and phase in step, in snake order; from then on turn n belongs to order index (n - 1) mod 4 |
| Reachability.SetupLeavesTwoEach | packages/game-core/src/engine/initial-setup-engine.ts:93-169 | setup leaves every player with two settlements and two roads |
| Reachability.NoStartingShortage | packages/game-core/src/rules/starting-resource-grant.ts:44-69 | the bank is never short when starting resources are granted |
| Reachability.BoardStaysLegal | packages/game-core/src/rules/paid-settlement-rules.ts:14-33 | on every run no two adjacent vertices are both occupied, every road is anchored at one of its owner's buildings, also after a cut, and nobody exceeds 15 roads, 5 settlements, 4 cities |
| Reachability.WinnersAreCurrent | packages/game-core/src/engine/scoring-reconciliation.ts:81-113 | a winner is the current player with ten points or more; with no winner and no Knight being resolved the current player has fewer |
| Reachability.FinishedGameIsFinal | packages/game-core/src/engine/normal-turn-lifecycle-engine.ts:136-160 | a finished game rejects every command |
| StateFacts.NineteenOfEach | packages/game-core/src/engine/paid-building-invariants.ts:76-84 | in every reachable state the four hands and the bank add up to nineteen of each resource, none of them negative |
| StateFacts.BoardIsLegal | packages/game-core/src/engine/paid-building-invariants.ts:86-92 | at most 15 roads, 5 settlements and 4 cities each, no edge with two buildings, tokens from 2 to 12 but no 7, the robber on a tile |
| StateFacts.TurnsAreCoherent | packages/game-core/src/engine/normal-turn-invariants.ts:198-311 | the last roll is a roll of two dice, a seven before discards; whoever has not discarded owes half; an offer on the table can be kept |
| StateFacts.EveryCardIsOnce | packages/game-core/src/engine/development-card-invariants.ts:104-142 | each of the 25 development cards is in exactly one place |
| StateFacts.HeldCardsAre | packages/game-core/src/engine/development-card-invariants.ts:119-136 | held cards are of their standard kind and face up only as the kind allows, and the Knights played are counted |
| Progress.NoStateIsStuck | packages/game-core/src/engine/game-engine.ts:24-93 | in every reachable unfinished state some command of some player is accepted; the lemma returns one |
| Progress.BlockedBound | packages/game-core/src/rules/initial-settlement-rules.ts:5-24 | n settlements block at most 4n vertices, so the seven earlier ones leave a site among 54 |
| Production.PaidOut | packages/game-core/src/rules/resource-production.ts:123-214 | per resource the bank pays all demand if it covers it, nothing if two or more are entitled and it does not, and otherwise its whole remainder |
| Production.ProductionConserves | packages/game-core/src/rules/resource-production.ts:123-214 | production creates no card, takes none from a hand and never drives the bank negative |
| ProductionLoop.CollectCandidates | packages/game-core/src/rules/resource-production.ts:86-117 | the tile-by-tile loop collects each producing tile's claims in player order |
| ProductionLoop.GrantResource | packages/game-core/src/rules/resource-production.ts:132-170 | the in-place grants of one resource, candidate by candidate |
| ProductionLoop.PayCandidates | packages/game-core/src/rules/resource-production.ts:174-195 | paying candidates one by one gives every player the sum of the grants and the bank the rest, never below zero |
| ProductionLoop.PaidToIsShare | packages/game-core/src/rules/resource-production.ts:86-170 | a player's grants add up to the share of the one-line rule |
| ProductionLoop.ProduceResourcesForRoll | packages/game-core/src/rules/resource-production.ts:123-214 | the whole algorithm refines the one-line rule, for hands and bank, and pays every player exactly what the corners say is due |
| Harvest.DemandIsOwed | packages/game-core/src/rules/resource-production.ts:86-117 | what the tiles owe a player is, over the tiles that carry the roll and not the robber, the own settlements at their corners and twice the own cities |
| Harvest.TotalIsOwedToAll | packages/game-core/src/rules/resource-production.ts:123-145 | the demand on the bank is what is owed to all players |
| Harvest.SharesAreDue | packages/game-core/src/rules/resource-production.ts:123-170 | every player gets what is owed if the bank covers all of it, the whole remainder if nobody else is owed any, and else nothing |
| RuleLoops.DerivePlayerPieceCounts | packages/game-core/src/rules/player-piece-counts.ts:10-28 | the two loops count the player's roads, settlements and cities, in any key order |
| RuleLoops.TransferBetween | packages/game-core/src/rules/development-card-rules.ts:122-134 | the resource-by-resource transfer moves a whole bag from giver to taker |
| RuleLoops.TransferMonopolyResource | packages/game-core/src/rules/development-card-rules.ts:141-169 | the loop empties every other hand of the resource and hands the sum to the actor |
| RuleLoops.ExchangeDomesticTradeBundles | packages/game-core/src/rules/domestic-trade-rules.ts:85-115 | the loop exchanges two bundles and throws exactly when a bag is invalid, a bundle is unfair or a party cannot provide |
| RuleLoops.RequiredDiscards | packages/game-core/src/engine/normal-turn-lifecycle-engine.ts:42-50 | hands of more than seven cards owe half, rounded down, and no others |
| RuleLoops.DeriveEligibleRobberTargets | packages/game-core/src/rules/robber-target-rules.ts:25-54 | the owner set and the filter give the other players beside the tile who hold a card, in player order |
| RuleLoops.CountCardPoints | packages/game-core/src/rules/scoring.ts:37-45 | counts the revealed and the hidden Victory Point cards, which together are the card points of the score; it throws exactly on a played one |
| Rules.ClassifyLoop | packages/game-core/src/rules/paid-road-rules.ts:25-46 | the loop with its flag and early returns: connected if some end connects, else blocked if some end is cut, else disconnected |
| Bags.SelectResource | packages/game-core/src/random/draw-random-resource.ts:39-55 | the cumulative loop always resolves to the card at the index; its closing throw is dead |
| Bags.DrawRandomResource | packages/game-core/src/random/draw-random-resource.ts:39-55 | the drawn card is one the hand holds |
| XorShift.StepIsBijection | packages/game-core/src/random/seeded-random.ts:72-75 | the XORSHIFT32 step is a bijection on 32-bit words, with its inverse given |
| XorShift.StepNonZero | packages/game-core/src/random/seeded-random.ts:72-79 | only zero steps to zero, so the forbidden-zero throw is dead |
| DrawBound.TopsAreEven | packages/game-core/src/random/seeded-random.ts:72-75 | over any run of words, an even number of the eleven words at the exponents of the step's characteristic polynomial have their top bit set |
| SeededRandom.SomeDrawIsAccepted | packages/game-core/src/random/seeded-random.ts:113-129 | for every span one of any 33 draws is below the limit, so the unbounded rejection loop ends |
| SeededRandom.NextRandomInt | packages/game-core/src/random/seeded-random.ts:100-130 | the loop stops at the first accepted draw and returns its residue above the lower end, for every span the source allows |
| SeededRandom.AtMostTwoDraws | packages/game-core/src/random/seeded-random.ts:113-129 | for spans up to 8192, all that the game uses, it takes at most two draws |
| SeededRandom.ResiduesAreUniform | packages/game-core/src/random/seeded-random.ts:113-129 | below the limit each residue has exactly floor(2^32 / span) words |
| SeededRandom.NextIntStops | packages/game-core/src/random/seeded-random.ts:113-129 | the drawn number is the residue of the first accepted word |
| SeededRandom.ResultsAreUniform | packages/game-core/src/random/seeded-random.ts:113-129 | each value of the range is drawn for exactly floor(2^32 / span) of the accepted words |
| WordNumbers.StepIs | packages/game-core/src/random/seeded-random.ts:72-79 | the step on words is shifting and adding without carry on the numbers they stand for, by 13, 17 and 5 |
| SeededRandom.CreateInitialRandomState | packages/game-core/src/random/seeded-random.ts:43-64 | the hash over the seed's code units yields a valid state, the fallback included |
| WordNumbers.SeedIs | packages/game-core/src/random/seeded-random.ts:43-64 | the seed state is the FNV-1a hash of the seed's code units, in plain arithmetic, or the fallback |
| SeedHash.OneUnitMatters | packages/game-core/src/random/seeded-random.ts:48-52 | seeds that differ in one code unit have different hashes, whatever surrounds it |
| SeedHash.UnitsAre | packages/game-core/src/random/seeded-random.ts:48-52 | a character is one code unit, or the surrogate pair that stands for it |
| Shuffle.ShuffleWithRandom | packages/game-core/src/random/seeded-random.ts:132-153 | the in-place swaps compute the permutation its draws select |
| Shuffle.DrawsFollow | packages/game-core/src/random/seeded-random.ts:140-150 | each draw of a shuffle is made from the state the one before it left, among the items still to place |
| Shuffle.PermuteIsPermutation | packages/game-core/src/random/seeded-random.ts:140-150 | for every draw vector the result is a permutation of the items |
| Shuffle.PermuteIsInjective | packages/game-core/src/random/seeded-random.ts:140-150 | different draw vectors order distinct items differently |
| Shuffle.PermuteIsSurjective | packages/game-core/src/random/seeded-random.ts:140-150 | every order comes from some draw vector |
| RedNumbers.Search.From | packages/game-core/src/board/standard-board-content.ts:133-156 | the backtracking over one shared list, pushes and pops, returns what the recursive first choice returns and restores the list when it fails |
| RedNumbers.FirstChoiceIsFirst | packages/game-core/src/board/standard-board-content.ts:127-172 | the choice is valid, comes lexicographically before every other valid one, and is missing only if there is none |
| RedNumbers.TenTilesSuffice | packages/game-core/src/board/standard-board-content.ts:127-172 | any ten distinct tiles hold four pairwise non-adjacent ones, by the colouring (q - r) mod 3, so the failure branch is dead |
| RedNumbers.SelectFirstRedNumberTileIds | packages/game-core/src/board/standard-board-content.ts:127-172 | the whole selection returns the tiles of the first choice |
| StandardBoard.CreateStandardInitialBoard | packages/game-core/src/board/standard-board-content.ts:190-269 | no throw of the assembly fires and its closing assertion holds: standard ports, terrains and tokens, red numbers apart, the robber on the desert; and the board is the one the draws select, ports first, then terrains, then tokens |
| RuleFacts.TilesInTheBox | packages/game-core/src/board/standard-board-content.ts:22-42 | four tiles each of forest, pasture and fields, three each of hills and mountains, one desert |
| RuleFacts.TokensInTheBox | packages/game-core/src/board/standard-board-content.ts:44-61 | two red tokens each of six and eight; of the others one two, one twelve and two of each number between but the seven |
| RuleFacts.PortsInTheBox | packages/game-core/src/board/standard-board-content.ts:63-73 | four general ports and one for each resource |
| RuleFacts.DeckIs | packages/game-core/src/model/standard-development-deck.ts:27-34 | fourteen Knights, five Victory Points and two of each other kind |
| GameCreation.CreateGame | packages/game-core/src/engine/create-game.ts:44-103 | a seed and four players give a state that satisfies the invariant and the closing assertion and is a valid start: the board, the player who begins and the deck are the ones the seed's draws select, in that order |
| GameCreation.CreatedGamesAreReachable | packages/game-core/src/engine/create-game.ts:44-103 | so everything said of reachable states holds of created games |
| Coastline.DeriveOrderedCoastlineEdgeIds | packages/game-core/src/board/coastline.ts:20-111 | the walk ends and succeeds exactly when the edges form one simple cycle, and then lists each edge once, end to end; the reused-edge and overrun throws are dead |
| Sessions.RetainedIsReplayed | server/src/game/game-session.ts:375-411 | a retained request changes nothing and, from a seated session of this game while authority is up, gets the retained answer |
| Sessions.ExecutesExactly | server/src/game/game-session.ts:375-411 | a request reaches the engine exactly for a seated Human of this game with an unretained ID, authority up, nobody missing and no failure; otherwise the game is untouched |
| Sessions.ExecutedAsSeated | server/src/game/game-session.ts:375-411 | a request that reaches the engine is executed as the player its session is seated as, its answer is the engine's, and nothing changes but the state and the session's cache, which gains the answer and keeps the newest |
| Sessions.RefusalsAreTrue | server/src/game/game-session.ts:375-411 | every refusal names a ground that holds, and an answer without execution is one retained for this very request |
| Sessions.AiMovesExactly | server/src/game/game-session.ts:453-475 | the AI moves exactly in an active game, for a player it plays or has replaced |
| Sessions.AiStepsExactly | server/src/game/game-session.ts:476-499 | a move is made exactly if the AI found one, has moves left in this game and the engine accepts it from the player who has to decide; otherwise the game fails |
| Sessions.ReplaceableExactly | server/src/game/game-session.ts:243-258 | a seat can be replaced exactly if its Human's time is up in a game neither closed nor over nor failed |
| SessionRuns.RunKeeps | server/src/game/game-session.ts:350-451 | any run of requests, duplicates, AI moves, presence changes, replacements, failed commits, crashes, recoveries and evictions keeps the protocol invariant |
| SessionRuns.AtMostOnce | server/src/game/game-session.ts:375-411 | on every such run no request occurs twice among the commands applied durably, and the durable state is their replay |
| SessionRuns.RepliesAreDurable | server/src/game/game-session.ts:350-366 | every successful reply, accepted or not, is one of the answers a durable commit recorded; an accepted one names its request's place in the history |
| SessionRuns.RepliesAreStable | server/src/game/game-session.ts:375-411 | as long as the entry of a request is kept, in memory or, while the server is down, in the record, every reply to it equals the first one, over crashes and recoveries too |
| SessionRuns.ExecutionIsRetained | server/src/game/game-session.ts:396-410 | executing a request retains its result |
| SessionRuns.OnlyCommittedStateIsShown | server/src/game/game-session.ts:310-341 | whatever is published or snapshotted is the state after a durable prefix with the presence the record had under that revision, and published revisions strictly increase, across restarts |
| SessionRuns.StepGrows | server/src/game/game-session.ts:310-341 | history, replies and publications only ever grow |
| SessionActors.EveryoneActsAsSeated | server/src/game/game-session.ts:375-499 | on every run each command of the durable history, and of the live one, was executed for the player its session was seated as, or for the player who had to decide and whom the AI plays; the AI keeps to its limit |
| SessionActors.RetainedIsAnswered | server/src/game/game-session.ts:375-392 | on every run a request whose entry is in memory is answered from it while authority is up |
| SessionProgress.RequestsAreServed | server/src/game/game-session.ts:350-411 | a request the guards let through, once its commit succeeds, is in the record, shown if it changed anything, retained and answered |
| SessionProgress.AiMovesAreShown | server/src/game/game-session.ts:476-492 | a move of the AI is stored and shown before anything else happens |
| SessionProgress.PresenceIsShown | server/src/game/game-session.ts:232-241 | a changed presence is stored and shown, an unchanged one only lifts the pause |
| SessionProgress.SeatsAreHandedOver | server/src/game/game-session.ts:243-268 | a seat that may be replaced passes to the AI, in the record and for everybody to see |
| SessionProgress.ServerComesBack | server/src/game/game-session.ts:175-195 | a server that went down comes back with the record, answers again and shows the record's state |
| GameSessions.GameSession.ExecuteHuman | server/src/game/game-session.ts:375-411 | the guards, the cache lookup, the engine call in the seated player's name and the cache update, in memory |
| GameSessions.GameSession.Publish | server/src/game/game-session.ts:416-426 | nothing is published that the repository has not stored, always under a new revision, and with the presence the record has |
| GameSessions.GameSession.DispatchHuman | server/src/game/game-session.ts:350-366 | execute as the seated player, commit, publish, let the AI move, acknowledge: an acknowledgement leaves only after all the commits it depends on; without one authority stops |
| GameSessions.GameSession.RunAi | server/src/game/game-session.ts:453-499 | the AI loop commits each of its moves before the next, under any outcomes of the saves, and stops at the first that fails |
| GameSessions.AiGoesOn | server/src/game/game-session.ts:453-499 | the AI goes on until it has nothing to decide or a save fails: every choice it was given before is a move under the next revision |
| GameSessions.AdvanceIsLimited | server/src/game/game-session.ts:453-499 | in one go the AI makes no more moves than its limit, and touches nothing but the state |
| GameSessions.GameSession.Snapshot | server/src/game/game-session.ts:318-341 | whatever is in flight or has failed, a snapshot shows exactly the members a game the repository has stored, with the presence stored with it, and the latest one when nothing is in flight |
| GameSessions.GameSession.SetPresence | server/src/game/game-session.ts:232-241 | an unchanged presence only lifts the pause latch; a changed one is published |
| GameSessions.GameSession.ReplaceHuman | server/src/game/game-session.ts:243-268 | a seat is replaced exactly when it is replaceable and the caller is authorized; its Human, cached answers and missing presence go, the AI takes it, that is published and the AI moves |
| GameSessions.GameSession.Close | server/src/game/game-session.ts:270-280 | a closed session shows nothing, refuses every request, moves no AI and leaves the rest of the game alone |
| GameSessions.GameExecutionQueue.Run | server/src/game/game-execution-queue.ts:20-31 | admission fails exactly when the operation's own share, control or ordinary, is full |
| GameSessions.GameExecutionQueue.Settle | server/src/game/game-execution-queue.ts:25-30 | the oldest operation ends first and gives its position back |
| OnlineGame.SomebodyDecides | server/src/game/game-session.ts:61-72 | the next decision always has a player, so its throw is dead |
| OnlineGame.CoreIsLawful | server/src/game/game-session.ts:435-451 | the rules engine meets what the session protocol asks of it: it never throws, an accepted command names the current version and moves it on by one, and a finished game accepts none |
| OnlineGame.OnlineRunsAreSafe | server/src/game/game-session.ts:350-451 | in an online game every durable and every live state satisfies the assertion stack, and no request is applied twice |
| OnlinePlay.PlayedByTheRules | server/src/game/game-session.ts:350-451 | on every run of an online game, each command the server has ever applied durably was allowed to its player by the rule table, did what the table says and led where it says |
| OnlinePlay.FinishedIsFinal | server/src/game/game-session.ts:216-222 | the authority takes a game for finished exactly if no command of anybody would be accepted any more |
| Decisions.OnlyTheDeciderActs | server/src/game/game-session.ts:61-72 | nobody but the player the authority asks can act, except that discards may come in any order, of which it asks the first in player order |
| Gateway.ClientView.Accept | src/application/gateways/socket-game-gateway.ts:329-341 | an update is taken exactly if it is not stale; a hole in front of it, in version or revision, asks for a snapshot |
| Gateway.GapIs | src/application/gateways/socket-game-gateway.ts:329-341 | there is a hole exactly if some update could lie between |
| Gateway.NeverFallsBack | src/application/gateways/socket-game-gateway.ts:329-341 | what a client shows never falls back in version or revision, whatever arrives |
| Gateway.ShowsTheLatest | src/application/gateways/socket-game-gateway.ts:329-341 | after any lost, repeated or reordered arrivals of a server's updates the view is the latest that arrived |
| Gateway.OrderDoesNotMatter | src/application/gateways/socket-game-gateway.ts:329-341 | the same arrivals in any order, any number of times, give the same view |
| Delivery.ServerUpdatesFormAChain | server/src/game/game-session.ts:310-341 | the updates a server sends over any run are ordered in both stamps at once, and two with the same stamps have the same state, presence and lifecycle |
| Delivery.ClientsConverge | src/application/gateways/socket-game-gateway.ts:278-289 | so a client always shows the state after a prefix of the durable history |
| CommandDelivery.SocketGameGateway.Attempts | src/application/gateways/socket-game-gateway.ts:122-172 | at most maxRetries + 1 sends, all of the same request; only an undecided answer is retried; a command resolves only on its own answer once the view has caught up; it is uncertain exactly when every attempt stayed undecided |
| CommandDelivery.SocketGameGateway.Prepare | src/application/gateways/socket-game-gateway.ts:127-143 | an attempt sends exactly when the connection stands, a snapshot that is due or already on its way arrives, and a connection lost in the pause comes back with a snapshot of its own |
| CommandDelivery.SocketGameGateway.Deliver | src/application/gateways/socket-game-gateway.ts:122-184 | after a failure that is no cancellation only a fresh snapshot lifts the need to resynchronize |
| CommandDelivery.ResolvedOnceAndShown | src/application/gateways/socket-game-gateway.ts:122-172 | end to end: a command that resolves as accepted was applied exactly once, over all retries, crashes and recoveries, and the state shown has it |
| Rooms.RecordIsValid | server/src/persistence/multiplayer-record.ts:57-112 | what the service keeps of a Room satisfies the aggregate predicate of the record |
| RoomSafety.StepIsGood | server/src/lobby/room-service.ts:303-619 | every operation, under any clock, keeps the service invariant and hands over a valid record |
| RoomRules.GrantedExactly | server/src/lobby/room-service.ts:303-700 | an operation is carried out exactly when the table of conditions grants it, and is otherwise refused and changes nothing; only a resumption that comes too late with the right token ends its session, as the timer would |
| RoomRules.StepDoes | server/src/lobby/room-service.ts:303-1110 | a granted operation does to the Room, its seats, host, deadlines, game and sessions exactly what the table says |
| RoomRules.WrongTokenIsRefused | server/src/lobby/room-service.ts:397-406 | a resumption whose Room, session, seat or token is not the stored one is refused as invalid and changes and saves nothing |
| RoomRules.RecordIs | server/src/lobby/room-service.ts:795-822 | a record says of the Room all there is in memory, with exactly its members' sessions |
| RoomRules.GamesMayBeGivenUp | server/src/lobby/room-service.ts:1077-1098 | the deadline of a game stays, comes with a finished game, and goes with the last seat that waits for replacement |
| RoomTokens.OnlyTheTokenConnects | server/src/lobby/room-service.ts:397-448 | on every run of the server whoever is away is connected again exactly by a resumption that names the Room, the session and the seat and carries the token issued when the session created or joined the Room |
| RoomTokens.OtherTokensChangeNothing | server/src/lobby/room-service.ts:397-406 | with any other token nothing happens to the server at all |
| RoomSafety.PlayedCaches | server/src/persistence/multiplayer-record.ts:103-107 | play keeps the cache clause of the aggregate predicate: results go to seated players, under new command IDs, with versions the game has reached |
| RoomPlay.AuthorityPlaysDeeds | server/src/game/game-session.ts:375-499 | whatever requests the authority handles and whatever the AI does between two Room operations is a run of such play on the stored game, and the two views stay equal |
| RoomPlay.SameLifecycle | server/src/game/game-session.ts:211-215 | the lifecycle the authority reports is the one the record validation computes |
| RoomPlay.ReplacementIsTheRooms | server/src/game/game-session.ts:243-268 | handing a seat to the AI does to the game what the Room does to the stored one |
| RoomStore.EverySavedRecordIsValid | server/src/lobby/room-service.ts:795-822 | from an empty repository, after any operations whose writes overlap between Rooms, failed saves, crashes that leave any of the writes done, and restarts under any clocks, every record ever handed over and every record stored satisfies the aggregate predicate, and no session sits in two stored Rooms |
| RoomStore.RepositoryIsCurrent | server/src/lobby/room-service.ts:795-822 | once recovery is done the repository holds every Room without a write in flight exactly as it is in memory and no Room that is not live; with nothing in flight it holds exactly the live Rooms |
| RoomStore.RecoveryNeverRefuses | server/src/lobby/room-service.ts:852-892 | recovery never finds more records than it accepts nor a session it already knows, so neither of its throws can fire |
| RoomStore.RecoveredAsSaved | server/src/lobby/room-service.ts:852-892 | a recovered Room has the revision, host, idle deadline, occupants and game it was saved with, and its sessions their seats, tokens and what is left of their time |
| RoomStore.RoomsComeBackInTime | server/src/lobby/room-service.ts:852-860 | a lobby comes back until its idle deadline and a game until it is to be given up; the record of any other Room is dropped |
| RoomProgress.OperationsAreServed | server/src/lobby/room-service.ts:795-822 | an operation takes effect in memory at once and, when its write is done, in the repository; a Room that closes goes from both together |
| RoomProgress.RecoveryEnds | server/src/lobby/room-service.ts:852-892 | recovery comes to an end after finitely many steps |
| RoomProgress.ServerComesBack | server/src/lobby/room-service.ts:232-240 | a server that is down comes back, with any order of its records, to exactly the Rooms the repository holds |
| RoomSafety.RecoverIsGood | server/src/lobby/room-service.ts:852-892 | recovering a valid record restores the invariant |
| RoomSafety.ExpireIsGood | server/src/lobby/room-service.ts:983-1037 | an expired session leaves a valid Room, in the lobby, in a game, and when the Room closes |
| RoomSafety.ReplaceIsGood | server/src/lobby/room-service.ts:638-671 | replacing an expired Human by an AI keeps seats, presence and replacements in step |
| RoomServices.RoomService.Persist | server/src/lobby/room-service.ts:795-822 | saves the Room as it is after synchronizing a finished game |
| RoomServices.RoomService.CreateRoom | server/src/lobby/room-service.ts:303-352 | creating a Room: the object with its maps takes exactly the step the machine describes and writes exactly its record |
| RoomServices.RoomService.JoinRoom | server/src/lobby/room-service.ts:354-395 | joining the first empty seat: the object with its maps takes exactly the step the machine describes and writes exactly its record |
| RoomServices.RoomService.ResumeSession | server/src/lobby/room-service.ts:397-448 | resuming a session, with its own token only: the object with its maps takes exactly the step the machine describes and writes exactly its record |
| RoomServices.RoomService.MarkSessionDisconnected | server/src/lobby/room-service.ts:450-480 | disconnecting: the object with its maps takes exactly the step the machine describes and writes exactly its record |
| RoomServices.RoomService.SetSeatReady | server/src/lobby/room-service.ts:482-510 | readiness: the object with its maps takes exactly the step the machine describes and writes exactly its record |
| RoomServices.RoomService.SetAi | server/src/lobby/room-service.ts:512-544 | AI seats: the object with its maps takes exactly the step the machine describes and writes exactly its record |
| RoomServices.RoomService.LeaveRoom | server/src/lobby/room-service.ts:546-572 | leaving: the object with its maps takes exactly the step the machine describes and writes exactly its record |
| RoomServices.RoomService.RequestStart | server/src/lobby/room-service.ts:581-619 | starting: the object with its maps takes exactly the step the machine describes and writes exactly its record |
| RoomServices.RoomService.ReplaceExpiredHuman | server/src/lobby/room-service.ts:638-671 | replacing: the object with its maps takes exactly the step the machine describes and writes exactly its record |
| RoomServices.RoomService.ExpireDisconnectedSession | server/src/lobby/room-service.ts:983-1037 | a timer for another deadline does nothing, an early one asks to be set again for what remains, a session without a Room goes, and otherwise the object takes exactly the expiry step and writes its record |
| RoomServices.RoomService.RemoveSessionAndSeat | server/src/lobby/room-service.ts:1039-1046 | giving up a lobby seat: the object with its maps takes exactly the step the machine describes and writes exactly its record |
| RoomServices.RoomService.TransferExpiredHost | server/src/lobby/room-service.ts:1071-1075 | host transfer to the first connected Human |
| RoomServices.RoomService.CloseRoom | server/src/lobby/room-service.ts:1052-1069 | closing, session by session |
| RoomEffects.OneRoomMoves | server/src/lobby/room-service.ts:303-1110 | no operation touches another Room or the session of anybody seated there |
| RoomEffects.NoSilentChange | server/src/lobby/room-service.ts:303-850 | what members see of a Room, its seats, host and whether it waits, plays or is over, changes only with a new revision, and no revision is skipped, exactly but for the move that ends the game, which shows it over one announcement early |
| RoomStore.ConnectedFindHosts | server/src/lobby/room-service.ts:1071-1075 | over every run of the server, crashes and restarts included, whoever is connected in a Room finds its host's session alive |
| RoomEffects.ResumeUndoesDisconnect | server/src/lobby/room-service.ts:397-480 | a member who drops out and resumes in time finds seats, host, sessions and presence as they were, two revisions on |
| RoomEffects.JoinTakesFirstSeat | server/src/lobby/room-service.ts:354-395 | a newcomer gets the first empty seat, or is refused for exactly the four reasons and changes nothing |
| RoomEffects.LeavingALobby | server/src/lobby/room-service.ts:546-572 | a lobby outlives a leaver exactly if another Human stays and, if the leaver hosted, a connected one takes over |
| RoomServices.StepsKeepSound | server/src/lobby/room-service.ts:303-1110 | an object that takes steps keeps its invariant and has only ever written valid records |
| TokenBuckets.WindowIsBounded | server/src/security/request-limiter.ts:44-51 | over any readings of the clock, forwards or backwards, tokens stay in range and admissions within the capacity plus the refill since the first reading, however long the bucket was idle before |
| TokenBuckets.ChargesAreBounded | server/src/security/request-limiter.ts:44-51 | the same for calls that draw on a bucket among others, in any window of time |
| TokenBuckets.PauseIsPaid | server/src/security/request-limiter.ts:44-51 | a pause is paid in full, up to the capacity, and one worth a token admits the next request |
| TokenBuckets.RunIsExact | server/src/security/request-limiter.ts:44-51 | over a run that never reaches the capacity, what is left and what was handed out are what there was and what the time has brought |
| RequestLimits.EveryCeilingHolds | server/src/security/request-limiter.ts:77-98 | in any window of time the requests allowed stay below the ceilings of the server, and below those of every transport and of every session the server knows once for each budget it was given, in all and for creations, joins, resumptions and commands; a transport not forgotten and a session known throughout have one budget at most, wherever in the window it was created |
| RequestLimits.RequestLimiter.Allow | server/src/security/request-limiter.ts:77-98 | a request is allowed exactly if the server, the transport, the event and the session have a token for it; every bucket is drawn on at most once and an allowed request comes over an attached transport and is counted against each; a known session keeps its budget, or is given a full one and charged at once |
| TokenBuckets.RenewalsAreBounded | server/src/security/request-limiter.ts:44-98 | draws on buckets that come and go stay, in any window of time and under any clock, below a full bucket and the refill of the window for each bucket there was |
| RequestLimits.RequestLimiter.TakeForSession | server/src/security/request-limiter.ts:87-97 | a known session without a budget gets a full one if there is room, after a sweep if need be, and pays from it at once; nobody else gets one |
| RequestLimits.RequestLimiter.AdmitConnection | server/src/security/request-limiter.ts:62-64 | a connection is admitted exactly if the connection bucket has a token, and pays it |
| RequestLimits.RequestLimiter.AttachTransport | server/src/security/request-limiter.ts:65-70 | a transport attaches exactly if it is new and there is room |
| RequestLimits.RequestLimiter.Prune | server/src/security/request-limiter.ts:71-76 | a sweep drops exactly the sessions the server no longer knows, and, unless forced, happens only a second or more after the last one |
| BoundedJson.IsBoundedJson | server/src/security/network-limits.ts:8-46 | the explicit-stack walk with its early cut-offs decides the recursive property: bounded nodes, bytes and depth, no forbidden or non-finite value, no object met twice |

## Left out

- Game events and their redaction, and the details that violations carry: the step yields a state or a violation code.
- GameCreation.CreateGame: of the configuration checks, four distinct players and a seed; player names, colours, controllers and AI profiles are not part of the game state here.
- Rooms.RecordIsValid: the clauses on the AI's own command keys and on player controllers, which the game state here does not carry.
- Checks on the shape of JavaScript values (plain prototypes, exact keys, cyclic data) and safe-integer overflow of versions, draw counts and resource counts: integers are mathematical, submitted bags keep their sign and range checks.
- `compareCodeUnits` sorting: records are read in the key order the topology carries, which is already sorted.
- The concrete 19, 54 and 72 element board and its port positions: `Board.ValidTopology` and `StandardBoard.BuildsTopologies` say what is used of them.
- The masks of `DrawBound` are the transposed steps of one constant, evaluated one by one; that the polynomial is the characteristic one is not needed and not stated.
- `nextRandomFloat`, dice statistics and maritime port tables beyond their use in the step.
- GameSessions.GameSession.RunAi: the AI is any chooser that may fail or run out of budget. Its limit per turn and its memory of its own commands, which only make it fail, are failing choices here; its heuristics and its evaluation of trades are not modelled.
- Presence epochs, `stop` during a pending AI choice, and the listener lists: an AI choice that is cancelled is one that is not made.
- The transport that carries requests and answers: `SessionRuns` delivers, repeats and drops them in any order.
- SessionRuns.RepliesAreStable: holds while the entry is kept; after eviction the request is judged afresh, and then `SessionRuns.AtMostOnce` still forbids a second application.
- Fingerprints and resume-token digests: a fingerprint is an injective image of its request, so requests are compared; a digest is compared as given. Identifiers drawn at random are fresh.
- The SQL repositories: saving is atomic, and a failed save may or may not have taken effect.
- RoomStore.EverySavedRecordIsValid: new identifiers occur nowhere before, not even in the repository; timers are steps that may come at any time with any clock, and a game that ends may announce it again. A Room that closes keeps its members in memory until its record is gone, and recovery, which writes one record after another, is not overlapped.
- Display-name rules are one boolean.
- RoomServices.RoomService.Persist: a record equal to the last one saved, which the service does not write again, counts as written, and saving succeeds; `RoomStore` has the failed saves.
- RoomServices.RoomService.ReplaceExpiredHuman: the operation is one step, so the second look at the Host's authority and transport, once the game's queue reaches it, sees what the first one saw; a busy queue is not modelled here.
- RequestLimits.RequestLimiter.Allow: buckets are values in maps, not shared objects; the clock readings of a call are parameters; the refusal diagnostics are not modelled.
- `submit`, `#drain` and the notification of listeners in the client gateway: one command is delivered at a time, and the queue in front of it is not modelled.
- Cyclic JSON: a value that contains itself cannot be built here; one met twice can.
- The React application, the HTTP and Socket.IO wiring, logging, configuration and player-view selectors.
