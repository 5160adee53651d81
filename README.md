# Eight-ball pool: the discrete game bookkeeping

This project models the integer and boolean bookkeeping of an eight-ball pool game
written in C on raylib. The floating-point physics around it is not modelled. The
model covers three parts:

- **The rule and setup engine** (`src/EBPRules.c`):
  - the rule-state dispatcher and the break-validity rule;
  - the per-turn statistics reset and the cushion-touch counter;
  - rack construction, with its in-place colour/number shuffle;
  - `setupEBP`, which initialises the world.
- **The per-frame turn bookkeeping of `updateGameWorld`** (`src/GameWorld.c`):
  - the shot trigger and the pending-rules flag;
  - first-hit and hit-count recording, and the gated cushion-touch flags;
  - pocket captures and the attribution of pocketed balls to the sticks;
  - the running pocketed lists, and the turn boundary that flips the current stick and runs the rules once.
- **The cue stick's power step and clamp** (`src/CueStick.c`).

The source changes its structures in place, and the model does the same:

- The game world is the class `WorldState.GameWorld`. Its 16 balls are an `array`, and its two sticks are `CueSticks.CueStick` objects.
- The pointers `currentCueStick` and `lastCueStick` become a `Player` and an `Option<Player>`.
- Every method is proved against a function on values. Each class has a `View()` that returns its fields as a `Types.World` or `Types.Stick`, and each method ensures that the new view equals a specification function of the old view and the inputs. The lemmas state the game's properties about those functions.

Geometry enters as inputs. Each frame supplies the following, and the model uses them exactly:
- for every ball, the motion `updateBall` produces;
- which of the six cushions it hits;
- which balls it touches;
- which of the six pockets it is more than half inside.

Also supplied are:
- the left-button press, and whether the strike lands (the stick reaching its Hit state);
- the wheel delta and the aim angle;
- the cue ball velocity of the shot;
- the 26 values `GetRandomValue` returns for a re-rack, and the rack positions.

The source is split into modules:
- `types.dfy` (module `Types`): the value types and constants.
- `cue_stick.dfy` (`CueSticks`): the `updateCueStick` power step and the stick class.
- `world.dfy` (`WorldState`): the world class.
- `rack.dfy` (`Rack`): `shuffleColorsAndNumbers` and `prepareBallData`.
- `ebp_rules.dfy` (`EBPRules`): the rest of `src/EBPRules.c`, plus the invariant `Inv`. `Inv` says what the bookkeeping keeps true between frames.
- `game_world.dfy` (`GameWorldUpdate`): `updateGameWorld` and `createGameWorld`.

Some parts of the source disagree with each other, and the model settles them as follows:

- **One world record.** The two files name the statistics differently.
  - `src/EBPRules.c` reads `gw->cueBallHits`, `gw->cueBallPocketed`, `gw->ballsTouchedCushion` and `gw->ballsPocketed` at lines 68-70 and writes them at lines 465-471. `src/GameWorld.c` writes `gw->statistics.*`. Both are the one `Statistics` record here.
  - `ballsPocketed` is the length of `statistics.pocketedBalls`.
- **The stick's power.** `src/CueStick.c` names the power `impulse`, `minImpulse` and `maxImpulse`. `setupEBP` names the same fields `power`, `minPower` and `maxPower`.
- **Where the code and the natural reading of the rules disagree, the model follows the code.**
  - With the shooter's group undefined, every numbered ball is credited to the shooter, the 8 included.
  - `resetStatistics` leaves `cueBallFirstHitNumber` as it was.
  - The cue ball's own cushion flag, index 0, counts towards the four cushion touches of a valid break.
  - `resetCueBallPosition` moves the cue ball and marks it unpocketed, but does not touch its velocity. The capture has zeroed the velocity already.
- **The Hitting to Hit transition.** No code in `src/CueStick.c` or `src/GameWorld.c` ever sets `CUE_STICK_STATE_HIT`, so the strike is the frame input `strikeLands`.
- **Build constants.** `SHUFFLE_BALLS` is true (`src/include/CommonMacros.h:18,25`). `setupEBP` therefore always shuffles. `TEST_BALL_POSITIONING` is false (`src/include/CommonMacros.h:17,24`), so the alternative layout of `prepareBallData` is dead code.

## Model

| member | source | states |
|---|---|---|
| Types.Other | src/GameWorld.c:341-345 | the stick the pointer flips to is never the current one |
| CueSticks.Notched | src/CueStick.c:36-40 | the power after the wheel notch: 50 more for a negative delta, 50 less for a positive one, the same for none; its meaning is stated through StepImpulse |
| CueSticks.StepImpulse | src/CueStick.c:34-46 | A negative wheel delta raises the power by 50; a positive one lowers it by 50. Without a wheel move, an in-range power is kept. A power below the range ends at the minimum, one above it at the maximum. The result is always the notched power or one of the two bounds, and lies in [min, max] whenever that range is not empty. |
| CueSticks.StepImpulseIdempotent | src/CueStick.c:42-46 | the clamp is idempotent: a second update without a wheel move leaves the clamped power unchanged |
| CueSticks.Updated | src/CueStick.c:8-48 | The update changes only the angle, which becomes the aim angle, and the power. Target, size, distance, the power bounds and the other fields are untouched. The power lands in range. |
| CueSticks.CueStick.Update | src/CueStick.c:32-46 | the stick's new fields are the update of its old fields, and the power lies in [minPower, maxPower] |
| CueSticks.CueStick.Credit | src/GameWorld.c:276 | `pocketedBalls[pocketedCount++] = n` appends n to this stick's list and changes nothing else |
| CueSticks.CueStick.Assign | src/EBPRules.c:292-309 | after a whole-struct assignment the stick holds exactly the given value |
| CueSticks.CueStick.Zeroed | src/GameWorld.c:63 | a stick in freshly allocated memory, taken as all zero |
| WorldState.GameWorld.constructor | src/GameWorld.c:62-63 | The malloc'd world is fresh and has 16 balls. Its pending-rules flag, last stick and first-hit number are the given indeterminate values, none of which `setupEBP` writes; every other discrete field is zero. |
| Rack.Shuffled | src/EBPRules.c:346-356 | The first k iterations of the shuffle loop: iteration i swaps entry i with entry `draws[i]`. It keeps the length; ShuffledPermutes and ShuffledIsReindexing say what it does. |
| Rack.Shuffle | src/EBPRules.c:346-356 | the whole loop, for all `size` iterations |
| Rack.ShuffledStepPermutes | src/EBPRules.c:348-354 | one step of the loop, swapping entry i with the drawn entry p, keeps the multiset of entries |
| Rack.ShuffledPermutes | src/EBPRules.c:346-356 | for any draws in [0, size-1], every prefix of the loop, and hence the whole shuffle, is a permutation of its input |
| Rack.ShuffledIsReindexing | src/EBPRules.c:346-356 | the shuffle moves every entry by one index permutation that depends only on the draws, whatever the entries are |
| Rack.ShuffledKeepsPairs | src/EBPRules.c:346-356 | colours and numbers are swapped together, so every colour stays with its number |
| Rack.ShuffleStaysInRange | src/EBPRules.c:346-356 | a shuffle of values in [lo, hi] holds only values in [lo, hi] |
| Rack.ShuffleColorsAndNumbers | src/EBPRules.c:346-356 | the in-place loop leaves both arrays equal to the shuffle of their old contents by the same draws |
| Rack.Deal | src/EBPRules.c:425-444 | The dealing loop as a value: 15 entries built from the 12-entry queue and the three fixed balls. DealAt and DealMultiset state the result. |
| Rack.DealAt | src/EBPRules.c:425-444 | In the deal, index 4 holds the 8, index 10 the first solid and index 14 the first stripe. Every other index i holds queue entry q, where q counts the earlier indices that took from the queue. |
| Rack.ShuffleGroupFacts | src/EBPRules.c:382-385 | shuffling a group keeps its colour/number pairing and its multiset of numbers |
| Rack.Swap | src/EBPRules.c:349-355 | One step of the shuffle loop: the entries at i and p change places. SwapPermutes states that it keeps the multiset, and ShuffledIsReindexing that a whole run of swaps is a reindexing of the input. |
| Rack.ShuffleGroup | src/EBPRules.c:382-385 | The two parallel arrays of a group shuffled with the same draws, so they keep their length. ShuffleGroupFacts states that each colour stays with its number and the numbers are a permutation. |
| Rack.SolidsOf | src/EBPRules.c:369-385 | The solid colours and numbers, shuffled when the build flag is on. SolidNumbersKept, SolidsPaired and FirstSolid state what it holds. |
| Rack.StripesOf | src/EBPRules.c:371-385 | The stripe colours and numbers, shuffled when the build flag is on. StripeNumbersKept, StripesPaired and FirstStripe state what it holds. |
| Rack.QueueOf | src/EBPRules.c:387-399 | The 12-entry queue: solids 2..7, then stripes 2..7, of the shuffled groups. QueueNumbersKept and QueuePaired state what it holds. |
| Rack.RackLayout | src/EBPRules.c:358-447 | the rack has 15 colours, flags and numbers and the 8 at index 4 |
| Rack.SolidNumbersKept | src/EBPRules.c:369-383 | the solid numbers after the optional shuffle are a permutation of 1..7 |
| Rack.SolidsPaired | src/EBPRules.c:360-383 | each solid keeps the colour of its number |
| Rack.FirstSolid | src/EBPRules.c:369-383 | the first solid after the shuffle is one of 1..7 |
| Rack.StripeNumbersKept | src/EBPRules.c:380-384 | the stripe numbers after the optional shuffle are a permutation of 9..15 |
| Rack.StripesPaired | src/EBPRules.c:371-384 | each stripe keeps the colour of its number |
| Rack.FirstStripe | src/EBPRules.c:380-384 | the first stripe after the shuffle is one of 9..15 |
| Rack.QueueNumbersKept | src/EBPRules.c:387-399 | the 12-entry queue holds exactly the solids and stripes after the first of each |
| Rack.QueuePaired | src/EBPRules.c:387-399 | the queue keeps every colour with its number |
| Rack.RackNumbersPermutation | src/EBPRules.c:358-447 | the 15 rack numbers are a permutation of 1..15, shuffled or not, for any draws |
| Rack.RackCorners | src/EBPRules.c:430-437 | index 10 holds a solid and index 14 a stripe |
| Rack.RackStripedByNumber | src/EBPRules.c:425-444 | every striped flag is set exactly when its number exceeds 8 |
| Rack.RackColorsMatchNumbers | src/EBPRules.c:358-447 | every rack colour is the colour of the number at its index (black for the 8) |
| Rack.RackUnshuffled | src/EBPRules.c:358-447 | without shuffling the numbers are exactly 2,3,4,5,8,6,7,10,11,12,1,13,14,15,9 |
| Rack.SolidArrays | src/EBPRules.c:360-383 | the solid arrays, freshly made and optionally shuffled, hold the solid group of the layout |
| Rack.StripeArrays | src/EBPRules.c:371-384 | the stripe arrays, freshly made and optionally shuffled, hold the stripe group of the layout |
| Rack.QueueArrays | src/EBPRules.c:387-395 | the queue loop fills the queues with solids 2..7 followed by stripes 2..7 of the shuffled groups |
| Rack.DealArrays | src/EBPRules.c:401-444 | the dealing loop with its moving queue index produces the deal of the queues, the 8 and the two first balls |
| Rack.StripedFlags | src/EBPRules.c:441 | A queued ball is striped exactly when its number is above 8, entry by entry. DealArrays feeds it the number queue. |
| Rack.PrepareBallData | src/EBPRules.c:358-447 | the three output arrays equal the rack layout for the given shuffle flag and draws |
| EBPRules.CountTrueIsCardinality | src/EBPRules.c:449-461 | the count of set flags is the size of the set of indices whose flag is set |
| EBPRules.CountTrue | src/EBPRules.c:449-461 | The number of set flags, never more than the number of flags. CountTrueIsCardinality states that it is the size of the set of indices whose flag is set. |
| EBPRules.CountBallsTouchedCushion | src/EBPRules.c:449-461 | the loop returns exactly the number of set flags among the 16, so it lies in [0, 16] |
| EBPRules.ResetStats | src/EBPRules.c:463-473 | every counter is 0, the cue ball is not pocketed, the turn's list is empty, all 16 cushion flags are false, and the first-hit number is kept |
| EBPRules.ResetStatsCleared | src/EBPRules.c:463-473 | after a reset no cushion flag counts, and resetting twice is the same as once |
| EBPRules.ResetStatistics | src/EBPRules.c:463-473 | the method replaces the statistics by their reset and changes nothing else |
| EBPRules.BreakValid | src/EBPRules.c:67-71 | the break-validity condition; BreakValidMeans restates it over the set of cushion-touched balls |
| EBPRules.BreakValidMeans | src/EBPRules.c:67-71 | a break is valid iff the cue ball hit a ball, was not pocketed, and at least four balls touched a cushion or a ball was pocketed |
| EBPRules.ResetStatsNoBreak | src/EBPRules.c:67-73 | reset statistics never make a valid break |
| EBPRules.NewStick | src/EBPRules.c:288-328 | an armed stick belongs to its player, aims at the cue ball, is Ready with no credited balls and no group, and its power lies in its range |
| EBPRules.RackBalls | src/EBPRules.c:250-280 | the table has the cue ball and the 15 rack balls |
| EBPRules.SetupWorld | src/EBPRules.c:118-344 | The world setupEBP leaves: the shuffled rack placed, both sticks armed aiming at the cue ball, P1 current, Breaking with stopped balls, an empty game list and reset statistics. Everything else is kept. SetupFacts, SetupKeepsUnwritten and SetupEstablishesInv state it. |
| EBPRules.SetupFacts | src/EBPRules.c:250-336 | After setup, ball 0 is the white number 0 and ball i carries rack number i-1. No ball is pocketed or moving, and every ball is at its given position. Both sticks are Ready, with empty lists, aiming at the cue ball. The state is Breaking, the balls are stopped, P1 is current, and both pocketed lists are empty. |
| EBPRules.SetupRacksEveryNumber | src/EBPRules.c:266-280 | after setup, balls 1-15 carry the numbers 1-15 once each, striped iff above 8, in the colour of their number |
| EBPRules.FillRack | src/EBPRules.c:250-280 | the ball array holds the cue ball and the balls built from the rack arrays |
| EBPRules.PlaceBalls | src/EBPRules.c:282-286 | every ball moves to its given position and keeps everything else |
| EBPRules.Placed | src/EBPRules.c:282-286 | The positioning routine's outcome: the same number of balls, each moved to its given centre with every other field kept. PlaceBalls is proved against it. |
| EBPRules.RackTable | src/EBPRules.c:250-286 | the ball array holds the shuffled rack, placed |
| EBPRules.ArmSticks | src/EBPRules.c:288-328 | both sticks hold the armed stick of their player, aiming at the given target |
| EBPRules.SetupEBP | src/EBPRules.c:118-344 | the world after the method is the setup world of the old one |
| EBPRules.SetupKeepsUnwritten | src/EBPRules.c:118-344 | setup leaves the pending-rules flag, the last stick and the first-hit number as they were |
| EBPRules.RespotCueBall | src/EBPRules.c:475-478 | only the cue ball moves, to the head spot, and it is no longer pocketed; its velocity and every other field are kept |
| Types.HeadSpot | src/EBPRules.c:475-478 | The cue ball's spot, a quarter of the table width from its left edge, at half the screen height. The height is halved with integer division. RackBalls places the cue ball there, and RespotCueBall and CaptureMeans return it there. |
| EBPRules.ResetCueBallPosition | src/EBPRules.c:475-478 | the method performs the respot on the world |
| EBPRules.ApplyRules | src/EBPRules.c:49-61 | outside the Breaking state the rules change nothing (OpenTable, Playing, BallInHand and GameOver alike) |
| EBPRules.BreakOutcome | src/EBPRules.c:67-78 | after the rules run on a break, the state is OpenTable iff the break was valid and Breaking iff it was not |
| EBPRules.ValidBreak | src/EBPRules.c:72-74 | A valid break resets the statistics and moves to OpenTable. Balls, sticks, the game's list and the current stick stay as they were. |
| EBPRules.InvalidBreak | src/EBPRules.c:75-78 | An invalid break re-runs the setup. The state becomes Breaking, the current stick P1 and the balls stopped; both pocketed lists are emptied and no ball is pocketed. |
| EBPRules.ApplyRulesBreaking | src/EBPRules.c:63-80 | a valid break resets the statistics and opens the table, and an invalid one re-runs the setup; ValidBreak and InvalidBreak state both branches |
| EBPRules.ApplyRulesBreakingState | src/EBPRules.c:63-80 | the method performs the break rules on the world |
| EBPRules.ApplyRulesOpenTable | src/EBPRules.c:82-86 | the open-table handler leaves the world unchanged |
| EBPRules.ApplyRulesPlaying | src/EBPRules.c:88-92 | the playing handler leaves the world unchanged |
| EBPRules.ApplyRulesBallInHand | src/EBPRules.c:94-98 | the ball-in-hand handler leaves the world unchanged |
| EBPRules.ApplyRulesEBP | src/EBPRules.c:49-61 | the dispatch performs the rules of the world's state |
| EBPRules.InvBounds | src/GameWorld.c:312-313 | Between setups, the game's pocketed list holds at most 15 numbers and never the cue ball. The turn's list is no longer than the game's. |
| EBPRules.SetupEstablishesInv | src/EBPRules.c:118-344 | the world after setup satisfies the bookkeeping invariant |
| EBPRules.RackLayoutRange | src/EBPRules.c:358-447 | every rack number is one of 1..15 |
| EBPRules.ApplyRulesPreservesInv | src/EBPRules.c:49-80 | the rules keep the bookkeeping invariant |
| GameWorldUpdate.Aimed | src/GameWorld.c:133-139 | A frame of aiming keeps the stick's list, group, target and power bounds. Its power is the stepped and clamped power. |
| GameWorldUpdate.Shoot | src/GameWorld.c:110-158 | the shot block as a value: with the balls stopped, aim the current stick, and on a strike reset it to Ready, give the cue ball the shot velocity and raise the flag; ShotRules states it |
| GameWorldUpdate.ShotRules | src/GameWorld.c:110-158 | Nothing changes unless the balls are stopped. With the balls stopped, a shot fires exactly when the stick reaches Hit: it goes back to Ready, the pending-rules flag is set, and the cue ball takes the shot velocity. Without the strike the flag and every ball are kept. The flag is only ever raised while the balls are stopped. The other stick, the state and the statistics are kept, every ball but the cue ball is kept whole, and the cue ball keeps everything but its velocity. |
| GameWorldUpdate.ShotClampsPower | src/GameWorld.c:137 | the shooter's power after the shot frame lies in its range |
| GameWorldUpdate.CushionStep | src/GameWorld.c:216-218 | The gated cushion-flag update of one ball, keeping the number of flags; CushionStepMeans states it. |
| GameWorldUpdate.CushionStepMeans | src/GameWorld.c:216-218 | A ball's cushion flag becomes set iff it hits a cushion while the cue ball has hit a ball or the state is not Breaking. Every other flag and statistic is kept. On a break before the first hit, nothing changes. |
| GameWorldUpdate.CushionGate | src/GameWorld.c:216 | The cushion flag may be set once the cue ball has hit a ball, or in any state but Breaking. CushionStepMeans states that the flag is set exactly when a cushion hit passes this gate, and that nothing changes when the gate is shut. |
| GameWorldUpdate.Advance | src/GameWorld.c:170 | updateBall's outcome on one ball: it takes the given centre, velocity and moving flag, and keeps every other field. AdvancePreservesInv and BallStepMeans state what follows from it. |
| GameWorldUpdate.CueContacts | src/GameWorld.c:243-248 | The cue ball's contacts with balls 0..k-1, recorded in order. Only the hit count and the first-hit number change. CueContactsCount, CueContactsFirstHit and CueContactsKeepFirst state the rest. |
| GameWorldUpdate.CueContactsCount | src/GameWorld.c:243-248 | the hit count rises by exactly the number of unpocketed balls the cue ball touches |
| GameWorldUpdate.CueContactsNone | src/GameWorld.c:225-251 | without a contact of the cue ball the statistics are unchanged |
| GameWorldUpdate.CueContactsKeepFirst | src/GameWorld.c:244-246 | once the cue ball has hit a ball, the first-hit number is never overwritten |
| GameWorldUpdate.CueContactsFirstHit | src/GameWorld.c:244-246 | with no earlier hit, the first-hit number becomes the number of the first ball touched |
| GameWorldUpdate.CueContact | src/GameWorld.c:226-243 | Ball j counts as a contact of the cue ball when it is another ball, is still on the table and touches the cue ball. ContactFlags lists it for every j, and CueContactsCount counts it. |
| GameWorldUpdate.ContactFlags | src/GameWorld.c:226-248 | One flag per ball, set exactly when that ball counts as a contact of the cue ball. CueContactsCount states that the hit count rises by the number of set flags. |
| GameWorldUpdate.Recipient | src/GameWorld.c:274-308 | the stick a pocketed ball is credited to, from the shooter and its group; RecipientMeans states it |
| GameWorldUpdate.Attribute | src/GameWorld.c:272-310 | the credit of one pocketed ball to its recipient's list; AttributeMeans states it |
| GameWorldUpdate.Capture | src/GameWorld.c:259-315 | The effect of one pocket capture; CaptureMeans states it. |
| GameWorldUpdate.RecipientMeans | src/GameWorld.c:274-308 | With no group, the ball goes to the shooter. With a group, it goes to the shooter iff it is in the group. It goes to the opponent iff it is outside the group and not the 8. The 8 goes to nobody. |
| GameWorldUpdate.AttributeMeans | src/GameWorld.c:272-310 | a capture appends the ball to the list of exactly the stick it is attributed to, and changes nothing else |
| GameWorldUpdate.CaptureMeans | src/GameWorld.c:259-315 | A captured ball stops, with zero velocity. The cue ball marks the statistics and is respotted unpocketed, credited to nobody. A numbered ball becomes pocketed and is appended to the turn's and the game's lists; during the break no stick is credited. |
| GameWorldUpdate.BallStep | src/GameWorld.c:162-325 | One iteration of the ball loop: skip if pocketed, else advance, cushions, contacts and at most one capture. It keeps the world well formed. BallStepMeans states it. |
| GameWorldUpdate.BallsPass | src/GameWorld.c:162-327 | The first k iterations of the ball loop, keeping the world well formed; BallsPassFrame, BallsPassAppendsToBoth and the invariant lemmas state it. |
| GameWorldUpdate.BallStepMeans | src/GameWorld.c:162-325 | A ball pocketed at the start of the frame is skipped. Only the ball itself changes among the balls. A moving ball at the end of its step is unpocketed and moved by its input. Each list grows by at most that ball's number, the same on both. |
| GameWorldUpdate.BallsPassFrame | src/GameWorld.c:162-327 | the ball loop keeps the later balls, the state, the current and last stick, the flag and the balls state |
| GameWorldUpdate.BallsPassSettles | src/GameWorld.c:162-327 | a ball is final once its own iteration is done |
| GameWorldUpdate.BallsPassBall | src/GameWorld.c:166-269 | a pocketed ball is untouched by the frame, and a ball left moving is not pocketed |
| GameWorldUpdate.MovingStep | src/GameWorld.c:162-325 | the moving flag after ball i is the flag before it or ball i's own motion, skipped if it was pocketed |
| GameWorldUpdate.AnyMovingMeans | src/GameWorld.c:323-325 | the loop's moving flag is set iff some unpocketed ball is moving at the end of the frame |
| GameWorldUpdate.MovingUpTo | src/GameWorld.c:323-325 | Some ball among the first k that was on the table before its pass is moving after it. MovingStep states how one step extends it, and it is the invariant of BallLoop's flag. |
| GameWorldUpdate.AnyMoving | src/GameWorld.c:160-325 | The loop's `ballsMoving` flag: some ball on the table before its pass is moving after it. BallLoop returns it, StillBallsStayStill states that it stays clear when no input moves a ball, and AnyMovingMeans ties it to the end of the frame. |
| GameWorldUpdate.BallsPassAppendsToBoth | src/GameWorld.c:312-313 | the frame appends the same numbers, in order, to the turn's list and to the game's list |
| GameWorldUpdate.BallsPassBreakCreditsNobody | src/GameWorld.c:272 | during the break no stick's list changes |
| GameWorldUpdate.Boundary | src/GameWorld.c:329-353 | the end of the frame as a value: re-aim, moving or stopped, and the hand-over with one run of the rules; BoundaryMeans states it |
| GameWorldUpdate.BoundaryMeans | src/GameWorld.c:329-353 | The balls are stopped iff nothing moves. A pending shot at rest records the shooter as the last stick and clears the flag. Then the current stick flips, except after an invalid break, which hands the table back to P1 in Breaking. |
| GameWorldUpdate.Frame | src/GameWorld.c:106-353 | one whole frame: the shot, the ball loop and the boundary; TurnBoundary and FramePreservesInv state it |
| GameWorldUpdate.TurnBoundary | src/GameWorld.c:110-353 | The frame ends stopped iff no unpocketed ball moves. Moving keeps the shooter. Stopped without a shot keeps the turn. Stopped after a shot flips the stick once, from the frame's own statistics. |
| GameWorldUpdate.CapturePreservesInv | src/GameWorld.c:259-315 | a capture keeps the bookkeeping invariant |
| GameWorldUpdate.AdvancePreservesInv | src/GameWorld.c:170 | moving an unpocketed ball keeps the invariant |
| GameWorldUpdate.StatisticsPreserveInv | src/GameWorld.c:216-248 | the cushion and contact updates keep the invariant |
| GameWorldUpdate.BallStepPreservesInv | src/GameWorld.c:162-325 | one ball's step keeps the invariant |
| GameWorldUpdate.BallsPassPreservesInv | src/GameWorld.c:162-327 | the ball loop keeps the invariant |
| GameWorldUpdate.ShotPreservesInv | src/GameWorld.c:110-158 | the shot keeps the invariant |
| GameWorldUpdate.BoundaryPreservesInv | src/GameWorld.c:329-353 | the turn boundary, rules included, keeps the invariant |
| GameWorldUpdate.FramePreservesInv | src/GameWorld.c:106-353 | A whole frame keeps the invariant. The game's list therefore never exceeds 15 numbers and never holds the cue ball. |
| GameWorldUpdate.PocketedNumbersShot | src/GameWorld.c:146-147 | changing velocities leaves the numbers of the pocketed balls as they were |
| GameWorldUpdate.StillBallsStayStill | src/GameWorld.c:160-325 | if the inputs leave every ball at rest, the loop's moving flag stays clear |
| GameWorldUpdate.AimStick | src/GameWorld.c:133-137 | the press and the update leave the stick as a frame of aiming makes it |
| GameWorldUpdate.Fire | src/GameWorld.c:139-156 | The strike resets the stick to Ready, sets the cue ball's velocity and raises the flag. |
| GameWorldUpdate.AimAndShoot | src/GameWorld.c:110-158 | the method performs the shot on the world |
| GameWorldUpdate.CushionPass | src/GameWorld.c:173-222 | the cushion loop performs the gated cushion step and changes nothing else |
| GameWorldUpdate.ContactPass | src/GameWorld.c:225-251 | the contact loop records the cue ball's contacts, and for any other ball changes nothing |
| GameWorldUpdate.AttributeBall | src/GameWorld.c:272-310 | the method credits the ball as the attribution says |
| GameWorldUpdate.CaptureBall | src/GameWorld.c:263-315 | the method performs the capture on the world |
| GameWorldUpdate.PocketPass | src/GameWorld.c:254-321 | the pocket loop captures the ball iff some pocket holds it, and at most once |
| GameWorldUpdate.PocketStep | src/GameWorld.c:254-321 | The pocket loop as a value: a capture when some pocket holds the ball, and nothing otherwise. The loop ends at the first capture, so there is at most one. PocketPass is proved against it, and CaptureMeans states what a capture does. |
| GameWorldUpdate.ProcessBall | src/GameWorld.c:170-321 | the body of the ball loop performs one ball's step |
| GameWorldUpdate.Reaim | src/GameWorld.c:329 | the current stick aims at the cue ball and nothing else changes |
| GameWorldUpdate.HandOver | src/GameWorld.c:337-351 | The shooter becomes the last stick and the current stick flips. The rules then run once, and the flag is cleared. |
| GameWorldUpdate.EndFrame | src/GameWorld.c:329-353 | the method performs the turn boundary |
| GameWorldUpdate.BallLoop | src/GameWorld.c:160-327 | the loop performs the ball pass, and its flag says whether some unpocketed ball is moving |
| GameWorldUpdate.UpdateGameWorld | src/GameWorld.c:106-353 | the frame update performs the frame on the world |
| GameWorldUpdate.CreateGameWorld | src/GameWorld.c:62-66 | As written, the created world is the setup of malloc'd memory. Its pending-rules flag, last stick and first-hit number are whatever that memory held. The invariant holds. |
| GameWorldUpdate.StaleRulesFlagEndsTurn | src/GameWorld.c:62-66 | With a stale true flag and no press and no motion, the first frame ends a turn nobody played. P1 becomes the last stick. |
| GameWorldUpdate.CreateGameWorldCleared | src/GameWorld.c:62-66 | with the flag cleared, no last stick and no first hit recorded, the created world is the setup world and satisfies the invariant |
| GameWorldUpdate.FirstFrameWaitsForShot | src/GameWorld.c:110-353 | In the cleared world a first frame without a press keeps P1 to break. No last stick is recorded, and no rules run. |

## Left out

- Floating-point physics is not modelled; its discrete outcomes are frame inputs. This covers:
  - `updateBall`'s friction and stop condition;
  - cushion contact-point snapping, reflection, spin and elasticity (`src/GameWorld.c:183-214`);
  - the velocity exchange of `resolveCollisionBallBall` and its push that separates the two balls (`src/GameWorld.c:242`). That call also changes the other ball, even one whose own turn of the loop is over. The model keeps the other ball unchanged, so BallStepMeans and BallsPassSettles hold for the discrete fields only: the pocketed and moving flags, the numbers and the statistics. The centres and velocities they state are the frame input, not what the pushes leave. The re-aim at `src/GameWorld.c:329` takes the modelled cue-ball centre, which therefore is the input centre too;
  - the `atan2f` aim angle (`src/CueStick.c:32`);
  - the trigonometric shot velocity and spin (`src/GameWorld.c:146-151`).
- The collision primitives are reduced to their outcomes: the cushion hit, the ball contact (`CheckCollisionCircles`) and the "more than half inside pocket j" condition.
- The previous-position copy (`src/GameWorld.c:106-108`) exists only for the cushion geometry, so it is not modelled.
- Not modelled: the right-button ball drag (`src/GameWorld.c:112-131`), sound, music, drawing, the trajectory preview and the highlight counter (`src/GameWorld.c:355-358`). They do not touch the game bookkeeping.
- The keyboard shortcuts (`src/GameWorld.c:84-103`) have no frame input in the model. `KEY_M` only toggles the music, but the other two change the state:
  - `KEY_R` (`src/GameWorld.c:84-88`) runs `setupEBP` and ends the frame. That re-racks, empties both pocketed lists and the sticks' credits, and puts the state back to Breaking. It leaves `applyRules` as it was, so a reset during a shot makes the next frame in which no ball moves run the break rules on fresh statistics. That is an invalid break, so the table is re-racked again. The effect is the same as the stale flag under "## Findings".
  - `KEY_S` (`src/GameWorld.c:98-103`) sets every ball's velocity to zero.
- `performDefaultBallPositioning` is not part of this model. The rack positions it produces are the input `placement`.
- The table geometry that `setupEBP` builds is not modelled: the cushions, pockets and boundary rectangle. Only the head spot it implies is used.
- `GetRandomValue` is the input `draws`: 7, 7 and 12 values, each in `[0, size-1]`.
- `GetScreenHeight()` is the constant `screenHeight` of the world.
- `isFault` (`src/EBPRules.c:100-116`) is empty and is not modelled. The open-table, playing and ball-in-hand handlers are modelled as the empty handlers they are. No group assignment, fault or 8-ball win rule exists in the code, and none is invented.
- The `TEST_BALL_POSITIONING` layout branch of `prepareBallData` (`src/EBPRules.c:403-423`) is unreachable because `TEST_BALL_POSITIONING` is false.
- The stale `GameWorld` struct in `src/include/Types.h` is not part of this model.
- CueSticks.CueStick.Credit: the stick's list is an unbounded sequence. It does not model the fixed capacity of the C array `pocketedBalls`, or writes past its end.
- EBPRules.CountBallsTouchedCushion: counts with an unbounded integer. It returns at most 16, so the C `int` cannot overflow there.
- GameWorldUpdate.CueContactsCount: `cueBallHits` is an unbounded integer. The C `int` would wrap past 2^31 - 1. The counter rises by at most 15 per frame. Only `setupEBP` and a valid break reset it, so after the break it keeps growing for the rest of the game. The wrap needs at least 143 million frames after the last reset, and the model does not capture it.
- GameWorldUpdate.CreateGameWorld: the three discrete fields that `setupEBP` leaves alone are parameters: `applyRules`, `lastCueStick` and `statistics.cueBallFirstHitNumber`. The last one passes through `resetStatistics` unchanged. Every other discrete field of the malloc'd memory is taken as zero. `setupEBP` overwrites each of them, so the choice does not show.
- CueSticks.CueStick.Zeroed: the float fields of a fresh stick are taken as zero. `setupEBP` overwrites every one before use.

## Findings

| source | as written | input that shows it | evidently intended | confidence | as-written member | corrected member |
|---|---|---|---|---|---|---|
| src/GameWorld.c:62-66 | `createGameWorld` gets its world from `malloc` and calls `setupEBP`, which never sets `applyRules` or `lastCueStick`. `updateGameWorld` reads `applyRules` at line 337. | Memory in which `applyRules` is non-zero, then a first frame with no button press and no ball motion. That frame records P1 as `lastCueStick` and runs the break rules, although no shot was taken. | The world starts with `applyRules` false and no last stick, so the first frame waits for P1's break. | not executed | GameWorldUpdate.StaleRulesFlagEndsTurn | GameWorldUpdate.FirstFrameWaitsForShot |
