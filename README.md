# Stimulus schedules and the moving-element engine, in Dafny

This project models the logic core of the `cred_assign_stimuli_deployed`
stimulus scripts: the generators that lay out a session's stimulus schedule
and the per-frame engine `OurStims` that moves, flips, suppresses and
respawns the elements of a Gabor or square field. Rendering is not modelled.

Several source files carry near-identical copies of the same routine. Each
routine is modelled once, and the table cites the copy the model follows.

- `createseqlen` exists in four copies: ophys `day11.py`, habituation
  `day11.py`, `stim_params_2p.py` and `stim_params.py`. All of them use the
  fill procedure `SeqLen.FillBlock`. The last three copies loop over blocks,
  which is `SeqLen.CreateSeqLenBlocks`.
- The orientation and flip generators share one expansion, `Timelines.ExpandBlock`.
- The banks `posarray`, `sizearray` and `possizearrays` appear in all four
  parameter modules. `Banks.SizeArray` takes a flag that says whether sizes
  are rounded; `stim_params.py` does not round.
- The three engines are one class, `Engine.ElementField`:
  - the earlier `ourstimuli.py` (`Rig.Early`);
  - ophys `day11.py` (`Rig.Ophys`);
  - habituation `day11.py` (`Rig.Habituation`), the only one that suppresses elements.

  Branches that differ between the engines test `rig`.

Randomness is passed in as oracles read at a cursor. Every property holds for
every value the oracle can return.

| oracle | what it supplies |
|---|---|
| `rand: nat -> nat` | integer draws, mapped into `[lo, hi]` as numpy's `randint` would |
| `u: nat -> real` | uniform fractions |
| `vonMises` | orientation draws, in degrees |
| `diag` | the diagonal respawn placement |
| `trig` | cosine and sine of the direction |

Python semantics are written out where they matter:

- floor modulo for `% 360.0` (`Common.Mod360`);
- `np.around`'s round-half-to-even and the `int16` wrap (`Common.RoundHalfEven`, `Common.Int16`);
- negative list indices (`Engine.PyIndex`);
- `list.index` (`Engine.FirstIndex`);
- slice clipping (`Movies.Slice`).

Raised exceptions become `Err` values of `Common.Error`.

Modules:

- `Common`: datatypes and arithmetic shared by the others.
- `SeqLen`: segment durations.
- `Timelines`: shuffles, bags and the per-image and per-segment generators.
- `Banks`: position and size banks.
- `Geometry`: directions, the initialization field, dead elements and new-element placement.
- `Motion`: the flip schedule, selection, speed writes, advance and respawn, as functions on sequences.
- `Engine`: the `ElementField` class and its construction.
- `Movies`: `generatemovies`.

## Model

| member | source | states |
|---|---|---|
| Common.Mod360 | pilot_scripts/habituation_rig/day11.py:186 | `direc % 360.0` lies in [0, 360) and differs from the input by a whole number of turns |
| Common.Mod360Identity | pilot_scripts/habituation_rig/day11.py:186 | an angle already in [0, 360) is unchanged by `% 360.0` |
| Common.RoundHalfEven | pilot_scripts/habituation_rig/day11.py:572 | `np.around` lands within half a unit of its input |
| Common.Int16 | pilot_scripts/habituation_rig/day11.py:572 | `astype(np.int16)` yields a value in [-32768, 32768) |
| Common.Int16InRange | pilot_scripts/habituation_rig/day11.py:572 | the int16 cast leaves values already in range unchanged |
| Common.Pick | pilot_scripts/ophys_rig/day11.py:779-780 | `randint(lo, hi + 1)` yields a value in [lo, hi] |
| Common.PickCovers | pilot_scripts/ophys_rig/day11.py:779-780 | every value in [lo, hi] is reachable by some draw |
| Common.Uniform | pilot_scripts/ophys_rig/stim_params_2p.py:98-99 | `uniform(lo, hi)` lies between its bounds, in either order |
| SeqLen.FloorDiv | pilot_scripts/ophys_rig/day11.py:777 | `int(a/b)` on integers is Python 2's floor division: the largest quotient whose multiple does not pass the dividend (for a negative divisor, the bracket mirrored) |
| SeqLen.Draws | pilot_scripts/ophys_rig/day11.py:779-780 | the initial batch has n durations, each within its range |
| SeqLen.DropTail | pilot_scripts/ophys_rig/day11.py:787-791 | popping keeps prefixes of equal length and the ranges, and leaves at least `regs[0]+surps[0]` to fill |
| SeqLen.BatchFits | pilot_scripts/ophys_rig/day11.py:777-782 | the `int(block_segs/maxim)` initial pairs cannot overshoot the block |
| SeqLen.ClosingPair | pilot_scripts/ophys_rig/day11.py:794-799 | the closing pair, drawn from the clipped range, sums to the remainder exactly and keeps both durations in range |
| SeqLen.FillBlock | pilot_scripts/ophys_rig/day11.py:773-812 | the loop ends with equal-length lists summing exactly to `block_segs`, every duration in range; otherwise it fails on an empty range or an exhausted budget |
| SeqLen.CreateSeqLen | pilot_scripts/ophys_rig/day11.py:758-812 | one exact block; ZeroDivisionError exactly when `regs[1]+surps[1] == 0`; with non-empty ranges only the budget can stop it |
| SeqLen.CreateSeqLenBlocks | pilot_scripts/habituation_rig/day11.py:731-793 | `n_blocks` blocks, each exact for `block_segs` with durations in range |
| Timelines.SwapPermutes | pilot_scripts/ophys_rig/day11.py:851 | one Fisher–Yates swap permutes the list |
| Timelines.FisherYatesPermutes | pilot_scripts/ophys_rig/day11.py:851 | the shuffle pass is a permutation for every sequence of draws |
| Timelines.ShuffledPermutes | pilot_scripts/ophys_rig/day11.py:851 | a whole shuffle is a permutation of its input |
| Timelines.Shuffle | pilot_scripts/ophys_rig/day11.py:851 | `rng.shuffle` in place rearranges the array into the shuffle function's result, a permutation, and uses n-1 draws |
| Timelines.FisherYatesPasses | pilot_scripts/ophys_rig/day11.py:851 | the in-place passes from the last position down to 1 leave the array as the shuffle function prescribes, using one draw per pass |
| Timelines.SwapAt | pilot_scripts/ophys_rig/day11.py:851 | one pass's exchange of two array positions |
| Timelines.FlattenLength | pilot_scripts/ophys_rig/day11.py:850-852 | k whole bags hold k·n orientations |
| Timelines.BagPrefixCount | pilot_scripts/ophys_rig/day11.py:850-853 | any prefix of whole bags holds each orientation between ⌊L/n⌋ and ⌊L/n⌋+1 times its multiplicity |
| Timelines.CutBalanced | pilot_scripts/ophys_rig/day11.py:850-853 | a segment cut from whole bags is balanced in that sense |
| Timelines.BalancedMembers | pilot_scripts/ophys_rig/day11.py:850-853 | every orientation emitted belongs to `oris` |
| Timelines.CeilCovers | pilot_scripts/ophys_rig/day11.py:850 | `ceil(L/n)` bags hold at least L orientations |
| Timelines.ShuffledBags | pilot_scripts/ophys_rig/day11.py:850-852 | the accumulated list is k reshuffled bags of `oris`, which stays a permutation of itself |
| Timelines.FillSegment | pilot_scripts/ophys_rig/day11.py:849-853 | a segment has exactly its duration in orientations and is balanced |
| Timelines.TagsLength | pilot_scripts/ophys_rig/day11.py:847-868 | there is one code per image: sum(reg)+sum(surp) entries |
| Timelines.TagsAt | pilot_scripts/ophys_rig/day11.py:854-866 | image p of segment i carries code 0 on the regular part and the segment's surprise code on the surprise part |
| Timelines.TotalLenSum | pilot_scripts/ophys_rig/day11.py:847 | the pairs of a block add up to sum(reg)+sum(surp) |
| Timelines.ExpandBlock | pilot_scripts/ophys_rig/day11.py:847-868 | the orientation and code lists are segment by segment balanced and tagged, and equally long |
| Timelines.RepeatCount | pilot_scripts/ophys_rig/day11.py:835-836 | a constant list holds its value n times and nothing else |
| Timelines.SurpTypes | pilot_scripts/ophys_rig/day11.py:834-843 | surprise types are all 1s, all 2s, or for "both" exactly k//2 ones and the rest twos in some order; any other value raises ValueError |
| Timelines.OriSurpGenerator | pilot_scripts/ophys_rig/day11.py:814-870 | pairs each balanced orientation with its code (0, or the segment's surprise type); ValueError exactly for an unknown surprise mode |
| Timelines.NoOriBlocks | pilot_scripts/habituation_rig/day11.py:795-841 | with no orientations, the generator fails when it reads a missing block kappa or cuts an empty bag |
| Timelines.OriParSurpGenerator | pilot_scripts/habituation_rig/day11.py:795-841 | block k's entries are balanced orientations tagged 0 or 1 by segment and all carry kappa `block_order[k]` |
| Timelines.FlipGenerator | pilot_scripts/ophys_rig/day11.py:905-927 | `flipcode[0]` repeated reg times, then `flipcode[1]` surp times, segment by segment; IndexError for a short flip code |
| Timelines.FlipDirecGenerator | pilot_scripts/habituation_rig/day11.py:874-907 | the flip codes of block s, each stamped with block s's size, count and direction |
| Timelines.Kappas | pilot_scripts/ophys_rig/stim_params_2p.py:140 | kappa = 1/std² for every standard deviation: positive, and kappa·std² = 1 |
| Timelines.SetBlockOrder | pilot_scripts/ophys_rig/stim_params_2p.py:136-147 | the block order is a permutation of the kappas; ZeroDivisionError for a zero deviation |
| Banks.Halves | pilot_scripts/ophys_rig/stim_params_2p.py:98-99 | `-fieldsize/2` and `fieldsize/2`: exact halves of a fractional ('deg') side; of a whole-pixel ('pix') side, whole numbers rounded down from the true halves |
| Banks.WholeHalves | pilot_scripts/ophys_rig/stim_params_2p.py:98-99 | an even pixel width gives the exact field; an odd one the field shifted half a pixel down, [-961, 960] for 1921 |
| Banks.Centered | pilot_scripts/ophys_rig/stim_params_2p.py:98 | a centred uniform draw lies between the two halves; within half the width for a fractional side, within half the width plus half a pixel for a whole one |
| Banks.PosArray | pilot_scripts/ophys_rig/stim_params_2p.py:90-104 | n_im rows of n_elem positions, each between the halves of its side of the field |
| Banks.RoundWithin | pilot_scripts/ophys_rig/stim_params_2p.py:122 | rounding a value between two integers stays between them |
| Banks.RoundedSize | pilot_scripts/ophys_rig/stim_params_2p.py:122 | a rounded size stays within the rounded range |
| Banks.Size | pilot_scripts/ophys_rig/stim_params_2p.py:117-122 | every size lies in the size range, rounded when the module rounds |
| Banks.SizeArray | pilot_scripts/ophys_rig/stim_params_2p.py:106-122 | n_im rows of n_elem sizes within the range; IndexError for an empty range |
| Banks.SingleSize | pilot_scripts/ophys_rig/stim_params_2p.py:113-114 | a one-value range is duplicated, so every size equals it |
| Banks.PosSizeArrays | pilot_scripts/ophys_rig/stim_params_2p.py:124-134 | n_im+1 (positions, sizes) pairs, each position between the halves of the field and each size in the size range |
| Geometry.SetDirec | pilot_scripts/habituation_rig/day11.py:176-189 | left/right/up/down become 180/0/90/270; every direction lands in [0, 360) a whole number of turns from the input; an unknown name raises TypeError |
| Geometry.SetDirecIdempotent | pilot_scripts/habituation_rig/day11.py:176-189 | normalising a normalised direction changes nothing |
| Geometry.Quadrant | pilot_scripts/habituation_rig/day11.py:369 | `int(direc/90) % 4` is a quadrant 0..3 |
| Geometry.BuffSignHalfPlanes | pilot_scripts/habituation_rig/day11.py:369-377 | the x sign is -1 exactly for directions in [90, 270) and the y sign is -1 exactly for directions in [180, 360) |
| Geometry.FieldsNonneg | pilot_scripts/habituation_rig/day11.py:84-85 | both the day-11 field (×1.1, buffer /10) and the earlier one (buffer /20) are non-negative |
| Geometry.OriginVar | pilot_scripts/habituation_rig/day11.py:363-383 | ZeroDivisionError exactly for a zero field width; otherwise the quadrant's buffer signs |
| Geometry.DeadMask | pilot_scripts/habituation_rig/day11.py:466-470 | an element is dead iff \|x\| > init_wid/2 + buff or \|y\| > init_hei/2 + buff |
| Geometry.ParkedAlive | pilot_scripts/habituation_rig/day11.py:233-234 | the parking place of suppressed elements is never dead |
| Geometry.Spread | pilot_scripts/habituation_rig/day11.py:416-423 | a draw spread over a band is within half-width plus buffer |
| Geometry.BandDraw | pilot_scripts/habituation_rig/day11.py:431 | the buffer draw lies in [-buff, 0] |
| Geometry.ScreenInit | pilot_scripts/habituation_rig/day11.py:407-412 | one start position per requested element |
| Geometry.ScreenInitBounds | pilot_scripts/habituation_rig/day11.py:407-412 | every start position of a static element is on the screen |
| Geometry.BoxInit | pilot_scripts/habituation_rig/day11.py:414-426 | one start position per requested element |
| Geometry.BoxInitBounds | pilot_scripts/habituation_rig/day11.py:414-426 | moving elements start within screen plus buffer (never dead), on screen along the axis across the motion |
| Geometry.EdgeSpawnPlacement | pilot_scripts/habituation_rig/day11.py:429-438 | `EdgeSpawn`, the axis-aligned respawn branch of `_newStimsXY`, puts every point in the entry band on the upstream side, alive |
| Geometry.EdgePointPlacement | pilot_scripts/habituation_rig/day11.py:429-438 | one respawn point built from a band draw and a spread draw lies in the band on the side the elements come from |
| Geometry.NewStimsXY | pilot_scripts/habituation_rig/day11.py:404-456 | k new points; ValueError exactly for static elements outside the initial placement; moving elements clear `initScr` |
| Geometry.NewStimsAlive | pilot_scripts/habituation_rig/day11.py:404-426 | an initial placement never fails and never places an element where it counts as dead |
| Motion.InitFlipDirec | pilot_scripts/habituation_rig/day11.py:386-402 | start and end frames per interval: the end is the second value, the next start minus 1, or -1 for the last; it fails exactly for a malformed interval, with the first one's exception |
| Motion.ScheduleError | pilot_scripts/habituation_rig/day11.py:386-402 | the first malformed interval from a position on decides the exception (ValueError for a bad length, IndexError for a missing next start); none exactly when every interval is well formed |
| Motion.SingleEndsBeforeNext | pilot_scripts/habituation_rig/day11.py:396-400 | a single-valued interval ends just before the next start, or never |
| Motion.Select | pilot_scripts/habituation_rig/day11.py:492 | the flip selection has at most as many indices as unsuppressed elements |
| Motion.SelectMembers | pilot_scripts/habituation_rig/day11.py:492 | i is selected iff it is unsuppressed and its draw is below `flipfrac` |
| Motion.SelectBelow | pilot_scripts/habituation_rig/day11.py:492 | suppressed elements are never chosen for flipping |
| Motion.SelectIncreasing | pilot_scripts/habituation_rig/day11.py:492 | `np.where` lists the selected indices in increasing order |
| Motion.FlipRestores | pilot_scripts/habituation_rig/day11.py:493-497 | flip-on followed by flip-off restores the speeds |
| Motion.SetAtFrame | pilot_scripts/habituation_rig/day11.py:493 | in `SetAt`, the model of `_speed[randel] = v`, the selected elements take v and unselected elements keep their speed |
| Motion.ClearAt | pilot_scripts/habituation_rig/day11.py:505 | after revival an element is dead iff it was dead and is not flipped |
| Motion.AdvanceKeepsRest | pilot_scripts/habituation_rig/day11.py:480-481 | in `Advance`, the model of `_coords[:n-_suppress] += speed·(cos, sin)`, suppressed elements do not move |
| Motion.CountTruePrefix | pilot_scripts/habituation_rig/day11.py:485 | the rank of a dead element among the dead is below the number dead |
| Motion.RespawnPlaces | pilot_scripts/habituation_rig/day11.py:484-485 | in `Respawn`, the model of `_coords[dead] = _newStimsXY(sum(dead))`, the k-th dead element takes the k-th new point, and the others keep theirs |
| Motion.RespawnNone | pilot_scripts/habituation_rig/day11.py:484-485 | with no dead element the respawn changes no position |
| Motion.MoveKeepsTail | pilot_scripts/habituation_rig/day11.py:479-485 | elements past the unsuppressed prefix that are parked and not dead are still parked after the move and the respawn |
| Engine.PyIndex | pilot_scripts/habituation_rig/day11.py:346 | a list index is valid iff it is in [-len, len), and negative ones count from the end |
| Engine.PosSizeChoice | pilot_scripts/ophys_rig/day11.py:304-365 | fails exactly for an unset surprise flag or an unknown ophys flag at combo 3; a changed mean lies in [0, 360) |
| Engine.PosSizesError | pilot_scripts/ophys_rig/day11.py:304-365 | `setPosSizesAll` succeeds iff there is a bank, the choice succeeds and the chosen set (and in the earlier engine `combo` too, ourstimuli.py:227) indexes the bank; TypeError without a bank, otherwise the choice's own exception |
| Engine.Mod360Quarter | pilot_scripts/ophys_rig/day11.py:337-341 | adding quarter turns mod 360 moves by whole quarter turns |
| Engine.ChoiceTurnsByQuarters | pilot_scripts/ophys_rig/day11.py:325-357 | every choice moves the orientation mean by whole quarter turns |
| Engine.ChoiceInBank | pilot_scripts/ophys_rig/day11.py:325-357 | combos 0..3 with an accepted flag pick set `combo`, or set 4 at a flag-1 surprise, always within a five-set bank |
| Engine.SurpriseTwiceReturns | pilot_scripts/ophys_rig/day11.py:326-337 | two control-mode surprises turn the mean by 360, back to where it started |
| Engine.OriParams | pilot_scripts/habituation_rig/day11.py:265-275 | n orientations, all equal to the mean without dispersion |
| Engine.InitOriArrays | pilot_scripts/habituation_rig/day11.py:517-532 | one array per mean, in order; ValueError exactly when `newori` and `orimus` differ in length |
| Engine.FirstIndex | pilot_scripts/habituation_rig/day11.py:508-510 | `newori.index(frame)` finds the first occurrence |
| Engine.PosFrame | pilot_scripts/habituation_rig/day11.py:572 | one int16 pair per element |
| Engine.PosFrameClose | pilot_scripts/habituation_rig/day11.py:572 | recorded positions are within half a unit of the real ones while in int16 range |
| Engine.OriFrame | pilot_scripts/habituation_rig/day11.py:252 | one int16 orientation per element |
| Engine.EarlySkipsOddFrames | ourstimuli.py:472-476 | with moving elements the earlier engine's counter, raised again in `_update_stim_mov`, shows only even frames: draw k sees 2k |
| Engine.Day11SeesEveryFrame | pilot_scripts/habituation_rig/day11.py:582-588 | the day-11 counter shows frame f at draw f and at no other draw |
| Engine.SetAtKeepsSpeeds | pilot_scripts/habituation_rig/day11.py:493-497 | flipping and restoring keep every speed at ±defaultspeed |
| Engine.ReviveKeepsSpeeds | pilot_scripts/habituation_rig/day11.py:503 | reviving keeps every speed at ±defaultspeed |
| Engine.Survivors | pilot_scripts/habituation_rig/day11.py:466-477 | one respawn flag per element |
| Engine.SurvivorsAt | pilot_scripts/habituation_rig/day11.py:466-477 | an element is respawned iff it is dead and not flipped |
| Engine.ParkedNotRespawned | pilot_scripts/habituation_rig/day11.py:466-477 | parked elements are never respawned |
| Engine.RevivedStay | pilot_scripts/habituation_rig/day11.py:476-485 | a revived flipped element keeps its advanced position |
| Engine.ElementField.SpeedUpdate | pilot_scripts/habituation_rig/day11.py:489-499 | fails only at a flip end without a selection in the earlier engine; positions and `initScr` never change |
| Engine.ElementField.Revived | pilot_scripts/habituation_rig/day11.py:501-505 | reviving changes only speeds |
| Engine.ElementField.FlipPhase | pilot_scripts/habituation_rig/day11.py:466-477 | the flip half of a motion step leaves positions and `initScr` alone |
| Engine.ElementField.MoveRespawn | pilot_scripts/habituation_rig/day11.py:479-485 | moving keeps speeds and selection; with nothing dead it cannot fail and draws nothing |
| Engine.ElementField.StimMov | pilot_scripts/habituation_rig/day11.py:458-487 | a motion step keeps one position and one speed per element |
| Engine.ElementField.Replaced | pilot_scripts/habituation_rig/day11.py:512-515 | re-placing fails exactly with no elements and keeps speeds and selection |
| Engine.ElementField.StimMovKeepsTail | pilot_scripts/habituation_rig/day11.py:458-487 | a motion step keeps the suppressed tail parked |
| Engine.ElementField.MoveRespawnKeepsTail | pilot_scripts/habituation_rig/day11.py:479-485 | parked elements that are not dead stay parked through the move and the respawn |
| Engine.ElementField.StimMovRespawnsOnEdge | pilot_scripts/habituation_rig/day11.py:429-438 | after the first placement, for an axis-aligned direction, every respawned element sits alive in the entry band on the upstream edge, and every other element holds its advanced position |
| Engine.ElementField.ReplacedAlive | pilot_scripts/habituation_rig/day11.py:512-515 | a re-placement never fails with elements and puts every one of them where it is not dead |
| Engine.ElementField.constructor | pilot_scripts/habituation_rig/day11.py:112-144 | the fresh engine keeps its parameters, with default speeds, no flip selection, counter 0 and the recording lists the speed calls for; the ophys engine starts in rotating-control mode (`_ctrl = True`, pilot_scripts/ophys_rig/day11.py:123) |
| Engine.ElementField.WriteSpeeds | pilot_scripts/habituation_rig/day11.py:493 | `_speed[idx] = v` |
| Engine.ElementField.StartFlip | pilot_scripts/habituation_rig/day11.py:491-495 | a flip start draws one number per unsuppressed element and reverses exactly `Select`'s elements, storing an empty selection as None |
| Engine.ElementField.ReverseSelected | pilot_scripts/habituation_rig/day11.py:493-495 | the selected elements get -defaultspeed, the speed invariant holds, and an empty selection is stored as None |
| Engine.ElementField.EndFlip | pilot_scripts/habituation_rig/day11.py:496-499 | the flipped elements get defaultspeed back and the selection is cleared; without a selection the speeds stay and only the earlier engine raises AttributeError |
| Engine.ElementField.UpdateStimSpeed | pilot_scripts/habituation_rig/day11.py:489-499 | at a start, the selected unsuppressed elements get -defaultspeed (no selection: None); at an end, they are restored and the selection is cleared (the earlier engine raises AttributeError without one); otherwise nothing changes |
| Engine.ElementField.SetFlip | pilot_scripts/ophys_rig/day11.py:183-202 | day-11 engines only: only a 0→1 or 1→0 change calls the speed update, with its exact new speeds, selection and draw cursor (advanced by the live count at a start, unchanged at an end); any other value changes nothing |
| Engine.ElementField.ReviveFlippedStim | pilot_scripts/habituation_rig/day11.py:501-506 | dead flipped elements get defaultspeed back and leave the dead mask |
| Engine.ElementField.AdvanceAll | pilot_scripts/habituation_rig/day11.py:479-481 | unsuppressed elements move by speed·(cos, sin); the rest stay |
| Engine.ElementField.PlaceRespawned | pilot_scripts/habituation_rig/day11.py:484-485 | `_coords[dead] = new`, rank by rank |
| Engine.ElementField.WriteCoords | pilot_scripts/habituation_rig/day11.py:226 | `_coords` becomes the new placement |
| Engine.ElementField.NewStims | pilot_scripts/habituation_rig/day11.py:404-456 | the placement of `_newStimsXY(k)` and the `initScr` it leaves; IndexError with no elements |
| Engine.ElementField.SuppressExtraStims | pilot_scripts/habituation_rig/day11.py:232-234 | the last `_suppress` elements are parked and the others keep their place |
| Engine.ElementField.DeadAfterFlips | pilot_scripts/habituation_rig/day11.py:466-477 | AttributeError with nothing changed while `_coords` is unset; otherwise the new speeds, selection and cursor are `FlipPhase` of the old state (the speed update, then the revival), or its exception, and the mask is the dead elements not flipped |
| Engine.ElementField.FlipSpeeds | pilot_scripts/habituation_rig/day11.py:471-473 | with flip intervals the new state is `SpeedUpdate` at the current frame, or its exception; without them, or after an exception, nothing changes |
| Engine.ElementField.ReviveIfDead | pilot_scripts/habituation_rig/day11.py:475-476 | the new speeds are `Revived` of the old state (flipped dead elements revived only when one of them is dead), and no flipped element stays on the dead list |
| Engine.ElementField.MoveAndRespawn | pilot_scripts/habituation_rig/day11.py:479-487 | the new positions, `initScr` and cursor are `MoveRespawn` of the old state, or its exception, and the result is shown; after an exception nothing changes |
| Engine.ElementField.RespawnDead | pilot_scripts/habituation_rig/day11.py:483-485 | the dead elements take the new points rank by rank; IndexError when a still-initial placement would not cover every element |
| Engine.ElementField.FlipMoveRespawn | pilot_scripts/habituation_rig/day11.py:466-487 | AttributeError with nothing changed while `_coords` is unset; otherwise the new state is `StimMov` of the old state at the current frame, or its exception, and the result is shown |
| Engine.ElementField.UpdateStimMov | pilot_scripts/habituation_rig/day11.py:458-487 | in every engine, the new motion state or the exception is `MoveStep` of the old state with a speed: AttributeError with nothing moved while `_coords` is unset, otherwise `StimMov`; the earlier engine also counts a frame first |
| Engine.ElementField.UpdateStimPos | pilot_scripts/habituation_rig/day11.py:512-515 | the new positions, `initScr` and cursor are `Replaced` of the old state (IndexError with no elements, nothing changed); `_coords` is then set and shown |
| Engine.ElementField.RecordPositions | pilot_scripts/habituation_rig/day11.py:570-572 | moving day-11 elements append exactly the shown positions to `posByFrame`; AttributeError exactly when they have no positions yet; otherwise nothing is recorded |
| Engine.ElementField.ShowFrame | pilot_scripts/habituation_rig/day11.py:561-572 | the new motion state, or the exception, is exactly `ShowStep` of the old state: `Replaced` at a `newpos` frame, untouched otherwise, then AttributeError exactly when moving day-11 elements have no `_coords`; at a `newori[1:]` frame the orientations become `_oriarrays[newori.index(frame)]` unless the re-placement failed; moving day-11 elements add exactly one `posByFrame` entry |
| Engine.ElementField.ShowStep | pilot_scripts/habituation_rig/day11.py:561-572 | the display part of a frame fails exactly when a `newpos` frame finds no elements, or when moving day-11 elements have no `_coords` to record; at other frames it changes nothing |
| Engine.ElementField.CountFrame | pilot_scripts/habituation_rig/day11.py:582-583 | `last_frame` becomes the pre-increment count and the counter advances by one (the earlier engine logs no last frame and then reads the first speed: IndexError without elements); an exception already raised skips it |
| Engine.ElementField.MoveFrame | pilot_scripts/habituation_rig/day11.py:587-588 | after no earlier exception, the new motion state or the exception is exactly `MoveStep` of the old state: nothing without a speed, AttributeError while `_coords` is unset, else `StimMov`; after an exception nothing changes |
| Engine.ElementField.MoveStep | pilot_scripts/habituation_rig/day11.py:587-588 | without a speed the move changes nothing, and with one it raises AttributeError while `_coords` is unset |
| Engine.ElementField.CountAndMove | pilot_scripts/habituation_rig/day11.py:582-588 | after no earlier exception the counter advances by one (two in the earlier engine when moving), `last_frame` is the pre-increment count, and the new motion state or the exception is exactly `CountMoveStep` of the old state; after one the counter stays |
| Engine.ElementField.CountMoveStep | ourstimuli.py:472-476 | the earlier engine's first-speed read raises IndexError exactly without elements; otherwise without a speed nothing changes, and with one AttributeError while `_coords` is unset |
| Engine.ElementField.Draw | pilot_scripts/habituation_rig/day11.py:554-588 | one frame: the new motion state, or the first exception in source order, is exactly `DrawStep` of the old state; the counter advances by `FrameStep` unless the display part failed; `last_frame`, orientations and `posByFrame` as in the parts |
| Engine.ElementField.DrawStep | pilot_scripts/habituation_rig/day11.py:554-588 | an exception of the display part ends the frame, and a completed frame keeps one position per element |
| Engine.ElementField.WriteAndPark | pilot_scripts/habituation_rig/day11.py:226-234 | the unsuppressed prefix holds the new placement and the suppressed tail is parked |
| Engine.ElementField.PlaceAll | pilot_scripts/habituation_rig/day11.py:152-158 | with `initScr` set, every element placed by `_newStimsXY(nElements)` into `_coords`, the tail parked and the result shown; IndexError exactly with no elements |
| Engine.ElementField.PlaceUnset | pilot_scripts/habituation_rig/day11.py:404-456 | with `initScr` unset `_coords` stays unset: IndexError with no elements, ValueError without a speed, AttributeError in a day-11 engine; the earlier engine shows the edge placement |
| Engine.ElementField.PlaceFirst | pilot_scripts/habituation_rig/day11.py:152-163 | raises exactly `FirstPlacementError`; `_coords` is set iff no bank (or the earlier engine) and `initScr` was set, with the tail parked; with a bank its first entry is shown |
| Engine.ElementField.Resize | pilot_scripts/habituation_rig/day11.py:205-214 | a new size sets `_suppress` to n-count when fewer are requested, to 0 when exactly n are, and otherwise leaves it |
| Engine.ElementField.Redirect | pilot_scripts/habituation_rig/day11.py:216-221 | a new direction is normalised and gets its buffer signs; TypeError exactly for a new unknown name |
| Engine.ElementField.Reinit | pilot_scripts/habituation_rig/day11.py:223-230 | full re-initialisation by `_newStimsXY(nElements)` with the tail parked; IndexError exactly with no elements, leaving `_coords` |
| Engine.ElementField.Reshape | pilot_scripts/habituation_rig/day11.py:204-230 | size and direction updates as above; it fails exactly with TypeError for a new unknown direction or IndexError for a change with no elements, leaving `_coords`; otherwise either change re-places every element by `_newStimsXY(nElements)` with the tail parked, and with neither the positions are untouched |
| Engine.ElementField.SetFlipDirecSize | pilot_scripts/habituation_rig/day11.py:192-230 | the flip value changes only from 0 to 1 or 1 to 0; then the size and direction updates of `Reshape`, failing exactly as it does (TypeError or IndexError), and otherwise re-placing on a change with the tail parked |
| Engine.ElementField.SetCtrl | pilot_scripts/ophys_rig/day11.py:1125 | a session sets `_ctrl` after construction (off for the main gabor run, on at line 1225 for the rotating gabors), and `SetPosSizesAll` then follows the chosen mode |
| Engine.ElementField.SetPosSizesAll | pilot_scripts/ophys_rig/day11.py:304-365 | raises exactly `PosSizesError`; otherwise shows the chosen bank entry, takes the mean `PosSizeChoice` gives for the current `_ctrl` mode (rotating control or fixed mean) and resamples the orientations; errors leave mean and orientations |
| Engine.ElementField.SetOriParSurp | pilot_scripts/habituation_rig/day11.py:236-252 | new mean, kappa (held through `Dispersion`: the earlier engine's kappa 0 means none) and flag (the earlier engine keeps only flags 0 and 1), resampled orientations, one `orisByImg` entry |
| Engine.Frames | pilot_scripts/habituation_rig/day11.py:130 | frame times are the given seconds times fps |
| Engine.IntervalFrames | pilot_scripts/habituation_rig/day11.py:127 | flip intervals in frames, interval by interval |
| Engine.PrepareError | pilot_scripts/habituation_rig/day11.py:89-134 | the constructor's checks succeed iff the direction is known, the width is not zero, every flip interval is well formed, there is a first mean and as many means as change frames |
| Engine.FirstPlacementError | pilot_scripts/habituation_rig/day11.py:152-163 | the first placement succeeds iff, without a bank (always in the earlier engine), there are elements and `initScr` is set or the earlier engine has a speed; with a bank, iff it is not empty |
| Engine.Prepare | pilot_scripts/habituation_rig/day11.py:89-134 | succeeds iff every check passes and otherwise raises the first failing check's exception (`PrepareError`); the settings it yields |
| Engine.Build | pilot_scripts/habituation_rig/day11.py:112-163 | fails exactly with `FirstPlacementError`; the new engine keeps the prepared settings, with default speeds, counter 0, no selection, and `_coords` set (tail parked) iff placed with `initScr` set |
| Engine.Create | pilot_scripts/habituation_rig/day11.py:49-165 | succeeds iff both the checks and the first placement do, and otherwise raises the first failure's exception; a valid engine with the normalised direction, the flip schedule in frames, default speeds, counter 0 and `_coords` set iff placed with `initScr` set |
| Movies.Slice | pilot_scripts/movie_transformer.py:9 | an in-range slice is the ordinary subsequence |
| Movies.ReverseTwice | pilot_scripts/movie_transformer.py:14 | `flipud` twice is the identity |
| Movies.ReverseWindow | pilot_scripts/movie_transformer.py:21 | a window of the reversed clip is the reversed mirror window |
| Movies.GenerateMovies | pilot_scripts/movie_transformer.py:9-28 | `generatemovies`: "0" is a prefix of the movie, 270 frames long or the whole movie if shorter, and "1" is as long; `ForwardAndBackward`, `ForwardScrub` and `BackwardScrub` state the contents |
| Movies.MovieDict | pilot_scripts/movie_transformer.py:30-35 | exactly the keys "0".."3" |
| Movies.ForwardAndBackward | pilot_scripts/movie_transformer.py:9-14 | "0" is the first 270 frames (fewer if the movie is shorter) and "1" is exactly its reverse |
| Movies.ForwardScrub | pilot_scripts/movie_transformer.py:18-22 | "2" is short[0:90] ++ reverse(short[0:90]) ++ short[0:90], 270 frames |
| Movies.BackwardScrub | pilot_scripts/movie_transformer.py:24-28 | "3" is reverse(short[180:270]) ++ short[180:270] ++ reverse(short[180:270]), 270 frames |
| Movies.ScrubTurns | pilot_scripts/movie_transformer.py:16-28 | the scrubs turn at frames 90 and 180 and show the expected source frames |

## Left out

- Rendering: the psychopy/camstim calls (`setXYs`, `setSizes`, `setSfs`, `_adjustSF`, `super().draw()`), windows, logging, `_check_keys` and the `win.close` at the end of the duration. The engine keeps what it hands to the display in `xys`, `sizes` and `oris`.
- The distributions: von Mises orientations, uniform positions and RNG internals. They are oracles constrained to their ranges.
- Trigonometry: the cosine and sine of the direction are supplied (`trig`).
- The diagonal respawn branch of `_newStimsXY`, which uses arctan ratios. Its points come from `diag`.
- The `init_run_*` functions, `winVar`, the size parameters (`setSizeParams`, `_initSizes`), configuration pickles and all `__main__` blocks.
- `val2array` belongs to psychopy. It is taken to duplicate one value, keep two and raise ValueError otherwise.
- Every error is an `Err` result. The state a failing call leaves behind is not modelled beyond what each contract names.
- Timelines.SetBlockOrder: `setkaps` in `stim_params.py` shuffles with Python's `random`. It draws in a different order from numpy's; both are modelled by the same oracle shuffle.
- SeqLen.CreateSeqLen: the source's loop may run forever for ranges that cannot fill a block. The model takes an iteration budget and returns `BudgetExceeded` when it runs out; block lengths below the minimum pair are excluded by a precondition.
- SeqLen.CreateSeqLen: durations are integers. The float divisions of the `*order` wrappers (`block_len/set_len`) are the callers' business and are not modelled.
- Engine.ElementField.AdvanceAll: the earlier engine and `_newStimsXY` rebind `coords` to a new array. The model writes the engine's own array in place.
- Engine.ElementField.UpdateStimPos: re-placing at a `newpos` frame does not park the suppressed tail, as in the source. `Draw` therefore states its new state through `DrawStep`, which composes `Replaced` and `StimMov`; that a motion step keeps a parked tail parked is `StimMovKeepsTail`.
- Geometry.EarlyField: the earlier engine's field sides are taken as real numbers. Given whole-pixel sides, Python 2's integer `/` would floor the buffer `(w+h)/20` and the halves `w/2` used in placement and the dead test (`ourstimuli.py` lines 271, 301 and 366); the model divides exactly.
- SeqLen.FloorDiv: `int(a/b)` is modelled with Python 2's floor division. Under Python 3 it would truncate toward zero; the two differ only when the largest pair sums to a negative number.
- Engine.Create: the field size must be non-negative. In the habituation engine `currval`'s count must lie in 0..n. With a larger count the source would suppress a negative number of elements.
- Engine.Create: in the ophys engine `currval` is the flip value alone. The model reads it from the `flip` field of the same entry type the habituation engine takes.
- Engine.ElementField.SetFlipDirecSize: the element count must be non-negative.
- Engine.Dispersion: an earlier-engine kappa of None, which the source would pass to the von Mises draw, is not modelled. There, None means no dispersion.
- The module-level directory walk and file I/O of `movie_transformer.py`.
