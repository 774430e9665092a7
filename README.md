# UnityRand in Dafny

This project models the core of LeafesMan/UnityRand, a Unity library with two parts.

- **The audio manager** (`AudioManager.cs`) plays clips. One-shot clips go to a pool of audio sources kept in ascending order of the time their clip ends. When the pool is full, the source closest to finishing is taken even though it still plays. Looping clips go to numbered slots. Each slot holds a pair of looping sources that swap roles, and cross-fade, whenever a new clip starts in the slot. Every play request runs at once, or after a delay.
- **The seeded random generators** (`Rand.cs` and its older copy `LeafRand.cs`) are built on the Squirrel3 noise function. Each keeps a seed and a position, and every draw replaces the position by the noise at the old position. On top of the draws sit a probability roll, a remap of a draw onto an integer range, uniform choice from a list, and weighted choice by a prefix-sum scan.
- **Two small list utilities**: the first-match search `Weighted.IndexOfElement` (`Weighted.cs`), and the copy returned by `WeightedObjectList.GetWeightedListCopy` (`WeightedObjectList.cs`).

Files:

| file | module | models |
|---|---|---|
| `numerics.dfy` | `Numerics` | C# `int` and `uint` as integer ranges: unchecked wrap-around, the `(int)` and `(uint)` casts, the conversion of a `uint` to `float`, and the `(int)` cast of a float |
| `wrappers.dfy` | `Wrappers` | `Option`, and `Result` for calls that throw |
| `selection.dfy` | `Selection` | list indexing that throws, and the prefix-sum search both generators use, with its two loops |
| `weighting.dfy` | `Weighting` | `Weighted<T>` and `IndexOfElement` |
| `weighted_objects.dfy` | `WeightedObjects` | `WeightedObjectList` and its copy |
| `seeded_rand.dfy` | `SeededRand` | `Rand`: noise, remap, the draw sequence and the generator class |
| `leaf_rand.dfy` | `LeafRandom` | `LeafRand`: its state changes and its weighted choice |
| `pool_order.dfy` | `PoolOrder` | `List.Remove`, `List.Insert` and the insertion-point scan, as functions on sequences |
| `audio.dfy` | `Audio` | audio sources, pooled sources and the `AudioManager` class |

Modelling choices:

- **Time and scene.** Time is a `real` number of seconds, passed to every operation that reads `Time.time` as `now`. A `Transform` is an id. The scene is a map from the ids of live transforms to their positions, so an id missing from the map is a destroyed object, which Unity compares equal to `null`.
- **Audio objects.** `AudioSource`, `PooledAudioSource` and `AudioManager` are classes whose methods update their fields, as the source's do. The pool is a `seq` field, and the looping pool a `map` field.
- **Coroutines.** A started `FadeVolume` coroutine is recorded in the `fades` log. A delayed callback waits in the `deferred` list until `ResumeDeferred` runs it.
- **Floats.** Floats are exact reals, except where `Rand`'s draws are divided by `uint.MaxValue`. There the 32-bit float conversion of the `uint` noise is modelled (round to nearest, ties to even), and so is the `(int)` cast of `Floor`.
- **Draws.** Weighted choice takes the float `Range(0, totalWeight)` of its draw as a parameter `draw`. `RangeFloat` computes that value from a noise value, and `TopNoiseWeightedThrows` uses it. `LeafRand`'s draw comes from the float-position noise overload, so it is a parameter `next`.
- **Integers.** C# `uint` and `int` are integer newtypes. Their wrap-around is written out. The Squirrel3 steps run on `bv32`.
- **Throwing calls.** A call that throws returns `Failure` of a `Result`. This covers a list indexed out of range, the scan that ends without a pick, and `pool[0]` on an empty pool.
- **`LeafRand` noise.** `LeafRand.cs` repeats `Rand.cs`'s integer noise and remap textually (`LeafRand.cs:193-212`, `276-280`). They are defined once, in `SeededRand`, and `LeafRandom` uses them.
- **Where the code and its comments disagree, the model follows the code.**
  - `IsActive` is true once the clip is over, strictly after `endTime` (`AudioManager.cs:93`).
  - Both fades that `PlayClipLooping` starts target the pre-swap `Item2` (`AudioManager.cs:171`, `176`), although the comment above them speaks of fading out the other source.

## Model

| member | source | states |
|---|---|---|
| Numerics.Wrap | Rand.cs:213 | unchecked `int` arithmetic: the result differs from the exact value by a multiple of 2^32 and equals it when it is in the `int` range |
| Numerics.Add | Rand.cs:213-215 | `x + y * 198491317` in unchecked `int` arithmetic: the sum differs from the exact one by a multiple of 2^32 and equals it when it fits in an `int` |
| Numerics.Mul | Rand.cs:213-215 | the products `y * 198491317` and `z * 6542989`: the same for the exact product |
| Numerics.ToUInt | Rand.cs:202 | `(uint)position` keeps a non-negative value and adds 2^32 to a negative one |
| Numerics.ToInt | Rand.cs:64 | `(int)pos` keeps a value below 2^31 and subtracts 2^32 from a larger one |
| Numerics.WrapCongruent | Rand.cs:213-215 | integers congruent modulo 2^32 wrap to the same `int` |
| Numerics.WrapInner | Rand.cs:213-215 | wrapping an intermediate product before the addition does not change the wrapped sum |
| Numerics.ToUIntOfWrap | Rand.cs:202 | the `uint` bits of a wrapped value are the exact value modulo 2^32 |
| Numerics.ToUIntOfToInt | Rand.cs:64 | `(uint)(int)pos == pos`: the position reaches the noise function bit for bit |
| Numerics.ToIntOfToUInt | Rand.cs:202 | `(int)(uint)x == x` |
| Numerics.FloatOf | Rand.cs:54 | `(float)` of a `uint` value: a float (a multiple of the spacing at the value), at most half a spacing away and so the nearest one, of two equally near the even multiple, and the value itself below 2^24 |
| Numerics.RoundToSpacing | Rand.cs:54 | rounding to a multiple of a spacing: at most half a spacing away, ties to the even multiple |
| Numerics.FloatOfUInt | Rand.cs:282 | a `uint` converts to at most 2^32, and to 2^32 itself exactly from `0xFFFFFF80` up |
| Numerics.Truncate | Rand.cs:304 | the cast rounds toward zero: down for non-negative values, up for negative ones, by less than 1 |
| Numerics.CastToInt | Rand.cs:304 | `(int)num` is the truncation when it fits in an `int`; outside that range, where C# leaves the result unspecified, it is `int.MinValue`, as on x86 |
| Selection.ElementAt | Rand.cs:101 | the list indexer succeeds exactly when the index is in `[0, Count)`, with the element at it, and otherwise throws out-of-range for that index |
| Selection.PickOrThrow | Rand.cs:132-137 | a found index gives the element at it; no index gives the exception of Rand.cs:137 |
| Selection.Sum | Rand.cs:118-120 | the total of one weight is that weight, and non-negative weights total at least 0 |
| Selection.RunningSum | Rand.cs:131 | the running total at `i` is the sum of the weights before `i` plus `weights[i]`, and with non-negative weights at least `weights[i]` |
| Selection.FirstExceedingFrom | Rand.cs:129-133 | the scan from index `i`, given the running total before `i`, finds the first index at or after `i` whose running total exceeds the draw, or reports that none does |
| Selection.FirstExceeding | Rand.cs:127-137 | a found index is in range, its running total exceeds the draw and no earlier running total does; no index means no running total exceeds the draw |
| Selection.TotalWeight | Rand.cs:118-120 | the first loop of `Weighted` ends with the sum of all weights |
| Selection.ScanWeights | Rand.cs:128-137 | the second loop returns the element at the first index whose running total exceeds the draw, and throws when there is none |
| Selection.SumMonotone | Rand.cs:129-133 | with non-negative weights the running totals never decrease |
| Selection.RunningSumAtMostTotal | Rand.cs:118-133 | with non-negative weights every running total is at most the total |
| Selection.PickFoundIff | Rand.cs:127-137 | for non-negative weights and draw, the scan picks an element if and only if the draw is below the total, so a draw equal to the total throws |
| Selection.SumOfZeros | Rand.cs:118-120 | weights that are all zero total zero |
| Selection.AllZeroFindsNone | Rand.cs:122-137 | when every weight is zero, no non-negative draw is exceeded, so the scan throws |
| Selection.RunningSumOfPrefix | LeafRand.cs:109-113 | the running totals of the first `n` weights are those of the whole list |
| Weighting.Weighted.constructor | Weighted.cs:9-13 | the element and weight are stored unchanged |
| Weighting.ElementsOf | Rand.cs:146-150 | the elements the `GetElement` lambda reads, in list order |
| Weighting.WeightsOf | Rand.cs:146-150 | the weights the `GetWeight` lambda reads, in list order |
| Weighting.IndexOfElement | Weighted.cs:16-24 | -1 exactly when no entry holds the element; otherwise the smallest index of an entry that holds it; always in `[-1, Count)`; the list is only read |
| WeightedObjects.WeightedObjectList.constructor | WeightedObjectList.cs:17 | the asset holds the given list |
| WeightedObjects.WeightedObjectList.GetWeightedListCopy | WeightedObjectList.cs:22-27 | a new list (a value, so adding or removing entries in it leaves `weightedObjects` as it was) of the same length, whose `i`-th entry is the `i`-th stored entry; nothing is modified |
| WeightedObjects.WeightedObjectList.GetWeightedListDeepCopy | WeightedObjectList.cs:19-21 | the copy the comment asks for: same length, every entry freshly allocated with the stored element and weight |
| WeightedObjects.EditShallowCopy | WeightedObjectList.cs:19-27 | setting a weight through the returned copy sets it in the stored list |
| WeightedObjects.EditDeepCopy | WeightedObjectList.cs:19-21 | the same edit through the deep copy leaves every stored weight as it was |
| SeededRand.FirstProductLow30 | Rand.cs:203 | `bigP1 = 0x68E31DA4` is a multiple of 4, so the top two bits of `mangled` do not change `mangled * bigP1` |
| SeededRand.Mangle | Rand.cs:202-210 | the Squirrel3 steps on the bits of a position depend only on its low 30 bits |
| SeededRand.Noise | Rand.cs:196-211 | 1D noise is the Squirrel3 steps on the position's bits: a non-negative position as it is, a negative one plus 2^32 |
| SeededRand.NoiseKnownValues | Rand.cs:196-211 | the 1D noise with the constants `0x68E31DA4`, `0xB5297A4D`, `0x1B56C4E9` is `0xB042BB5C` at (0, 0), `0x81E55042` at (1, 0), `0xC73DA8AC` at (0, 1) and `0x5B4D2E3B` at (-1, 0) |
| SeededRand.Position2DIsFolded | Rand.cs:213 | the 2D position is the exact `x + y * 198491317` modulo 2^32 |
| SeededRand.Noise2D | Rand.cs:213 | 2D noise is 1D noise at the exact `x + y * 198491317`, wrapped to an `int` |
| SeededRand.Position3DIsFolded | Rand.cs:215 | the 3D position is the exact `x + y * 198491317 + z * 6542989` wrapped to an `int` |
| SeededRand.Noise3D | Rand.cs:215 | 3D noise is 1D noise at the exact `x + y * 198491317 + z * 6542989`, wrapped to an `int` |
| SeededRand.Fraction | Rand.cs:54 | `(float)noise / uint.MaxValue` is in `[0, 1]`, exactly `noise / 2^32` below 2^24, and equal to 1 exactly for the noise values from `0xFFFFFF80` up |
| SeededRand.Remap | Rand.cs:279-283 | the largest noise value maps to `max` itself |
| SeededRand.RemapEmptyRange | Rand.cs:124 | `Range(0, -1)`, the index an empty list is read at, is -1 at the largest noise value and 0 at every other |
| SeededRand.RemapNegativeRangeEscapes | Rand.cs:282 | as written, a draw on `[-3, -2]` can come out as -1 |
| SeededRand.RemapWideRangeEscapes | Rand.cs:282 | as written, the step count of `[0, int.MaxValue]` overflows to `int.MinValue`, and a draw half way up comes out as `-2^30` |
| SeededRand.RemapTopNoiseEscapes | Rand.cs:282 | as written, the noise `0xFFFFFF80` has float quotient 1, so on `[0, 9]` it gives 10 |
| SeededRand.RangeFloat | Rand.cs:275 | the float `Remap` behind `Range(min, max)`: in `[min, max]` for `min <= max`, and `max` itself for the noise values from `0xFFFFFF80` up |
| SeededRand.Interpolate | Rand.cs:275 | `min + frac * (max - min)` lies in `[min, max]` for a fraction in `[0, 1]` and is `max` at 1 |
| SeededRand.TopNoiseWeightedThrows | Rand.cs:126-137 | as written, with non-negative weights and a draw whose float quotient is 1, `Range(0f, totalWeight)` is the total, no running total exceeds it, and `Weighted` throws |
| SeededRand.RemapIntended | Rand.cs:276-283 | the remap the comment promises, counted without overflow and rounded down; the largest noise value maps to `max` |
| SeededRand.RemapIntendedInRange | Rand.cs:276-283 | for `min <= max` every draw of the intended remap is in `[min, max]`, noise 0 gives `min` and the largest noise value gives `max` |
| SeededRand.RemapIndexRange | Rand.cs:101 | on `[0, n - 1]` the remap as written gives a draw in `[0, n]`, and it is `n`, one past the end of an `n`-element list, exactly for the noise values in `[0xFFFFFF80, uint.MaxValue)` |
| SeededRand.Next | Rand.cs:62-65 | one draw is the Squirrel3 steps on the bits of the position itself: the `(int)` cast before `Noise` and the `(uint)` cast inside it cancel |
| SeededRand.Orbit | Rand.cs:62-67 | `n` repeated draws give `n` values, the first being one step from the start |
| SeededRand.OrbitChain | Rand.cs:62-67 | each value after the first is one step from the value before it |
| SeededRand.OrbitResume | Rand.cs:62-67 | `m + n` repeated steps are `m` steps followed by `n` steps from where those end |
| SeededRand.DrawsChain | Rand.cs:62-67 | each draw after the first is the noise at the value drawn before it |
| SeededRand.DrawsResume | Rand.cs:33-40 | a generator built or reset with the `(seed, pos)` reached after `m` draws continues the same sequence |
| SeededRand.ZeroWeightsThrow | Rand.cs:122-137 | as written, two entries of weight 0 with the draw 0 make `Weighted` throw |
| SeededRand.Rand.constructor | Rand.cs:33-37 | the seed and position are the given ones |
| SeededRand.Rand.SetSeed | Rand.cs:39 | sets both the seed and the position |
| SeededRand.Rand.SetPos | Rand.cs:40 | sets only the position, keeping the seed |
| SeededRand.Rand.Random | Rand.cs:62-67 | the position becomes the noise at `(int)pos`, which is returned and is the first value of the draw sequence |
| SeededRand.Rand.Chance | Rand.cs:49-55 | probability 0 gives false without a draw; otherwise one draw, with the result true exactly when the float quotient of the draw by `uint.MaxValue` is at most the probability |
| SeededRand.Rand.RangeInt | Rand.cs:85 | one draw, remapped onto `[min, max]` |
| SeededRand.Rand.Element | Rand.cs:101 | one draw; the element at the remapped index; a non-empty list throws, out of range at `Count`, exactly when the float quotient of the draw is 1 |
| SeededRand.Rand.Weighted | Rand.cs:115-138 | exactly one draw; with no entries it reads the empty list at `Range(0, -1)` and throws; otherwise the first entry whose running weight exceeds the draw, or a throw when none does |
| SeededRand.Rand.WeightedList | Rand.cs:144-151 | the same choice over the elements and weights of a list of entries |
| SeededRand.Rand.WeightedIntended | Rand.cs:122-124 | the corrected choice: zero total weight with entries picks a uniformly drawn entry, which throws only when the float quotient of the draw is 1; any other total makes the scan's choice |
| LeafRandom.LeafScan | LeafRand.cs:107-116 | a picked item is the first whose running weight exceeds the draw; a throw means no running weight among the first `min(Count, weights.Count)` does, and it is out of range at `weights.Count` when the weights run out, at 0 (`items[0]`) when there are no items, and the final exception otherwise |
| LeafRandom.LeafScanAligned | LeafRand.cs:107-116 | with as many weights as items, the scan of `LeafRand` makes the same choice as that of `Rand` |
| LeafRandom.SplitWeighted | LeafRand.cs:125-132 | the weights and elements lists have the entries' length and hold them in the original order |
| LeafRandom.LeafRand.constructor | LeafRand.cs:23-24 | seed and position start at 0 |
| LeafRandom.LeafRand.SetSeed | LeafRand.cs:28 | sets the seed and the position |
| LeafRandom.LeafRand.SetPos | LeafRand.cs:29 | sets only the position |
| LeafRandom.LeafRand.Chance | LeafRand.cs:38-44 | probability 0 gives false without advancing the position; otherwise one draw and the float quotient test |
| LeafRandom.LeafRand.RangeInt | LeafRand.cs:74 | one draw, remapped; the largest draw gives `max` |
| LeafRandom.LeafRand.Weighted | LeafRand.cs:97-117 | with no weights, a uniformly drawn item, which throws for a non-empty list exactly when the float quotient of the draw is 1; otherwise the first item whose running weight exceeds the draw, a throw when a weight is missing, and a throw at the end (itself failing on `items[0]` when there are no items) |
| LeafRandom.LeafRand.WeightedOf | LeafRand.cs:123-135 | builds the two lists in order and, for a non-empty list, makes the prefix-sum choice over its entries; an empty list throws |
| PoolOrder.RemoveFirst | AudioManager.cs:233 | `List.Remove`: the list itself when the entry is absent, one entry shorter when present |
| PoolOrder.RemoveFirstMultiset | AudioManager.cs:233 | `Remove` takes away one occurrence and keeps every other entry |
| PoolOrder.InsertAt | AudioManager.cs:240 | `List.Insert`: the new entry at the index, the entries before it in place, the entries after it one further on |
| PoolOrder.InsertAtMultiset | AudioManager.cs:240 | `Insert` adds one entry and keeps every other |
| PoolOrder.InsertionPoint | AudioManager.cs:235-238 | the index the scan stops at: every end time before it is at most the new one, and the end time at it is strictly later |
| PoolOrder.InsertionPointUnique | AudioManager.cs:235-238 | only one index has those two properties |
| PoolOrder.InsertionPointAfterTies | AudioManager.cs:235-238 | in a sorted pool the insertion point comes after every entry with the same end time |
| PoolOrder.InsertKeepsSorted | AudioManager.cs:231-241 | inserting at the insertion point keeps sorted end times sorted |
| PoolOrder.RemoveFirstAfter | AudioManager.cs:233-240 | removing an inserted entry that was not there before gives back the list it was inserted into |
| PoolOrder.ReinsertKeepsOthers | AudioManager.cs:231-241 | after `Sort`, the other entries are still in their relative order |
| PoolOrder.ReinsertPermutes | AudioManager.cs:231-241 | `Sort` permutes a pool holding the entry and adds the entry to one that does not; the entry ends up in the pool exactly once |
| Audio.AudioSource.constructor | AudioManager.cs:219 | a new component at Unity's defaults: no clip, volume and pitch 1, not looping, not playing |
| Audio.AudioSource.Play | AudioManager.cs:88 | the source plays |
| Audio.PooledAudioSource.constructor | AudioManager.cs:62 | wraps the source, with no origin, no offset and end time 0 |
| Audio.PooledAudioSource.Setup | AudioManager.cs:67-83 | copies clip, volume and pitch, sets the spatial blend, origin and offset, places the source at the origin plus offset (at the world origin for a null origin) and sets the end time to clip length plus now, the loop and playing flags staying as they were |
| Audio.PooledAudioSource.Play | AudioManager.cs:88 | the entry's source plays |
| Audio.PooledAudioSource.IsActive | AudioManager.cs:90-93 | true strictly after `endTime`, that is once the clip is over (see `FreeOnceClipEnds` and `HeadFinishesFirst`) |
| Audio.FreeOnceClipEnds | AudioManager.cs:82-93 | an entry set up at `now` counts as free exactly once more than its clip's length has passed |
| Audio.StartPositionIntended | AudioManager.cs:95-96 | where the comment of `UpdatePosition` puts a source: a null origin counts as `(0, 0, 0)`, so the source sits at the offset; a live origin gives the same position as `Setup` |
| Audio.PooledAudioSource.UpdatePosition | AudioManager.cs:94-99 | a live origin moves the source to the origin plus offset; a null origin leaves it where it is |
| Audio.EndTimes | AudioManager.cs:28 | the end times of the pool, entry by entry |
| Audio.EndTimesInsert | AudioManager.cs:240 | the end times after an insertion are the old ones with the new end time inserted |
| Audio.ReinsertSorted | AudioManager.cs:231-241 | inserting an entry at the insertion point of its end time keeps a sorted pool sorted |
| Audio.AudioManager.constructor | AudioManager.cs:30-34 | an empty pool, no slots, no fades and no waiting callbacks; the invariant holds |
| Audio.AudioManager.HeadFinishesFirst | AudioManager.cs:211 | `HeadFinished`, the test `pool.Count != 0 && pool[0].IsActive`, holds for a pool sorted by end time exactly when some entry has finished |
| Audio.AudioManager.GetAudioSource | AudioManager.cs:202-226 | the finished head; otherwise the playing head once the pool has reached `poolSize`, with `pool[0]` throwing on an empty pool; otherwise a new entry at its defaults, not in the pool |
| Audio.AudioManager.Sort | AudioManager.cs:231-241 | the pool is the rest with the entry inserted at its insertion point; a sorted rest gives a sorted pool; the other entries keep their order |
| Audio.AudioManager.PlayClip | AudioManager.cs:140-152 | keeps the invariant (distinct sources, ascending end times, at most `poolSize` entries); the chosen entry is set up, plays and is sorted into the pool; the only failure is the empty pool that may not grow; the pool grows by at most one and the looping pool and fades are unchanged |
| Audio.AudioManager.PlayOn | AudioManager.cs:145-151 | setting up, playing and sorting the head or a new entry keeps the invariant and gives the sorted pool |
| Audio.AudioManager.Reinsert | AudioManager.cs:151 | `Sort` on the entry just set up restores the invariant |
| Audio.AudioManager.Update | AudioManager.cs:131-135 | every pooled source with a live origin moves to it plus its offset, the others stay, and the invariant holds |
| Audio.AudioManager.PlayClipLooping | AudioManager.cs:159-183 | the slot has a pair (two new looping sources on first use); the pair is swapped so the source that took the new clip and pitch is `Item1`; both play; the other slots are unchanged; both fades target that source, from its old volume to 0 and from 0 to the clip's volume; an existing pair keeps the loop flags of both sources; the pool is unchanged |
| Audio.AudioManager.EnsurePair | AudioManager.cs:161-166 | an existing slot is left as it is; a new slot gets two new looping sources |
| Audio.AudioManager.CrossFade | AudioManager.cs:171-182 | the two fades on `Item2`, its new clip and pitch, the swap and both sources playing, with `Item1`'s settings untouched |
| Audio.AudioManager.Run | AudioManager.cs:154-159 | runs a one-shot or looping request and keeps the invariant |
| Audio.AudioManager.ExecuteCallback | AudioManager.cs:247-251 | a positive delay only queues the request and changes nothing else; otherwise the request runs at once and nothing is queued |
| Audio.AudioManager.Defer | AudioManager.cs:249 | the request joins the waiting list with its delay; nothing else changes |
| Audio.AudioManager.ResumeDeferred | AudioManager.cs:252-257 | a waiting request leaves the list and runs |
| Audio.AudioManager.Play | AudioManager.cs:154 | a plain play is a one-shot with spatial blend 0, no origin and no offset |
| Audio.AudioManager.PlayPositional | AudioManager.cs:155 | a positional play is a one-shot with spatial blend 1, a null origin and the position as offset; run at once, its source is at the world origin `(0, 0, 0)` whatever the position |
| Audio.AudioManager.PlayParented | AudioManager.cs:156 | a parented play is a one-shot with spatial blend 1 following the parent |
| Audio.AudioManager.PlayLooping | AudioManager.cs:158 | a looping play, run at once or queued by its delay |
| Audio.Configure | AudioManager.cs:145-148 | `Setup` then `Play` on the chosen entry |
| Audio.RestOfPool | AudioManager.cs:202-233 | the chosen entry is the head or not in the pool, so removing it leaves the pool without its head, or the pool itself |
| Audio.SuffixSorted | AudioManager.cs:28 | the pool without its head is still sorted |
| Audio.InsertDistinctSources | AudioManager.cs:219-240 | inserting an entry whose source is new keeps the sources distinct |
| Audio.SortedSourcesDistinct | AudioManager.cs:202-241 | the chosen entry, sorted back into the rest, leaves no two entries sharing a source |

## Left out

- Unity plumbing: the singleton and the event subscriptions of `OnEnable` and `OnDisable`, and `DontDestroyOnLoad`. Their effect on a call is what the `Play`, `PlayPositional`, `PlayParented` and `PlayLooping` methods model.
- Reparenting a new pooled source under the manager's transform (`AudioManager.cs:220`): the model has no transform hierarchy.
- The per-frame steps of `FadeVolume` (`AudioManager.cs:187-199`): the interpolation of float volumes over frames is a cooperative scheduler plus floating point. A started fade is recorded in `fades`. Its first step, which runs inside the call, is modelled through the resulting volume.
- Audio.AudioManager.CrossFade: does not state the volume after a zero-length fade, where Unity's interpolation divides zero by zero.
- The wait of `ExecuteCallbackCoroutine` (`AudioManager.cs:252-257`): the time a waiting callback resumes is not modelled. `ResumeDeferred` runs a waiting request whenever it is called.
- The test helper `AudioManager.Test` (`AudioManager.cs:262-285`): it creates and destroys temporary objects on a real-time wait.
- Audio.AudioManager.LoopsValid: requires the two sources of one slot to differ, but not the slots to be disjoint from each other or from the pool. New pairs are always fresh, so this holds in every run, but `PlayClipLooping` does not state that the sources of other slots keep their fields.
- Float arithmetic: apart from the conversion of the noise to `float`, floats are exact reals. The float `Range(0, totalWeight)`, the scans' running totals and the comparison in `Chance` are computed without rounding.
- SeededRand.Remap: rounds only the noise to a float. The conversions of `min` and of the step count to `float`, the product and the sum are exact reals, although in 32-bit floats they round once their values pass 2^24. An out-of-range `(int)` cast, which C# leaves unspecified, is modelled as x86's `int.MinValue`.
- SeededRand.RemapIndexRange: does not promise an index in range. For the noise values `0xFFFFFF80` to `0xFFFFFFFE` the float quotient is 1 and the draw is `n`.
- SeededRand.Rand.Element: does not promise that a non-empty list never throws. It throws out of range at `Count` for the noise values `0xFFFFFF80` to `0xFFFFFFFE` (see "## Findings").
- SeededRand.Rand.WeightedIntended: its uniform pick for zero total weight throws in the same way as `Element`, for the same noise values.
- `Setup` reads `specs.clip.length` (`AudioManager.cs:82`) after writing clip, volume, pitch, spatial blend, origin, offset and position (`AudioManager.cs:69-79`). With no clip assigned it throws a null reference there and leaves those fields written but the end time, the playing state and the pool place unchanged. The model's `Clip` cannot be null, so that throw is not modelled.
- Weighting.IndexOfElement: does not model the null-reference throw of `Weighteds[i].element.Equals(element)` (`Weighted.cs:20`) when a stored element is null, because the model's elements cannot be null.
- The float noise overloads, `Lerp`, `Ceil` and `GetRawDecimal` (`Rand.cs:218-269`, `286-305`): they are floating point. The float `Remap` behind `Range(float, float)` (`Rand.cs:275`) is `RangeFloat`, with only the noise rounded, as in `Remap`.
- The position of a looping source: the pair is added to the manager's own game object (`AudioManager.cs:163`), so it sits at the manager's transform. The model gives every new `AudioSource` the position `(0, 0, 0)`. A looping source's spatial blend stays 0, so nothing audible depends on its position.
- C# default arguments: `Rand(uint seed = 0, uint pos = 0)` (`Rand.cs:33`) and `SetSeed(newSeed, newPos = 0)` (`Rand.cs:39`, `LeafRand.cs:28`). A call that omits them is the modelled member with 0 for each omitted argument.
- LeafRandom.LeafRand.Weighted: `LeafRand.Random()` passes its `uint` position to the float-position noise overload (`LeafRand.cs:53`, `215`), which is not part of this model. The value it produces is the parameter `next`.
- The `LeafRand I = new LeafRand()` field (`LeafRand.cs:22`) is not modelled: constructing a `LeafRand` would recurse without end.
- The array and `IWeighted` overloads of `Weighted` and `Element` (`Rand.cs:107`, `157-190`; `LeafRand.cs:141-187`): they are the list versions over a different container.
- `GetSeed`: a plain getter of the `seed` field.
- Parts that are not in this model: `LeafRandInstanced.cs` and `SRand.cs`, whose seed comes from the clock and the process id, the editor drawers, and the clip assets.

## Findings

| source | as written | input that shows it | evidently intended | confidence | as-written member | corrected member |
|---|---|---|---|---|---|---|
| Rand.cs:123-124 | when the weights total 0, the uniform pick runs only if `GetCount() == 0`, so a non-empty list of zero weights goes on to the scan, which throws | two entries of weight 0; `Range(0, 0)` is 0 and no running total exceeds it | pick a uniformly drawn entry when the total is 0 and there are entries (the comments at Rand.cs:110 and 122) | not executed | SeededRand.ZeroWeightsThrow | SeededRand.Rand.WeightedIntended |
| Rand.cs:282 | the scaled draw is rounded toward zero (`Floor` is the `(int)` cast, Rand.cs:304), which rounds negative values up | `Remap(0xC0000000, -3, -2)`: about -1.5, rounded to -1, outside `[-3, -2]` | a value in `[min, max]`, as the comment at Rand.cs:277 says | not executed | SeededRand.RemapNegativeRangeEscapes | SeededRand.RemapIntendedInRange |
| Rand.cs:282 | `max + 1 - min` is computed in `int` and overflows for wide ranges | `Remap(0x80000000, 0, int.MaxValue)`: the step count wraps to `int.MinValue`, and a draw half way up gives `-2^30` | a value in `[min, max]` for every `min <= max` | not executed | SeededRand.RemapWideRangeEscapes | SeededRand.RemapIntendedInRange |
| Rand.cs:282 | `(float)noise` rounds the 128 largest noise values to 2^32, which is also `(float)uint.MaxValue`, so their quotient is 1; only `uint.MaxValue` itself is caught by the test at Rand.cs:281. The same draws make `Weighted` throw with positive weights: `Range(0f, totalWeight)` is then the total, which no running total exceeds (`SeededRand.TopNoiseWeightedThrows`) | `Element` on a list of 10 entries with the draw `0xFFFFFF80`: `Range(0, 9)` is 10 and `list[10]` throws (Rand.cs:101) | a value in `[min, max]`, as the comment at Rand.cs:277 says, so every draw of `Element` is an index | not executed | SeededRand.RemapTopNoiseEscapes | SeededRand.RemapIntendedInRange |
| AudioManager.cs:79 | a null origin places the source at `Vector3.zero` and drops the offset; `PlayPositional` passes its position as that offset with a null origin (AudioManager.cs:155) | `PlayPositional` at `(5, 0, 0)` with no delay: the clip plays at `(0, 0, 0)` | the source at the position, as the comment at AudioManager.cs:95-96 (a null origin counts as `(0, 0, 0)`) and the positional `Play` of PlayableClip.cs:57-61 mean | not executed | Audio.AudioManager.PlayPositional | Audio.StartPositionIntended |
| WeightedObjectList.cs:22-27 | the copy holds the stored `Weighted` objects themselves | a caller sets the weight of the first entry of the copy | the comment at WeightedObjectList.cs:19-21 wants no caller able to edit the stored weights | not executed | WeightedObjects.EditShallowCopy | WeightedObjects.EditDeepCopy |

`LeafRand.cs:276-280` has the same `Remap`, with the same three range findings.
