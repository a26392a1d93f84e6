# Mob Size Randomizer, modelled in Dafny

Mob Size Randomizer is a server plugin. It gives every spawning creature a random size. For each mob type, the configuration file names:

- a minimum and a maximum scale;
- a distribution name. The code selects one of three samplers by name: "normal", "leftexponential" or, for every other name, uniform. A fourth, right-exponential, sampler exists, but no name selects it.

When a creature spawns, or a chunk holding creatures is loaded, the plugin looks up the creature's configuration by its normalised name and draws a scale. It then writes that scale to the creature's GENERIC_SCALE attribute. The conditions are:

- players are never scaled;
- unconfigured creatures get 1.0;
- a configured creature is sampled when its maximum exceeds its minimum, and gets 1.0 otherwise.

A spawn is scaled only when its world is not on the excluded-worlds list (compared ignoring case). When the spawn-reason blocklist is enabled, its reason must also not be blocked. Chunk loads are scaled only when chunk-load scaling is enabled. They then scale every living entity of the chunk and consult neither list.

The model has one module per source file. It adds one module for the `java.lang.String` operations the plugin uses, one for the random source and one for the sampling formulas:

- `Text` (text.dfy): ASCII `toLowerCase`, `toUpperCase`, `equalsIgnoreCase` and single-character `replaceAll`.
- `Distributions` (distribution_type.dfy): `DistributionType` and `fromString`.
- `Configs` (mob_config.dfy): the immutable `MobConfig` record, as a datatype.
- `Randomness` (random.dfy): `java.util.Random` as a class.
  - Its k-th draw is `doubles(k)` for `nextDouble` and `gaussians(k)` for `nextGaussian`.
  - A `calls` counter advances by one per draw.
  - `Valid()` says every `nextDouble` lies in [0, 1).
- `Sampling` (sampling.dfy): the candidate formulas each sampler computes from one draw, and the bounds on them.
  - `Math.log` is used only as `Math.log(1 - u)`, so that composition is a function parameter `logOneMinus`.
  - `LogLaws` gives it the two properties of the logarithm the proofs need: log 1 = 0, and log x < 0 on (0, 1).
- `Plugin` (mob_size_randomizer.dfy): the `MobSizeRandomizer` class, with its configuration fields, the four samplers (the left-exponential one both as written and corrected), the dispatch, the setters, `isExcludedWorld` and `scaleMob`.
  - The attribute writes are recorded in a field `scaleWrites`.
  - A ghost log `scaleCalls` records every entity `scaleMob` was called with.
- `Events` (spawn_event.dfy): the `SpawnEvent` listener class with its two handlers and the spawn-reason gate.

### How the rejection loops are specified

Each rejection loop (normal, left- and right-exponential) is a `while` loop that draws until the candidate lies in [min, max].

- Its contract: the result is the candidate of the last draw, it lies in [min, max], and every earlier draw of the call was rejected. That last clause makes the returned draw the first accepted one (`ReturnsDraw`).
- Dafny needs every loop to terminate. The source's loops end only almost surely, so each sampler takes a hypothesis `HaltsFrom`: some later draw will be accepted. Its proof counts down to that draw.

### Two oddities in the source

- `getRandomSize` switches on a `RIGHT_EXPONENTIAL` constant (`MobSizeRandomizer.java:122`), but the `DistributionType` enum declares only `UNIFORM`, `NORMAL` and `LEFT_EXPONENTIAL` (`DistributionType.java:3-6`), and `fromString` never yields a fourth value (`DistributionType.java:8-17`). The model's `DistributionType` has the fourth constructor so that the dispatch can name it. `FromString`'s contract shows that no name reaches it, so "rightexponential" falls back to uniform.
- The left-exponential loop computes `max - Math.log(1 - u) / lambda` (`MobSizeRandomizer.java:163`). In exact arithmetic every such candidate is at least max, so the loop can return only max, from a draw of exactly 0.0. The model's dispatch, `scaleMob` and both event handlers run that loop as written, with that consequence stated in their contracts. The evidently intended sampler is modelled beside it. See "## Findings".

## Model

| member | source | states |
|---|---|---|
| Text.CharsMatchIffSameLower | src/main/java/com/autcraft/mobsizerandomizer/MobSizeRandomizer.java:201 | Two characters match under equalsIgnoreCase's per-character test exactly when their lower-case forms are equal. |
| Text.EqualsIgnoreCaseIffSameLower | src/main/java/com/autcraft/mobsizerandomizer/MobSizeRandomizer.java:201 | equalsIgnoreCase holds exactly when the lower-cased strings are equal. |
| Text.LowerIdempotent | src/main/java/com/autcraft/mobsizerandomizer/DistributionType.java:9 | Lower-casing twice is lower-casing once. |
| Text.UpperIdempotent | src/main/java/com/autcraft/mobsizerandomizer/MobSizeRandomizer.java:314 | Upper-casing twice is upper-casing once. |
| Text.EqualsIgnoreCaseIsEquivalence | src/main/java/com/autcraft/mobsizerandomizer/MobSizeRandomizer.java:201 | equalsIgnoreCase is reflexive, symmetric and transitive. |
| Text.EqualsIgnoreCaseLower | src/main/java/com/autcraft/mobsizerandomizer/MobSizeRandomizer.java:201 | A string equals its lower-cased form ignoring case. |
| Distributions.FromString | src/main/java/com/autcraft/mobsizerandomizer/DistributionType.java:8-17 | Every name resolves to Uniform, Normal or LeftExponential, never to RightExponential. |
| Distributions.FromStringNormal | src/main/java/com/autcraft/mobsizerandomizer/DistributionType.java:10-11 | A name resolves to Normal if and only if it equals "normal" ignoring case. |
| Distributions.FromStringLeftExponential | src/main/java/com/autcraft/mobsizerandomizer/DistributionType.java:12-13 | A name resolves to LeftExponential if and only if it equals "leftexponential" ignoring case. |
| Distributions.FromStringFallback | src/main/java/com/autcraft/mobsizerandomizer/DistributionType.java:14-15 | A name resolves to Uniform if and only if it matches neither recognised name ignoring case. |
| Distributions.FromStringIgnoresCase | src/main/java/com/autcraft/mobsizerandomizer/DistributionType.java:9 | Names equal ignoring case resolve alike, and a name resolves like its lower-cased form. |
| Distributions.FromStringExamples | src/main/java/com/autcraft/mobsizerandomizer/DistributionType.java:8-13 | "Normal" resolves to Normal and "LEFTEXPONENTIAL" to LeftExponential. |
| Distributions.FromStringFallbackExamples | src/main/java/com/autcraft/mobsizerandomizer/DistributionType.java:14-15 | "", "uniform", "rightexponential" and "RightExponential" all resolve to Uniform. |
| Configs.MobConfig.GetMin | src/main/java/com/autcraft/mobsizerandomizer/MobConfig.java:19-21 | Returns the stored minimum; see GettersReturnConstructorArguments. |
| Configs.MobConfig.GetMax | src/main/java/com/autcraft/mobsizerandomizer/MobConfig.java:23-25 | Returns the stored maximum; see GettersReturnConstructorArguments. |
| Configs.MobConfig.GetDistribution | src/main/java/com/autcraft/mobsizerandomizer/MobConfig.java:27-29 | Returns the stored distribution name, not normalised; see GettersReturnConstructorArguments. |
| Configs.GettersReturnConstructorArguments | src/main/java/com/autcraft/mobsizerandomizer/MobConfig.java:13-29 | getMin, getMax and getDistribution return the constructor's arguments, for every argument, including an inverted range. |
| Randomness.Random.constructor | src/main/java/com/autcraft/mobsizerandomizer/MobSizeRandomizer.java:30 | A new random source has made no draw and hands out the given draw sequences. |
| Randomness.Random.NextDouble | src/main/java/com/autcraft/mobsizerandomizer/MobSizeRandomizer.java:131 | Returns the next double draw, in [0, 1) for a valid source, and advances the draw count by exactly one. |
| Randomness.Random.NextGaussian | src/main/java/com/autcraft/mobsizerandomizer/MobSizeRandomizer.java:147 | Returns the next Gaussian draw and advances the draw count by exactly one. |
| Sampling.LogOfComplement | src/main/java/com/autcraft/mobsizerandomizer/MobSizeRandomizer.java:163 | For a draw u in [0, 1), log(1 - u) is at most 0, and is 0 exactly when u = 0. |
| Sampling.ScaledDrawBelowWidth | src/main/java/com/autcraft/mobsizerandomizer/MobSizeRandomizer.java:131 | A positive width times a draw in [0, 1) lies in [0, width). |
| Sampling.ScaledDrawZero | src/main/java/com/autcraft/mobsizerandomizer/MobSizeRandomizer.java:131 | A positive width times u is 0 exactly when u = 0. |
| Sampling.UniformInRange | src/main/java/com/autcraft/mobsizerandomizer/MobSizeRandomizer.java:130-132 | With min < max, min + (max - min) * u lies in [min, max), and equals min only for u = 0. |
| Sampling.NormalWithinThreeSigma | src/main/java/com/autcraft/mobsizerandomizer/MobSizeRandomizer.java:143-144 | A Gaussian draw within three standard deviations gives a candidate in [min, max]: the reason for a standard deviation of (max - min) / 6. |
| Sampling.RightValueAtLeastMin | src/main/java/com/autcraft/mobsizerandomizer/MobSizeRandomizer.java:180 | Every right-exponential candidate is at least min, and is min exactly for u = 0. |
| Sampling.LeftValueAsWrittenAtLeastMax | src/main/java/com/autcraft/mobsizerandomizer/MobSizeRandomizer.java:163 | Every left-exponential candidate as the code computes it is at least max, and is max exactly for u = 0. |
| Sampling.LeftValueAsWrittenAccepted | src/main/java/com/autcraft/mobsizerandomizer/MobSizeRandomizer.java:162-164 | With min <= max, the code's left-exponential exit test accepts a draw if and only if u = 0, and the accepted candidate is max. |
| Sampling.LeftValueAtMostMax | src/main/java/com/autcraft/mobsizerandomizer/MobSizeRandomizer.java:163 | The corrected left-exponential candidate is at most max, and is max exactly for u = 0. |
| Plugin.NormalizedName | src/main/java/com/autcraft/mobsizerandomizer/MobSizeRandomizer.java:314 | The lookup key has the same length as the name (each space becomes '_', each letter is upper-cased). |
| Plugin.EntryConfig | src/main/java/com/autcraft/mobsizerandomizer/MobSizeRandomizer.java:88-96 | The config built from one "mobs" entry; its defaults are stated by MobTableDefaults. |
| Plugin.MobTable | src/main/java/com/autcraft/mobsizerandomizer/MobSizeRandomizer.java:82-105 | The table has exactly the keys of the "mobs" section, and none when the section is absent. |
| Plugin.PlanFor | src/main/java/com/autcraft/mobsizerandomizer/MobSizeRandomizer.java:305-346 | Exactly players get no write. A fixed write is always 1.0, and an entity is sampled only from a range with min < max. |
| Plugin.MobSizeRandomizer.constructor | src/main/java/com/autcraft/mobsizerandomizer/MobSizeRandomizer.java:19-30 | The field initialisers: default max 1.0 and min 0.8, no excluded world, the blocklist disabled and empty, chunk loads not scaled, no write yet. |
| Plugin.MobSizeRandomizer.GetUniformRandom | src/main/java/com/autcraft/mobsizerandomizer/MobSizeRandomizer.java:130-132 | Makes exactly one draw and returns its uniform candidate, which lies in [min, max) when min < max. |
| Plugin.MobSizeRandomizer.GetNormalRandom | src/main/java/com/autcraft/mobsizerandomizer/MobSizeRandomizer.java:142-150 | Returns the normal candidate of its last draw, which lies in [min, max]; every earlier draw of the call was rejected. |
| Plugin.MobSizeRandomizer.GetLeftExponentialRandom | src/main/java/com/autcraft/mobsizerandomizer/MobSizeRandomizer.java:152-166 | The evidently intended left-skewed sampler, which nothing in the program calls: returns the candidate max + log(1 - u) of its first accepted draw, which lies in [min, max]. |
| Plugin.MobSizeRandomizer.GetLeftExponentialRandomAsWritten | src/main/java/com/autcraft/mobsizerandomizer/MobSizeRandomizer.java:159-166 | As written, returns the first accepted candidate max - log(1 - u). For a valid source that is always max itself, reached only on a draw of exactly 0. |
| Plugin.MobSizeRandomizer.GetRightExponentialRandom | src/main/java/com/autcraft/mobsizerandomizer/MobSizeRandomizer.java:176-183 | Returns the candidate min - log(1 - u) of its first accepted draw, which lies in [min, max]. |
| Plugin.MobSizeRandomizer.SampleDistribution | src/main/java/com/autcraft/mobsizerandomizer/MobSizeRandomizer.java:117-126 | Each kind goes to its own sampler, the left-exponential one as written. The result is that kind's candidate at its first accepted draw (the single draw for Uniform). It lies in [min, max] when min < max, and for LeftExponential it is max itself, from a draw of 0. |
| Plugin.MobSizeRandomizer.GetRandomSize | src/main/java/com/autcraft/mobsizerandomizer/MobSizeRandomizer.java:115-127 | Samples the kind FromString resolves the name to. The result lies in [min, max] when min < max, and for a name resolving to LeftExponential it is exactly max. |
| Plugin.MobSizeRandomizer.SetMobScaleMap | src/main/java/com/autcraft/mobsizerandomizer/MobSizeRandomizer.java:81-106 | The stored table has one config per key of the "mobs" section, built with the defaults 1.0, 1.0 and "uniform"; it is empty when the section is absent. |
| Plugin.MobSizeRandomizer.SetExcludedWorlds | src/main/java/com/autcraft/mobsizerandomizer/MobSizeRandomizer.java:189-191 | The excluded worlds become the configuration's list; the argument is ignored. |
| Plugin.MobSizeRandomizer.SetDefaultMaxSize | src/main/java/com/autcraft/mobsizerandomizer/MobSizeRandomizer.java:223-225 | Sets the default maximum size and nothing else. |
| Plugin.MobSizeRandomizer.SetDefaultMinSize | src/main/java/com/autcraft/mobsizerandomizer/MobSizeRandomizer.java:231-233 | Sets the default minimum size and nothing else. |
| Plugin.MobSizeRandomizer.SetSpawnReasonBlocklistEnabled | src/main/java/com/autcraft/mobsizerandomizer/MobSizeRandomizer.java:266-268 | Sets whether the spawn-reason blocklist applies, and nothing else. |
| Plugin.MobSizeRandomizer.SetBlockedSpawnReasons | src/main/java/com/autcraft/mobsizerandomizer/MobSizeRandomizer.java:295-297 | Sets the blocked spawn reasons and nothing else. |
| Plugin.MobSizeRandomizer.SetChunkloadeffected | src/main/java/com/autcraft/mobsizerandomizer/MobSizeRandomizer.java:270-272 | Sets whether chunk loads are scaled, and nothing else. |
| Plugin.MobSizeRandomizer.IsExcludedWorld | src/main/java/com/autcraft/mobsizerandomizer/MobSizeRandomizer.java:199-206 | True exactly when some listed world equals the given one ignoring case. |
| Plugin.MobSizeRandomizer.ScaleMob | src/main/java/com/autcraft/mobsizerandomizer/MobSizeRandomizer.java:304-347 | Follows PlanFor. A player gets no write and no draw. An unconfigured mob, or one with max <= min, gets one write of 1.0 and no draw. Any other mob gets one write of its sampler's first accepted candidate; for a "leftexponential" mob that write is exactly its max. |
| Plugin.ReturnedDrawInRange | src/main/java/com/autcraft/mobsizerandomizer/MobSizeRandomizer.java:117-183 | With min < max, the value any sampler returns lies in [min, max]. |
| Plugin.ReturnsDrawUnique | src/main/java/com/autcraft/mobsizerandomizer/MobSizeRandomizer.java:146-148 | A sampler started at a given draw can return only one draw: the first one it accepts. |
| Plugin.RightCandidatesAtLeastMin | src/main/java/com/autcraft/mobsizerandomizer/MobSizeRandomizer.java:180 | Every right-exponential candidate is at least min, so only the upper bound ever rejects one. |
| Plugin.AsWrittenCandidateAtLeastMax | src/main/java/com/autcraft/mobsizerandomizer/MobSizeRandomizer.java:163 | As written, every left-exponential candidate is at least max, and equals max exactly when the draw is 0. |
| Plugin.AsWrittenAcceptsOnlyMax | src/main/java/com/autcraft/mobsizerandomizer/MobSizeRandomizer.java:162-164 | As written, the left-exponential loop accepts a draw if and only if it is 0, and then returns max. |
| Plugin.LeftAsWrittenHaltsOnlyOnZeroDraw | src/main/java/com/autcraft/mobsizerandomizer/MobSizeRandomizer.java:162-164 | As written, the left-exponential loop can stop if and only if some later draw is exactly 0. |
| Plugin.LeftCandidatesAtMostMax | src/main/java/com/autcraft/mobsizerandomizer/MobSizeRandomizer.java:162-164 | Corrected, every left-exponential candidate is at most max, and a draw is accepted if and only if its candidate is at least min. |
| Plugin.PerformedWrite | src/main/java/com/autcraft/mobsizerandomizer/MobSizeRandomizer.java:304-347 | A scaleMob call leaves a player untouched. On a creature it appends exactly one write for that creature, whose value agrees with the plan. |
| Plugin.PlayersNotScaled | src/main/java/com/autcraft/mobsizerandomizer/MobSizeRandomizer.java:305-307 | A player's plan is to write nothing. |
| Plugin.UnconfiguredMobGetsOne | src/main/java/com/autcraft/mobsizerandomizer/MobSizeRandomizer.java:340-343 | A creature without a config entry gets scale 1.0; the default sizes play no part. |
| Plugin.ConfiguredMobPlan | src/main/java/com/autcraft/mobsizerandomizer/MobSizeRandomizer.java:318-339 | A configured creature is sampled from its own range and distribution exactly when max > min, and otherwise gets 1.0. |
| Plugin.NormalizedNameShape | src/main/java/com/autcraft/mobsizerandomizer/MobSizeRandomizer.java:314 | The lookup key has the name's length, holds no space and no lower-case letter, and normalising it again changes nothing. |
| Plugin.KeyWithLowerCaseNeverMatches | src/main/java/com/autcraft/mobsizerandomizer/MobSizeRandomizer.java:87-96 | A "mobs" key stored with a space or a lower-case letter never matches any entity's lookup key. |
| Plugin.MobTableDefaults | src/main/java/com/autcraft/mobsizerandomizer/MobSizeRandomizer.java:86-105 | The table has exactly the section's keys, and fills a missing min or max with 1.0 and a missing distribution with "uniform". |
| Plugin.InWorldListIffLower | src/main/java/com/autcraft/mobsizerandomizer/MobSizeRandomizer.java:199-206 | A world is excluded exactly when a listed world has the same lower-cased name; an empty list excludes nothing. |
| Events.SpawnEvent.constructor | src/main/java/com/autcraft/mobsizerandomizer/events/SpawnEvent.java:17-19 | The listener keeps the plugin it is given. |
| Events.SpawnEvent.CanSpawnReasonBeScaled | src/main/java/com/autcraft/mobsizerandomizer/events/SpawnEvent.java:62-67 | With the blocklist enabled, a reason is allowed exactly when it is not blocked; with it disabled, every reason is. Its consequences for spawns are stated by SpawnGates and OnCreatureSpawnEvent. |
| Events.SpawnEvent.OnCreatureSpawnEvent | src/main/java/com/autcraft/mobsizerandomizer/events/SpawnEvent.java:21-27 | When the world is not excluded and the spawn reason is allowed, makes exactly one scaleMob call on the entity; for a "leftexponential" mob from a valid source, its one write is exactly the mob's max. Otherwise it changes nothing and draws nothing. |
| Events.SpawnEvent.OnChunkLoadEvent | src/main/java/com/autcraft/mobsizerandomizer/events/SpawnEvent.java:39-53 | With chunk loads not scaled, changes nothing. Otherwise it calls scaleMob on the chunk's living entities in order, and appends one write per creature, each agreeing with that creature's plan (exactly max for a "leftexponential" mob). Earlier writes are kept. |
| Events.WritesAppended | src/main/java/com/autcraft/mobsizerandomizer/events/SpawnEvent.java:48-52 | One more scaleMob call extends the writes made since the loop began by exactly that call's write, if it made one. |
| Events.LivingEntitiesMembers | src/main/java/com/autcraft/mobsizerandomizer/events/SpawnEvent.java:48-52 | The entities a chunk load passes to scaleMob are exactly the chunk's living ones, none more often than it occurs. |
| Events.CreaturesAreLivingNonPlayers | src/main/java/com/autcraft/mobsizerandomizer/events/SpawnEvent.java:48-52 | A chunk load writes to exactly its living entities that are not players, and filtering out non-living entities first changes nothing. |
| Events.NoLivingNoCalls | src/main/java/com/autcraft/mobsizerandomizer/events/SpawnEvent.java:48-52 | A chunk with no living entity leads to no scaleMob call and no write. |
| Events.SpawnGates | src/main/java/com/autcraft/mobsizerandomizer/events/SpawnEvent.java:24 | A spawn in a world listed under any letter case is never scaled. With no excluded world and the blocklist disabled, every spawn is. |

## Left out

- Plugin.MobSizeRandomizer.GetNormalRandom: requires `HaltsFrom`, that some later draw is accepted. The source's loop only ends almost surely, and Dafny proves termination for every input.
- Plugin.MobSizeRandomizer.GetLeftExponentialRandom: requires `LeftHaltsFrom` for the same reason.
- Plugin.MobSizeRandomizer.GetLeftExponentialRandomAsWritten: requires `LeftAsWrittenHaltsFrom`, that some later draw is exactly 0.0. Without one the source's loop never ends (`Plugin.LeftAsWrittenHaltsOnlyOnZeroDraw`), so for a "leftexponential" mob the model describes only the runs that do end.
- Plugin.MobSizeRandomizer.GetRightExponentialRandom: requires `HaltsFrom` for the same reason.
- Plugin.MobSizeRandomizer.SampleDistribution: requires `HaltsFrom` for the same reason.
- Plugin.MobSizeRandomizer.GetRandomSize: requires `HaltsFrom` for the same reason.
- Plugin.MobSizeRandomizer.ScaleMob: requires that the entity's plan halts (`PlanHalts`), for the same reason. It also requires a living entity, which the source's parameter type guarantees.
- Events.SpawnEvent.OnCreatureSpawnEvent: requires that the spawned entity's plan halts when both gates pass, for the same reason.
- Events.SpawnEvent.OnChunkLoadEvent: requires `ChunkPlansHalt` when chunk loads are scaled: the plan of every living entity of this chunk can be carried out from any draw on, because the loop draws an unknown number of times before each entity. Mobs configured but not in the chunk play no part.
- Plugin.MobSizeRandomizer.GetUniformRandom: states its range only for a valid source and min < max, the only way scaleMob calls it.
- Doubles are real numbers. Floating-point rounding is not modelled, so the bounds hold for exact arithmetic, and a rounded `min + (max - min) * u` can reach max.
- Statistical shape is not modelled (the normal's 99.7% coverage, the skew of the exponentials). Only the values and which draw is returned are.
- java.util.Random's generator and nextGaussian's caching of its second value are not modelled. The model numbers the draws k = 0, 1, 2, ... and returns whatever value a draw hands out.
- Math.log is modelled only as the map u |-> log(1 - u), with the two laws the proofs use. The division by lambda = 1.0 is written out as no division.
- Case folding of letters outside ASCII is not modelled: `Text` maps only 'A'..'Z' and 'a'..'z' and keeps every other character. The source folds other letters too, in `equalsIgnoreCase` in every locale: a listed world "überwelt" excludes world "Überwelt" in the source but not in the model. toLowerCase and toUpperCase also depend on the JVM's default locale, which is not modelled either. In a Turkish locale, "LEFTEXPONENTIAL" lower-cases to a string with a dotless i and "Zombie" upper-cases to one with a dotted capital I, so those lookups fail in the source.
- loadConfig, onEnable and onDisable are left out: they read and save config.yml and register the command and the listener. The setters are modelled, and config.yml is a `FileConfig` value.
- The "mobs" section is a map from key to optional min, optional max and optional distribution. How the YAML library converts values that are not numbers is not modelled.
- SpawnReason.valueOf on the blocklist names is not modelled, nor the exception it throws on an unknown name. `SetBlockedSpawnReasons` takes the resolved set.
- Before loadConfig the source's mob table is null, and scaleMob would fail with a NullPointerException. The model's table starts empty.
- The GENERIC_SCALE attribute write is recorded as a `ScaleWrite`. An entity without that attribute, which would throw, is not modelled.
- debug, isDebug, setDebug and the console messages are left out: they only log.
- getInstance is left out. The getters are read as fields.
- The `MainCommands` and `MobScale` classes are not part of this model.

## Findings

| source | as written | input that shows it | evidently intended | confidence | as-written member | corrected member |
|---|---|---|---|---|---|---|
| src/main/java/com/autcraft/mobsizerandomizer/MobSizeRandomizer.java:163 | `max - Math.log(1 - u) / lambda`. Since log(1 - u) <= 0, in exact arithmetic every candidate is at least max, so the loop accepts only max itself, from a draw of exactly 0.0. With rounding, a few draws just above 0 also round to max. | min = 0.5, max = 1.5, u = 0.5 gives 1.5 - ln 0.5, about 2.19, which is rejected; in exact arithmetic every draw other than 0.0 is rejected the same way. | `max + Math.log(1 - u) / lambda`: max minus an exponential draw. That is the reflection, about the range, of the right-exponential candidate at line 180, as the javadoc "Left-skewed exponential distribution" (line 152) and the comment "Reflect the distribution" (line 163) describe. Accepted values would then fill [min, max], with most mass near max. | high (not executed) | Plugin.MobSizeRandomizer.GetLeftExponentialRandomAsWritten (with Plugin.LeftAsWrittenHaltsOnlyOnZeroDraw, Plugin.AsWrittenAcceptsOnlyMax) | Plugin.MobSizeRandomizer.GetLeftExponentialRandom (with Plugin.LeftCandidatesAtMostMax, Sampling.LeftValueAtMostMax) |
