# SonarBomb in Dafny

This project models SonarBomb, a plugin for a Counter-Strike 2 server. The
plugin adds a "sonar grenade" to a hide-and-seek mode. When the grenade
starts, it checks whether any living enemy inside 3000 units can be seen from
it. To do that it traces rays through a native ray-trace module and filters
the hits by entity name. If an enemy is visible, the thrower hears a blink
sound. Administrators switch the mode on and off, which also closes and
reopens the buy menu, and hand out grenades by chat or console command.

The model has two halves.

**The ray-trace wrapper** (RayTrace.cs):
- `layers.dfy` holds the collision-layer catalogue as 64-bit masks. Every
  primitive layer is proved to be a distinct single bit, and every named mask
  is proved to hold exactly its listed layers.
- `trace_types.dfy` holds the trace options presets and the trace result with
  its two derived predicates, `DidHit` and `IsAllSolid`.
- `binder.dfy` holds the lazy binder to the native interface. The state
  machine is the pure function `InitStep`. The class `RayTraceBinder` has the
  source's fields, and its methods (`Initialize`, `BindVTable` and the four
  guarded trace entry points) are proved against `InitStep`. Lemmas over
  sequences of calls prove these properties:
  - a loaded or given-up binder never changes again;
  - the invariant holds after every call, so the binder is never both loaded
    and given up;
  - the attempt counter counts calls;
  - null lookups are retried forever;
  - an exception, an unusable result or a zero handle is terminal.

**The plugin** (SonarBomb.cs), in `sonar.dfy`:
- the wall-name filter;
- the ordered per-trace decision;
- the three-sample visibility test with its short-circuit;
- the scan over the player list, both as a specification function (`Scan`)
  and as the imperative loop of the decoy handler (`ScanPlayers`, called by
  `OnDecoyStarted`);
- target selection by selector or name;
- chat-line parsing and dispatch;
- the on/off switch with the buy-time commands it issues.

`common.dfy` holds the host string operations the plugin relies on:
- trimming white space;
- splitting on a character, with empty fields kept;
- ASCII lowering;
- case-insensitive prefix test;
- substring search;
- decimal rendering of the attempt counter.

Each has its round trip or characterisation proved.

Everything the code reaches outside itself is a parameter of the model:
- **The interface lookup and delegate creation** are an `Attempt` value.
- **The host platform** is a constant of the binder.
- **The native trace call** is a function from request to reply.
- **The plugin's wall traces and entity lookups** are a `Host` value.
- **Players, permissions and entity validity** are plain values.

`TraceWall` returns only the native call's success flag and result. The
"blocked" verdict (a failed trace, an all-solid start, the 0.97 threshold and
the entity-name filter) is computed by the plugin from that result, and the
model computes it there too, in `Sonar.SingleTrace`.

## Model

| member | source | states |
|---|---|---|
| Layers.BitIndex | RayTrace.cs:26-55 | every primitive layer sits at a bit position below 31, and none at the unused position 25 |
| Layers.UnusedBit | RayTrace.cs:50-51 | no layer sits at bit 25, and reading bit 25 back gives no layer |
| Layers.FlagIsBitAt | RayTrace.cs:26-55 | each layer constant is exactly the single bit at its position |
| Layers.FlagIsSingleBit | RayTrace.cs:26-55 | each layer constant is a power of two |
| Layers.BitIndexInjective | RayTrace.cs:26-55 | two layers share a bit position only if they are the same layer |
| Layers.LayerAtInverts | RayTrace.cs:26-55 | reading a layer's bit position back gives that layer |
| Layers.FlagsDisjoint | RayTrace.cs:26-55 | two layer constants overlap if and only if they are the same layer |
| Masks.NamedMaskValues | RayTrace.cs:58-66 | the named masks have the values 0x2C3011, 0xC0002, 0x2C3013, 0x3001 and 0x1001, and the wall-check mask equals the shot-physics mask |
| Masks.ShotPhysicsExact | RayTrace.cs:58 | a layer is in the shot-physics (and wall-check) mask if and only if it is one of its seven listed layers |
| Masks.ShotFullExact | RayTrace.cs:60 | the full shot mask holds exactly the shot-physics layers plus hitboxes |
| Masks.ShotHitboxExact | RayTrace.cs:59 | a layer is in the hitbox mask if and only if it is hitboxes, player or NPC |
| Masks.WorldOnlyExact | RayTrace.cs:61 | a layer is in the world-only mask if and only if it is solid, window or pass-bullets |
| Masks.BrushOnlyExact | RayTrace.cs:62 | a layer is in the brush-only mask if and only if it is solid or window |
| TraceTypes.WallCheckPresets | RayTrace.cs:83-107 | the wall check collides with the shot-physics mask with As and Exclude 0 and no beam; the debug preset differs only in the beam flag; the full shot preset differs only in its mask |
| TraceTypes.DefaultResultLooksLikeHit | RayTrace.cs:235 | the zeroed result handed back on failure reads as a hit with no entity, so callers must check the success flag first |
| RayTrace.SlotsOffsetByOne | RayTrace.cs:206-219 | the slots are 1, 2, 3 on Windows and each Itanium slot is the Windows slot plus one; on both platforms the shape, end-shape and hull slots are distinct and in that order |
| RayTrace.FactoryNullMessageCarriesAttempt | RayTrace.cs:177 | the null-lookup error is the fixed prefix, the decimal attempt number and ")", and the number can be read back |
| RayTrace.BindDelegates | RayTrace.cs:221-223 | a full bind puts the three delegates on the platform's slots of the handle; a throw at the shape slot changes nothing, a throw at the end-shape slot has set only the shape delegate, and a throw at the hull slot has set the shape and end-shape delegates but not the hull one; nothing else changes |
| RayTrace.InitStep | RayTrace.cs:153-201 | a settled binder is unchanged; otherwise the counter goes up by one; the invariant is preserved; a null lookup stays retryable with an error naming the attempt; an exception (its message wrapped in the factory-error text), an unusable result (its own message) or a zero handle (the zero-handle text) gives up with that error; a non-zero handle loads if and only if the bind succeeds (handle kept, error cleared) and gives up with the handle cleared and the bind exception's message if it throws |
| RayTrace.SettledIsFinal | RayTrace.cs:155-156 | after loading or giving up, any further calls leave the whole state unchanged |
| RayTrace.AttemptsKeepInv | RayTrace.cs:153-201 | every sequence of calls keeps the binder invariant, so loaded and given-up never hold together |
| RayTrace.AttemptsCounted | RayTrace.cs:158 | the counter never shrinks, grows by at most one per call, and has counted every call while the binder is retryable |
| RayTrace.NullLookupsRetry | RayTrace.cs:175-179 | any number of null lookups leave the binder retryable, counted, with the handle untouched and the last attempt's number in the error |
| RayTrace.FatalLookupIsTerminal | RayTrace.cs:164-188 | after a lookup exception, an unusable result or a zero handle, later calls change nothing and the binder stays given up and unloaded |
| RayTrace.LoadsAfterRetries | RayTrace.cs:150-192 | after any number of null lookups, a good handle whose delegates bind loads the binder with that handle, no error, and every attempt counted |
| RayTrace.RayTraceBinder.constructor | RayTrace.cs:135-146 | the binder starts unbound: no handle, neither flag, counter 0, no error, no delegates |
| RayTrace.RayTraceBinder.Initialize | RayTrace.cs:153-201 | the new state is InitStep of the old one and the invariant is kept |
| RayTrace.RayTraceBinder.BindVTable | RayTrace.cs:203-224 | the new state is BindDelegates of the old one, and the creation error is reported when one throws |
| RayTrace.RayTraceBinder.TraceEndShape | RayTrace.cs:229-252 | initialises lazily; while unloaded it answers failure with the zeroed result; once loaded it answers the native end-point call on the end-shape slot with the ignore entity or 0 |
| RayTrace.RayTraceBinder.TraceShape | RayTrace.cs:257-280 | the same as TraceEndShape, using the angle slot and angles |
| RayTrace.RayTraceBinder.TraceWall | RayTrace.cs:291-308 | the same guard, then the end-point trace with the wall-check options, ignoring the skip handle when it is non-zero and an entity can be built from it, and entity 0 otherwise |
| RayTrace.RayTraceBinder.TraceWallDebug | RayTrace.cs:314-330 | as TraceWall with the beam-drawing preset |
| Text.NatToString | RayTrace.cs:177 | the counter renders as a non-empty string of digits without a leading zero |
| Text.ParseNatToString | RayTrace.cs:177 | the rendered counter reads back as the same number |
| Text.NatToStringInjective | RayTrace.cs:177 | different counters render differently |
| Text.Lower | SonarBomb.cs:62 | lowering keeps the length, folds each character and leaves no capital letter |
| Text.LowerIdempotent | SonarBomb.cs:121 | lowering twice is lowering once |
| Text.StartsWithIgnoreCaseLowered | SonarBomb.cs:148 | the case-insensitive prefix test is a prefix test on the lowered strings |
| Text.Contains | SonarBomb.cs:130 | substring search is true exactly when the substring occurs at some position |
| Text.Trim | SonarBomb.cs:60 | the trimmed string is a slice of the input, only white space was removed, and it neither starts nor ends with white space |
| Text.TrimUnchanged | SonarBomb.cs:60 | a string without leading or trailing white space is its own trimmed form |
| Text.Split | SonarBomb.cs:61 | splitting gives at least one field, no field contains the separator, and joining the fields gives back the input |
| Text.SplitJoin | SonarBomb.cs:61 | splitting a join of separator-free fields gives back the fields, empty ones included |
| Text.SplitAtFirst | SonarBomb.cs:61-62 | the first field of a split is the text before the first separator; without a separator the string is the only field, and otherwise the other fields are the split of the text after it |
| Sonar.IsWallEntity | SonarBomb.cs:145-154 | a name is a wall exactly when it is empty or starts, ignoring case, with one of the five wall prefixes |
| Sonar.IsWallEntityIgnoresCase | SonarBomb.cs:148-152 | the wall filter gives the same answer for a name and its lowered form |
| Sonar.WallEntityExamples | SonarBomb.cs:145-154 | "world_geometry_x", "WorldSpawn", "func_wall_toggle" and the empty name are walls |
| Sonar.NonWallEntityExamples | SonarBomb.cs:145-154 | "player_pawn" and "func_door" are not walls |
| Sonar.SingleTrace | SonarBomb.cs:156-172 | a trace is blocked exactly when it succeeded, is not all-solid, stopped before fraction 0.97, and hit no entity or a valid entity with a wall name (missing name as empty) |
| Sonar.SingleTraceCases | SonarBomb.cs:159-171 | a failed trace, all-solid (even at fraction 0), fraction 1 or exactly 0.97, and an entity lookup that throws are never walls; a clean early hit without entity is |
| Sonar.BlockedTraceDidHit | RayTrace.cs:126-127 | a trace read as a wall succeeded, hit something (DidHit) and did not start in solid (not IsAllSolid), so a miss is never a wall |
| Sonar.EyeHeight | SonarBomb.cs:179-180 | the eye height is at least 30; it is the view offset when that is present and at least 30, and 64 otherwise |
| Sonar.SamplePoints | SonarBomb.cs:182-189 | three points straight above the origin at 100%, 60% and 35% of the eye height, strictly descending head, chest, waist |
| Sonar.SampleQueries | SonarBomb.cs:187-189 | three traces from the sonar position to the head, chest and waist points in that order, with the projectile as skip entity |
| Sonar.TargetVisibility | SonarBomb.cs:174-192 | without pawn or origin: invisible and no trace; otherwise the traces made are a prefix of head, chest, waist, all but the last blocked, and the target is visible exactly when some sample is unblocked, which is exactly when the last trace made is unblocked |
| Sonar.ScanFindsVisibleEnemy | SonarBomb.cs:237-254 | the scan finds someone exactly when some eligible player is visible, and makes no trace when no player is eligible |
| Sonar.ScanStopsAtFirstVisible | SonarBomb.cs:249-253 | an eligible visible player is found, and the players after it are neither traced nor consulted: the scan equals the scan of the list cut after it |
| Sonar.IneligiblePlayerIsSkipped | SonarBomb.cs:239-247 | an invalid, dead, same-team, pawnless or out-of-radius player makes no trace: the scan equals the scan of the list without it |
| Sonar.EveryTraceFailedFindsAnyEligible | SonarBomb.cs:159 | when every wall trace fails, as while the binder is not loaded, the scan finds someone exactly when some player is eligible |
| Sonar.ScanPlayers | SonarBomb.cs:235-254 | the loop's found flag and the traces it makes are exactly those of Scan |
| Sonar.ScanFoundIgnoresOrder | SonarBomb.cs:237-254 | whether the scan finds someone does not depend on the order of the players |
| Sonar.OutOfRadiusIssuesNoTraces | SonarBomb.cs:246-247 | with everyone beyond the scan radius the scan finds nobody and traces nothing |
| Sonar.ConsoleTargets | SonarBomb.cs:45-54 | every target is valid and alive; a player without permission gets nothing; without an argument a permitted player gets themself when valid and alive, and the server console gets nobody; with an argument, the targets are those the selector picks; the on/off switch is not consulted |
| Sonar.LivingOf | SonarBomb.cs:125-127 | every valid living player (of the requested team) is kept as often as it is listed, and no other player is kept |
| Sonar.FirstNameMatch | SonarBomb.cs:130 | the index found is the first whose lowered name contains the argument; none when no name does |
| Sonar.SelectTargets | SonarBomb.cs:117-133 | every target is valid and alive; "@all", "@t" and "@ct" give each valid living player (of that team) as often as it is listed and nobody else; "@me" gives the issuer if valid and alive; anything else gives the first name match if valid and alive, otherwise nobody |
| Sonar.NameSearchStopsAtFirstMatch | SonarBomb.cs:130-131 | when the first matching player is dead, a later living match is not chosen |
| Sonar.ParseChat | SonarBomb.cs:60-62 | the command word has no space and no capital letter, and the argument has no space |
| Sonar.ParseChatFirstSpace | SonarBomb.cs:60-62 | the command is the lowered text before the first space of the trimmed message; the argument is the text after it up to the next space or the end, or "@me" when there is no space; a message without an inner space is its lowered self with "@me" |
| Sonar.ParseChatWordAndArgument | SonarBomb.cs:60-89 | a word, one space and an argument parse as the lowered word and that argument |
| Sonar.DoubleSpaceSelectsFirstPlayer | SonarBomb.cs:61-131 | two spaces after the command make the argument empty, and the empty argument picks the first player in the list |
| Sonar.DispatchChat | SonarBomb.cs:57-94 | only a valid player's "!sonarbomb" and "!sonar" are handled, always; the toggle happens exactly for "!sonarbomb" with permission; grenades are handed out exactly for "!sonar" with permission while active, with the parsed argument |
| Sonar.SonarPlugin.Load | SonarBomb.cs:20-38 | the plugin starts inactive having issued "mp_buytime 9999" |
| Sonar.SonarPlugin.TogglePluginState | SonarBomb.cs:99-115 | the switch flips; switching on appends "mp_buytime 0" to the server commands and switching off appends "mp_buytime 9999" |
| Sonar.SonarPlugin.OnPlayerChat | SonarBomb.cs:57-94 | the hook result, the switch, the issued commands and the targets are those DispatchChat decides |
| Sonar.SonarPlugin.OnDecoyStarted | SonarBomb.cs:219-265 | always Continue; nothing happens unless active with a valid thrower and a valid projectile with an origin; then the ring is placed 15 units above the decoy, the traces made and the found flag are those of Scan, the sound plays exactly once if found, and the projectile is killed |

## Left out

- The interface lookup (`Utilities.MetaFactory`), delegate creation (`VirtualFunction.Create`) and the native trace calls belong to a module whose source is not part of this model. They are parameters: the `Attempt` outcome, the `native` reply function and the plugin's `Host`.
- Struct layouts, field offsets and the unsafe marshalling of options and result buffers (RayTrace.cs:72-124, 239-250) are an ABI concern and are not modelled. The records carry the same fields.
- 32-bit floats are modelled as exact reals. The threshold 0.97f and the factors 0.6f and 0.35f are taken as the decimals they denote, and the products are not rounded.
- Sonar.SingleTrace: the threshold is the exact decimal 0.97, while the source compares with the single-precision 0.97f, which lies slightly above 0.97. No single-precision value lies between them, so for every fraction the native call can return the two tests agree. They would differ only on reals that are not single-precision values.
- The distance computation at SonarBomb.cs:246 is given as each player's `inRadius` flag, meaning "distance to the decoy is at most 3000".
- The plugin's traces are answered by the `Host` oracle rather than by threading a `RayTraceBinder` through the plugin. So the lazy `Initialize` calls at SonarBomb.cs:30 and SonarBomb.cs:233, and the lazy initialisation inside `TraceWall`, are covered only by the binder model.
- Sonar.SonarPlugin.Load: does not model the registration of event and chat handlers or the initial binder call.
- The unused `_originalBuyTime` field and the module metadata are not modelled.
- Particle creation, its two-second kill timer, sound playback, chat printing and `GiveNamedItem` are host I/O. The model records only what is decided: the ring position, the client sound command, the server buy-time commands and the list of players who receive a grenade.
- Permission checks, entity validity, pawn and origin availability, and the player list are boolean or value inputs.
- Case folding and the case-insensitive comparisons cover ASCII letters only, not the host's culture-specific rules. Trimming uses the host's white-space set.
- RayTrace.InitStep: the retry counter is an unbounded natural number. The source's 32-bit counter would wrap after 2^31 - 1 null lookups.
- The hull-trace delegate is bound like the others, but the source offers no entry point that calls it, so none is modelled.
