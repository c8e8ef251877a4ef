# Art of Alchemy: dissolver and essentia vessel

This project models two pieces of logic from the Art of Alchemy game add-on and proves properties about them.

- **The dissolver** (`BlockEntityDissolver`) is a block entity with several parts:
  - an alkahest tank of 4000 units;
  - a single input slot;
  - an output essentia tank;
  - a progress counter;
  - a status code (0 ready, 1 generic error, 2 not enough alkahest, 3 output full);
  - two block-state flags, `lit` and `filled`.

  Each server tick it checks the current dissolution recipe and advances progress. When progress reaches the recipe time, it crafts: it drains the tank by the essentia yield, adds that yield to the output tank, and either replaces the input with the recipe's container or takes one input item away. The screen reads and writes the five integer fields through an index-addressed property delegate. The fields are saved to, and loaded from, a compound tag.
- **The essentia vessel** (`ItemEssentiaVessel`) is an item stack that carries an essentia container.
  - Sneak-using it cycles the container's I/O mode.
  - Using it on a block that holds essentia first pulls from the block's containers. It pushes into them only if nothing was pulled.
  - Its tooltip shows a lock-status line.

Engine types become plain values (`Engine.dfy`). Java `int` fields use the `i32` subset type, and `addAlkahest` wraps explicitly as Java's `+` does (`JavaInt.dfy`).

The essentia library (`EssentiaContainer`, `EssentiaStack`) and the recipe class `RecipeDissolution` are not modelled. Their operations are parameters, so every proof holds for any such operations that return non-negative counts (see the `Dissolver.YieldOf` line under "## Left out"):
- `pullContents` and `pushContents` are `Transfer` functions;
- `canAcceptIgnoreIO` is `Accepts`;
- `addEssentia` is `AddEssentia`;
- `EssentiaStack.multiply` is `Multiply`;
- `new EssentiaContainer()` is a `blank` container argument.

Inputs that come from the world are also parameters: the recipe lookup (an `Option<Recipe>`), whether the world is a client, whether the player sneaks, and the target block's containers.

## Model

| member | source | states |
|---|---|---|
| `JavaInt.Wrap` | src/main/java/net/synthrose/artofalchemy/blockentity/BlockEntityDissolver.java:127-129 | Java's `int` addition: the result is in the 32-bit range, congruent to the true sum modulo 2^32, and equal to it when the sum fits |
| `JavaInt.AddLandsInRange` | src/main/java/net/synthrose/artofalchemy/blockentity/BlockEntityDissolver.java:127-129 | from a non-negative tank, the wrapped sum lies in [0, max] exactly when the true sum does: an overflowing add cannot slip through the bounds check |
| `Dissolver.GetIntAfterPut` | src/main/java/net/synthrose/artofalchemy/blockentity/BlockEntityDissolver.java:198-201 | after `putInt` of a key, reading that key gives the written value and reading any other key gives what it gave before |
| `Dissolver.DurabilityFactorAsWritten` | src/main/java/net/synthrose/artofalchemy/blockentity/BlockEntityDissolver.java:158 | the factor as the source computes it is at most 1.0, and equals 1.0 exactly when the damage is below the maximum; at or past the maximum it is 0.0 or less |
| `Dissolver.YieldOf` | src/main/java/net/synthrose/artofalchemy/blockentity/BlockEntityDissolver.java:157-162 | a non-damageable input yields the recipe's count; a damageable one yields `multiply` of that count by the as-written factor, which for any partial wear is `multiply` by 1.0 |
| `Dissolver.SlotAfterCraft` | src/main/java/net/synthrose/artofalchemy/blockentity/BlockEntityDissolver.java:185-189 | after a craft the slot holds the recipe's container if it has one, and otherwise the same stack with one item fewer |
| `Dissolver.MaxProgressFor` | src/main/java/net/synthrose/artofalchemy/blockentity/BlockEntityDissolver.java:148-151 | the recipe time is max(count / 2, 20): at least 20 ticks, at least half the yield, and one of the two |
| `Dissolver.HalfWornToolKeepsFullYield` | src/main/java/net/synthrose/artofalchemy/blockentity/BlockEntityDissolver.java:157-160 | a tool at damage 50 of 100 gets factor 1.0 as written, where the intended factor is 0.5 |
| `Dissolver.DurabilityFactor` | src/main/java/net/synthrose/artofalchemy/blockentity/BlockEntityDissolver.java:157-160 | the intended factor is the fraction of durability left: factor * maxDamage == maxDamage - damage, and it lies in [0, 1] for damage up to the maximum |
| `Dissolver.CraftStatus` | src/main/java/net/synthrose/artofalchemy/blockentity/BlockEntityDissolver.java:139-172 | status by priority, each as an if-and-only-if: 1 for no recipe, an empty slot or a container-count mismatch; else 2 when the yield exceeds the alkahest; else 3 when the output tank refuses the yield; else 0 |
| `Dissolver.ReadyCraftIsAffordable` | src/main/java/net/synthrose/artofalchemy/blockentity/BlockEntityDissolver.java:162-163 | a ready status means that draining the yield leaves the tank between 0 and its old level |
| `Dissolver.BlockEntityDissolver.constructor` | src/main/java/net/synthrose/artofalchemy/blockentity/BlockEntityDissolver.java:24-41 | a new dissolver has an empty tank of size 4000, progress 0 of 100, status 0, an unlit and unfilled block, an empty slot, and an output tank of capacity 4000 that is output-only |
| `Dissolver.BlockEntityDissolver.HasAlkahest` | src/main/java/net/synthrose/artofalchemy/blockentity/BlockEntityDissolver.java:108-110 | on a consistent machine, there is alkahest exactly when the block shows `filled` |
| `Dissolver.BlockEntityDissolver.SetAlkahest` | src/main/java/net/synthrose/artofalchemy/blockentity/BlockEntityDissolver.java:116-125 | succeeds exactly when 0 <= amount <= maxAlkahest; on success the tank holds `amount` and `filled == (amount > 0)`; on failure nothing changes |
| `Dissolver.BlockEntityDissolver.AddAlkahest` | src/main/java/net/synthrose/artofalchemy/blockentity/BlockEntityDissolver.java:127-129 | behaves as SetAlkahest of the wrapped sum; from a non-negative tank it succeeds exactly when the true sum is in bounds; a rejected add leaves the tank unchanged; consistency is kept |
| `Dissolver.BlockEntityDissolver.UpdateStatus` | src/main/java/net/synthrose/artofalchemy/blockentity/BlockEntityDissolver.java:131-137 | leaves `status == code` and returns `code == 0`, touching no other field |
| `Dissolver.BlockEntityDissolver.CanCraft` | src/main/java/net/synthrose/artofalchemy/blockentity/BlockEntityDissolver.java:139-172 | records CraftStatus and returns whether it is 0; with a recipe and a non-empty slot it sets maxProgress to MaxProgressFor (>= 20), otherwise leaves it; no other field changes |
| `Dissolver.BlockEntityDissolver.DoCraft` | src/main/java/net/synthrose/artofalchemy/blockentity/BlockEntityDissolver.java:174-194 | the slot becomes the recipe's container or loses one item; the output tank receives the yield; the alkahest drops by exactly the yield and stays non-negative |
| `Dissolver.BlockEntityDissolver.Tick` | src/main/java/net/synthrose/artofalchemy/blockentity/BlockEntityDissolver.java:230-281 | on the client nothing changes. On the server: an empty slot gives status 1 and a dry tank status 2. A machine that cannot work resets progress to 0 and goes dark. A working machine advances progress by at most one; on reaching maxProgress, progress drops by exactly maxProgress and a craft runs. Consistency (tank in bounds, `filled` matches the tank) is preserved |
| `Dissolver.BlockEntityDissolver.Size` | src/main/java/net/synthrose/artofalchemy/blockentity/BlockEntityDissolver.java:44-47 | the delegate has one entry per synchronised field (5) |
| `Dissolver.BlockEntityDissolver.Get` | src/main/java/net/synthrose/artofalchemy/blockentity/BlockEntityDissolver.java:70-86 | indices 0-4 read alkahest, maxAlkahest, progress, maxProgress and status; any other index reads 0 |
| `Dissolver.BlockEntityDissolver.Set` | src/main/java/net/synthrose/artofalchemy/blockentity/BlockEntityDissolver.java:49-68 | writes exactly the indexed field, so Get of that index then returns the value; an out-of-range index changes nothing |
| `Dissolver.BlockEntityDissolver.ToTag` | src/main/java/net/synthrose/artofalchemy/blockentity/BlockEntityDissolver.java:196-205 | loading the saved tag gives back alkahest, progress, maxProgress and status, with the tank size reset to 4000; other integer entries of the tag are kept (the base class's own entries are not modelled) |
| `Dissolver.BlockEntityDissolver.FromTag` | src/main/java/net/synthrose/artofalchemy/blockentity/BlockEntityDissolver.java:207-217 | reads the four integers (missing ones as 0) and resets maxAlkahest to 4000; nothing else changes |
| `Dissolver.SaveThenLoad` | src/main/java/net/synthrose/artofalchemy/blockentity/BlockEntityDissolver.java:196-217 | saving and then loading restores every delegate field except maxAlkahest, which becomes 4000 |
| `Vessel.NextMode` | src/main/java/net/synthrose/artofalchemy/item/ItemEssentiaVessel.java:149-169 | sneak-use moves the mode one place along the cycle (T,T), (T,F), (F,T), (F,F), and always changes it |
| `Vessel.PreviousMode` | src/main/java/net/synthrose/artofalchemy/item/ItemEssentiaVessel.java:149-169 | every mode is reached by a sneak-use from some mode |
| `Vessel.NextModeIsBijective` | src/main/java/net/synthrose/artofalchemy/item/ItemEssentiaVessel.java:149-169 | the step is injective and PreviousMode undoes it, so it is a bijection on the four modes |
| `Vessel.CycleHasLengthFour` | src/main/java/net/synthrose/artofalchemy/item/ItemEssentiaVessel.java:149-169 | four steps return to the starting mode; two or three steps do not |
| `Vessel.NameOf` | src/main/java/net/synthrose/artofalchemy/item/ItemEssentiaVessel.java:150-168 | the chat message names the new mode: unlocked, input, output or locked, each for exactly one flag pair |
| `Vessel.TooltipLockLine` | src/main/java/net/synthrose/artofalchemy/item/ItemEssentiaVessel.java:240-246 | with a world present: "locked" exactly when neither flag is set, "output" exactly for output only, "input" exactly for input only, and no line when both are set; no line at all without a world |
| `Vessel.GetContainer` | src/main/java/net/synthrose/artofalchemy/item/ItemEssentiaVessel.java:71-85 | a stored container is returned as is; otherwise a fresh one gets capacity 4000, keeps the blank container's mode and count, and for a typed vessel is whitelisted to that type with the whitelist enabled |
| `Vessel.Sweep` | src/main/java/net/synthrose/artofalchemy/item/ItemEssentiaVessel.java:108-118 | a sweep tries the containers in order and stops after the first that moves anything. Containers not yet reached are untouched. A sweep that moves nothing has tried them all. SweepReachesFirstHit and SweepStopsAtFirst together pin down where it stops |
| `Vessel.SweepStopsAtFirstHit` | src/main/java/net/synthrose/artofalchemy/item/ItemEssentiaVessel.java:108-113 | when the first attempt moves something, the sweep ends there with that count |
| `Vessel.SweepStopsAtFirst` | src/main/java/net/synthrose/artofalchemy/item/ItemEssentiaVessel.java:108-118 | a sweep that moves something stops at its first hit: every attempt before the last one tried moved nothing, the last one moved the whole count, and the containers after it are untouched |
| `Vessel.SweepReachesFirstHit` | src/main/java/net/synthrose/artofalchemy/item/ItemEssentiaVessel.java:108-118 | a sweep goes on past containers that yield nothing: when the attempts before container k moved nothing and the attempt at k moves something, the sweep ends at k with that count |
| `Vessel.IdleSweepMovesNothing` | src/main/java/net/synthrose/artofalchemy/item/ItemEssentiaVessel.java:108-118 | when every attempt the sweep actually makes moves nothing, the sweep moves nothing and has tried every container |
| `Vessel.Exchange` | src/main/java/net/synthrose/artofalchemy/item/ItemEssentiaVessel.java:108-118 | the net is positive exactly when the pull sweep moved something, and then no push was tried; otherwise the vessel and the block's containers are those the push sweep leaves, and the net is minus what it moved |
| `Vessel.VesselStack.SetContainer` | src/main/java/net/synthrose/artofalchemy/item/ItemEssentiaVessel.java:87-92 | a typed vessel stores the container with its whitelist replaced by exactly {TYPE} and enabled; an untyped one stores it unchanged |
| `Vessel.VesselStack.OnCraft` | src/main/java/net/synthrose/artofalchemy/item/ItemEssentiaVessel.java:94-99 | the crafted stack stores exactly the container it held (capacity 4000 if it had none); a typed vessel's whitelist is replaced by exactly {TYPE} and enabled |
| `Vessel.VesselStack.Use` | src/main/java/net/synthrose/artofalchemy/item/ItemEssentiaVessel.java:143-177 | not sneaking leaves the stack alone and defers to the default. Sneaking stores the container with its mode stepped by NextMode and announces NameOf the new mode. That name is the lock line the tooltip then shows, except for unlocked, which shows no line |
| `Vessel.VesselStack.UseOnBlock` | src/main/java/net/synthrose/artofalchemy/item/ItemEssentiaVessel.java:101-141 | a block without essentia gives PASS and leaves the stack alone. Otherwise the stack and the block end as Exchange says. The result is SUCCESS exactly when the net is non-zero, and the block is marked changed exactly when the vessel pushed |

## Left out

- World side effects are not modelled: block-state writes other than `lit`/`filled`, `markDirty`/`sync`, the essentia network packet, sounds, chat text formatting and the client-side click pitch.
- The recipe lookup (`getFirstMatch`) is an input. The model assumes that `getEssentia` returns a fresh stack on every call, so the yield that `canCraft` checks is the yield that `doCraft` spends.
- `EssentiaStack.multiply` works on doubles. It is an uninterpreted parameter. Only the durability factor passed to it is modelled, as a real number, and the machine passes the factor as the source computes it (see Findings).
- `Dissolver.YieldOf`: `multiply` is assumed to return a non-negative count, even for the factor of 0.0 or less that line 158 gives when damage >= maxDamage. The tank bounds of `DoCraft`, `Tick` and `ReadyCraftIsAffordable` rest on this. If the library's multiply kept a negative factor's sign, line 192 would raise `alkahest` above `maxAlkahest`.
- `isDamageable` is modelled as a non-empty stack with a positive maximum damage. The engine's "Unbreakable" tag is not modelled.
- The essentia library's internals are not modelled: `pullContents`, `pushContents`, `canAcceptIgnoreIO`, `addEssentia` and the `EssentiaContainer` constructor are parameters, and a container is reduced to its flags, whitelist, capacity and count.
- `toTag`/`fromTag` are modelled only for the integer fields. Saving and loading the essentia container and the inventory is not modelled, so the model's FromTag leaves those two unchanged.
- The `super.toTag` and `super.fromTag` calls (lines 204 and 209 of the dissolver) are not modelled. They write and read the block entity's own entries (its id and position). So ToTag's promise that the tag's other entries are kept covers only entries that the base class does not write.
- The vessel's level getter for rendering is left out: it is a floating-point clamp run only on the client.
- The tooltip's essentia listing is left out: it depends on the container's contents and is presentation only.
- `getContainer` in the model takes the vessel's type directly. A stack of another item behaves like an untyped vessel, as in the source. `setContainer` uses the type of the stack's own vessel.
- `Dissolver.BlockEntityDissolver.Tick`: the fields the property delegate can set to arbitrary values (for example a negative `alkahest` on the client) are not assumed consistent; the tank-bounds guarantee is stated only for a machine that starts consistent.

## Findings

| source | as written | input that shows it | evidently intended | confidence | as-written member | corrected member |
|---|---|---|---|---|---|---|
| src/main/java/net/synthrose/artofalchemy/blockentity/BlockEntityDissolver.java:157-160 | `1.0 - getDamage() / getMaxDamage()` divides two `int`s, so any damage below the maximum gives factor 1.0 and the yield is never reduced for wear (the same expression recurs at lines 180-183) | a damageable input at damage 50 of maximum 100: factor 1.0 | factor 0.5, the fraction of durability left | not executed; high (Java integer division) | `Dissolver.DurabilityFactorAsWritten` | `Dissolver.DurabilityFactor` |

The machine (`YieldOf`, and through it `CraftStatus`, `CanCraft`, `DoCraft` and `Tick`) uses the factor as written. `DurabilityFactor` is the intended definition, proved on its own. `HalfWornToolKeepsFullYield` shows the gap on the 50-of-100 input.
