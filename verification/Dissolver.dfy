/**
 * The dissolver block entity: an alkahest tank feeding a dissolution recipe
 * that turns the item in its single slot into essentia, driven one game tick
 * at a time.
 */
module Dissolver {
  import opened JavaInt
  import opened Engine

  const TANK_SIZE: i32 := 4000
  const INITIAL_MAX_PROGRESS: i32 := 100
  /** Recipe time is the essentia count divided by this speed factor ... */
  const SPEED_MOD: int := 2
  /** ... but never shorter than this many ticks. */
  const MIN_MAX_PROGRESS: i32 := 20

  /** Status codes shown by the machine's screen. */
  const STATUS_READY: i32 := 0
  const STATUS_ERROR: i32 := 1
  const STATUS_NO_ALKAHEST: i32 := 2
  const STATUS_OUTPUT_FULL: i32 := 3

  /** Number of integer properties the screen synchronises. */
  const DELEGATE_SIZE: nat := 5

  /**
   * A dissolution recipe: the essentia it yields (as a total count) and the
   * item left behind in the slot, `Empty` when none.
   */
  datatype Recipe = Recipe(essentia: Count, container: ItemStack)

  /** `EssentiaStack.multiply`: scales a stack's count by a durability factor. */
  type Multiply = (Count, real) -> Count
  /** `EssentiaContainer.canAcceptIgnoreIO`: whether the output tank has room for a yield. */
  type Accepts = (Container, Count) -> bool
  /** `EssentiaContainer.addEssentia`: the output tank after it received a yield. */
  type AddEssentia = (Container, Count) -> Container

  /** Saved data: the integer entries of a compound tag. */
  type Tag = map<string, i32>

  const KEY_ALKAHEST := "alkahest"
  const KEY_PROGRESS := "progress"
  const KEY_MAX_PROGRESS := "max_progress"
  const KEY_STATUS := "status"

  /** A missing integer entry reads as 0. */
  function GetInt(tag: Tag, key: string): i32
  {
    if key in tag then tag[key] else 0
  }

  /** Writing an entry changes what reading gives for that key only. */
  lemma GetIntAfterPut(tag: Tag, key: string, value: i32, other: string)
    ensures GetInt(tag[key := value], other) == if key == other then value else GetInt(tag, other)
  {
  }

  /** The recipe time for a yield of `count`: half the count, at least MIN_MAX_PROGRESS ticks. */
  function MaxProgressFor(count: Count): (ticks: i32)
    ensures ticks >= MIN_MAX_PROGRESS && ticks >= count / SPEED_MOD
    ensures ticks == MIN_MAX_PROGRESS || ticks == count / SPEED_MOD
  {
    if count / SPEED_MOD < MIN_MAX_PROGRESS then MIN_MAX_PROGRESS else count / SPEED_MOD
  }

  /**
   * The durability factor exactly as the source computes it: the damage
   * ratio is taken with integer division before it is subtracted from 1.0.
   */
  function DurabilityFactorAsWritten(slot: ItemStack): (f: real)
    requires slot.IsDamageable()
    ensures f <= 1.0
    ensures f == 1.0 <==> slot.damage < slot.maxDamage
    ensures slot.maxDamage <= slot.damage ==> f <= 0.0
  {
    1.0 - (slot.damage / slot.maxDamage) as real
  }

  /** A tool worn halfway keeps the whole yield as written, where half was meant. */
  lemma HalfWornToolKeepsFullYield()
    ensures DurabilityFactorAsWritten(Stack(1, 1, 50, 100)) == 1.0
    ensures DurabilityFactor(Stack(1, 1, 50, 100)) == 0.5
  {
  }

  /** The durability factor as intended: the fraction of durability left. */
  function DurabilityFactor(slot: ItemStack): (f: real)
    requires slot.IsDamageable()
    ensures f * slot.maxDamage as real == (slot.maxDamage - slot.damage) as real
    ensures slot.damage <= slot.maxDamage ==> 0.0 <= f <= 1.0
  {
    1.0 - slot.damage as real / slot.maxDamage as real
  }

  /**
   * The essentia a craft yields: the recipe's count, passed through
   * `multiply` with the durability factor as the source computes it when the
   * input is damageable.
   */
  function YieldOf(recipe: Recipe, slot: ItemStack, multiply: Multiply): (count: Count)
    ensures !slot.IsDamageable() ==> count == recipe.essentia
    ensures slot.IsDamageable() ==> count == multiply(recipe.essentia, DurabilityFactorAsWritten(slot))
    ensures slot.IsDamageable() && slot.damage < slot.maxDamage ==> count == multiply(recipe.essentia, 1.0)
  {
    if slot.IsDamageable() then multiply(recipe.essentia, DurabilityFactorAsWritten(slot)) else recipe.essentia
  }

  /** A container recipe only applies to a slot holding exactly as many items as its container. */
  predicate ContainerMismatch(recipe: Recipe, slot: ItemStack)
  {
    recipe.container != Empty && slot.Count() != recipe.container.Count()
  }

  /**
   * The status a crafting check settles on, by priority: a missing recipe, an
   * empty slot or a container mismatch first; then too little alkahest; then a
   * full output tank.
   */
  function CraftStatus(recipe: Option<Recipe>, slot: ItemStack, alkahest: int, essentia: Container,
                       multiply: Multiply, accepts: Accepts): (code: i32)
    ensures code == STATUS_ERROR <==>
      recipe.None? || slot.IsEmpty() || ContainerMismatch(recipe.value, slot)
    ensures code == STATUS_NO_ALKAHEST <==>
      recipe.Some? && !slot.IsEmpty() && !ContainerMismatch(recipe.value, slot)
      && YieldOf(recipe.value, slot, multiply) > alkahest
    ensures code == STATUS_OUTPUT_FULL <==>
      recipe.Some? && !slot.IsEmpty() && !ContainerMismatch(recipe.value, slot)
      && YieldOf(recipe.value, slot, multiply) <= alkahest
      && !accepts(essentia, YieldOf(recipe.value, slot, multiply))
    ensures code == STATUS_READY <==>
      recipe.Some? && !slot.IsEmpty() && !ContainerMismatch(recipe.value, slot)
      && YieldOf(recipe.value, slot, multiply) <= alkahest
      && accepts(essentia, YieldOf(recipe.value, slot, multiply))
  {
    if recipe.None? || slot.IsEmpty() || ContainerMismatch(recipe.value, slot) then STATUS_ERROR
    else
      var count := YieldOf(recipe.value, slot, multiply);
      if count > alkahest then STATUS_NO_ALKAHEST
      else if !accepts(essentia, count) then STATUS_OUTPUT_FULL
      else STATUS_READY
  }

  /** A ready status guarantees the tank can pay for the yield. */
  lemma ReadyCraftIsAffordable(recipe: Option<Recipe>, slot: ItemStack, alkahest: int, essentia: Container,
                               multiply: Multiply, accepts: Accepts)
    requires CraftStatus(recipe, slot, alkahest, essentia, multiply, accepts) == STATUS_READY
    ensures 0 <= alkahest - YieldOf(recipe.value, slot, multiply) <= alkahest
  {
  }

  /** What is left in the slot after a craft: the recipe's container, or one item fewer. */
  function SlotAfterCraft(recipe: Recipe, slot: ItemStack): (after: ItemStack)
    ensures recipe.container != Empty ==> after == recipe.container
    ensures recipe.container == Empty && slot.Stack? ==>
      after == Stack(slot.item, slot.count - 1, slot.damage, slot.maxDamage)
    ensures recipe.container == Empty && slot.Empty? ==> after == Empty
  {
    if recipe.container != Empty then recipe.container else slot.Decrement()
  }

  /** The integer fields that `fromTag` restores; the tank size always comes back as TANK_SIZE. */
  function Loaded(tag: Tag): seq<i32> {
    [GetInt(tag, KEY_ALKAHEST), TANK_SIZE, GetInt(tag, KEY_PROGRESS),
     GetInt(tag, KEY_MAX_PROGRESS), GetInt(tag, KEY_STATUS)]
  }

  class BlockEntityDissolver {
    var alkahest: i32
    var maxAlkahest: i32
    var progress: i32
    var maxProgress: i32
    var status: i32
    /** The `lit` block-state property. */
    var lit: bool
    /** The `filled` block-state property. */
    var filled: bool
    /** The single input slot. */
    var slot: ItemStack
    /** The output essentia tank. */
    var essentia: Container

    /** The five integers the screen reads by index. */
    function Fields(): seq<i32>
      reads this
    {
      [alkahest, maxAlkahest, progress, maxProgress, status]
    }

    /** The tank is within its bounds and the block shows `filled` exactly when it holds alkahest. */
    predicate Consistent()
      reads this
    {
      0 <= alkahest <= maxAlkahest && filled == (alkahest > 0)
    }

    /**
     * A fresh dissolver; `blank` is what `new EssentiaContainer()` yields.
     * The constructor itself does not write the block state: unlit and
     * unfilled is the block's default state, which is assumed here.
     */
    constructor (blank: Container)
      ensures Fields() == [0, TANK_SIZE, 0, INITIAL_MAX_PROGRESS, STATUS_READY]
      ensures !lit && !filled && slot == Empty
      ensures essentia == blank.(capacity := TANK_SIZE as int, input := false, output := true)
      ensures Consistent()
    {
      alkahest := 0;
      maxAlkahest := TANK_SIZE;
      progress := 0;
      maxProgress := INITIAL_MAX_PROGRESS;
      status := STATUS_READY;
      lit := false;
      filled := false;
      slot := Empty;
      essentia := blank.(capacity := TANK_SIZE as int).(input := false).(output := true);
    }

    /** On a consistent machine the tank holds alkahest exactly when the block shows `filled`. */
    predicate HasAlkahest()
      reads this
      ensures Consistent() ==> (HasAlkahest() <==> filled)
    {
      alkahest > 0
    }

    /** Fills the tank to `amount` if it fits, and reports whether it did. */
    method SetAlkahest(amount: i32) returns (ok: bool)
      modifies this
      ensures ok <==> 0 <= amount <= old(maxAlkahest)
      ensures ok ==> alkahest == amount && filled == (amount > 0) && Consistent()
      ensures !ok ==> alkahest == old(alkahest) && filled == old(filled)
      ensures maxAlkahest == old(maxAlkahest) && progress == old(progress)
      ensures maxProgress == old(maxProgress) && status == old(status) && lit == old(lit)
      ensures slot == old(slot) && essentia == old(essentia)
    {
      if 0 <= amount <= maxAlkahest {
        alkahest := amount;
        filled := alkahest > 0;
        ok := true;
      } else {
        ok := false;
      }
    }

    /**
     * Adds `amount` (negative to drain) with Java's wrapping `+`; from a
     * non-negative tank, exactly the adds that keep it within [0, maxAlkahest]
     * succeed.
     */
    method AddAlkahest(amount: i32) returns (ok: bool)
      modifies this
      ensures ok <==> 0 <= Wrap(old(alkahest) + amount) <= old(maxAlkahest)
      ensures old(alkahest) >= 0 ==> (ok <==> 0 <= old(alkahest) + amount <= old(maxAlkahest))
      ensures ok ==> alkahest == Wrap(old(alkahest) + amount) && filled == (alkahest > 0) && Consistent()
      ensures ok && old(alkahest) >= 0 ==> alkahest == old(alkahest) + amount
      ensures !ok ==> alkahest == old(alkahest) && filled == old(filled)
      ensures old(Consistent()) ==> Consistent()
      ensures maxAlkahest == old(maxAlkahest) && progress == old(progress)
      ensures maxProgress == old(maxProgress) && status == old(status) && lit == old(lit)
      ensures slot == old(slot) && essentia == old(essentia)
    {
      if alkahest >= 0 {
        AddLandsInRange(alkahest, amount, maxAlkahest);
      }
      ok := SetAlkahest(Wrap(alkahest + amount));
    }

    /** Records a status code and reports whether it is the ready code. */
    method UpdateStatus(code: i32) returns (ready: bool)
      modifies this`status
      ensures status == code
      ensures ready <==> code == STATUS_READY
    {
      if status != code {
        status := code;
      }
      ready := code == STATUS_READY;
    }

    /**
     * Checks whether `recipe` can run now, records the status and, once a
     * recipe and an input are present, the recipe time.
     */
    method CanCraft(recipe: Option<Recipe>, multiply: Multiply, accepts: Accepts) returns (ok: bool)
      modifies this
      ensures status == CraftStatus(recipe, old(slot), old(alkahest), old(essentia), multiply, accepts)
      ensures ok <==> status == STATUS_READY
      ensures maxProgress == if recipe.Some? && !old(slot).IsEmpty()
                             then MaxProgressFor(recipe.value.essentia) else old(maxProgress)
      ensures recipe.Some? && !old(slot).IsEmpty() ==> maxProgress >= MIN_MAX_PROGRESS
      ensures alkahest == old(alkahest) && maxAlkahest == old(maxAlkahest) && progress == old(progress)
      ensures lit == old(lit) && filled == old(filled) && slot == old(slot) && essentia == old(essentia)
    {
      if recipe.None? || slot.IsEmpty() {
        ok := UpdateStatus(STATUS_ERROR);
        return;
      }
      var r := recipe.value;
      maxProgress := r.essentia / SPEED_MOD;
      if maxProgress < MIN_MAX_PROGRESS {
        maxProgress := MIN_MAX_PROGRESS;
      }
      if r.container != Empty && slot.Count() != r.container.Count() {
        ok := UpdateStatus(STATUS_ERROR);
        return;
      }
      var count := YieldOf(r, slot, multiply);
      if count > alkahest {
        ok := UpdateStatus(STATUS_NO_ALKAHEST);
      } else if !accepts(essentia, count) {
        ok := UpdateStatus(STATUS_OUTPUT_FULL);
      } else {
        ok := UpdateStatus(STATUS_READY);
      }
    }

    /** Runs one craft; the caller has checked that the tank can pay for the yield. */
    method DoCraft(recipe: Recipe, multiply: Multiply, add: AddEssentia)
      requires !slot.IsEmpty() && YieldOf(recipe, slot, multiply) <= alkahest
      modifies this`slot, this`essentia, this`alkahest
      ensures slot == SlotAfterCraft(recipe, old(slot))
      ensures essentia == add(old(essentia), YieldOf(recipe, old(slot), multiply))
      ensures alkahest == old(alkahest) - YieldOf(recipe, old(slot), multiply)
      ensures 0 <= alkahest <= old(alkahest)
    {
      var count := YieldOf(recipe, slot, multiply);
      if recipe.container != Empty {
        slot := recipe.container;
      } else {
        slot := slot.Decrement();
      }
      essentia := add(essentia, count);
      alkahest := alkahest - count;
    }

    /**
     * One game tick. On the client nothing happens. On the server: an empty
     * slot is status 1, an empty tank status 2; otherwise the recipe is
     * checked, and a ready machine lights up, advances its progress by one and,
     * once progress reaches the recipe time, crafts and winds progress back by
     * that time. A machine that cannot work drops its progress and goes dark.
     */
    method Tick(isClient: bool, recipe: Option<Recipe>, multiply: Multiply, accepts: Accepts, add: AddEssentia)
      modifies this
      ensures isClient ==> Fields() == old(Fields()) && lit == old(lit) && filled == old(filled)
                           && slot == old(slot) && essentia == old(essentia)
      ensures maxAlkahest == old(maxAlkahest)
      // which status the tick settles on
      ensures !isClient && old(slot).IsEmpty() ==> status == STATUS_ERROR
      ensures !isClient && !old(slot).IsEmpty() && old(alkahest) <= 0 ==> status == STATUS_NO_ALKAHEST
      ensures !isClient && !old(slot).IsEmpty() && old(alkahest) > 0 ==>
        status == CraftStatus(recipe, old(slot), old(alkahest), old(essentia), multiply, accepts)
      ensures !isClient && !old(slot).IsEmpty() && old(alkahest) > 0 && recipe.Some? ==>
        maxProgress == MaxProgressFor(recipe.value.essentia) && maxProgress >= MIN_MAX_PROGRESS
      ensures !(!isClient && !old(slot).IsEmpty() && old(alkahest) > 0 && recipe.Some?) ==>
        maxProgress == old(maxProgress)
      // a machine that cannot work resets and changes nothing else
      ensures !isClient && status != STATUS_READY ==>
        progress == 0 && !lit && alkahest == old(alkahest) && filled == old(filled)
        && slot == old(slot) && essentia == old(essentia)
      // a machine that can work advances by one tick and crafts when done
      ensures !isClient && status == STATUS_READY ==>
        var advanced := if old(progress) < maxProgress then old(progress) + 1 else old(progress);
        var crafted := advanced >= maxProgress;
        && lit == (old(progress) < maxProgress || old(lit))
        && progress == (if crafted then advanced - maxProgress else advanced)
        && (crafted ==>
              var count := YieldOf(recipe.value, old(slot), multiply);
              && slot == SlotAfterCraft(recipe.value, old(slot))
              && essentia == add(old(essentia), count)
              && alkahest == old(alkahest) - count
              && filled == (old(filled) && alkahest > 0))
        && (!crafted ==>
              alkahest == old(alkahest) && filled == old(filled)
              && slot == old(slot) && essentia == old(essentia))
      ensures old(Consistent()) ==> Consistent()
    {
      if isClient {
        return;
      }
      var canWork := false;
      if slot.IsEmpty() {
        var _ := UpdateStatus(STATUS_ERROR);
      } else if !HasAlkahest() {
        var _ := UpdateStatus(STATUS_NO_ALKAHEST);
      } else {
        canWork := CanCraft(recipe, multiply, accepts);
        if canWork {
          if progress < maxProgress {
            lit := true;
            progress := progress + 1;
          }
          if progress >= maxProgress {
            progress := progress - maxProgress;
            DoCraft(recipe.value, multiply, add);
            if alkahest <= 0 {
              filled := false;
            }
          }
        }
      }
      if !canWork {
        progress := 0;
        lit := false;
      }
    }

    /** The property delegate's `size()`: one entry per synchronised field. */
    function Size(): (n: nat)
      reads this
      ensures n == |Fields()|
    {
      DELEGATE_SIZE
    }

    /** The property delegate's `get`: the indexed field, 0 outside the five indices. */
    function Get(index: int): (v: i32)
      reads this
      ensures 0 <= index < |Fields()| ==> v == Fields()[index]
      ensures !(0 <= index < |Fields()|) ==> v == 0
    {
      if index == 0 then alkahest
      else if index == 1 then maxAlkahest
      else if index == 2 then progress
      else if index == 3 then maxProgress
      else if index == 4 then status
      else 0
    }

    /** The property delegate's `set`: writes the indexed field; other indices are ignored. */
    method Set(index: int, value: i32)
      modifies this
      ensures Fields() == if 0 <= index < |old(Fields())| then old(Fields())[index := value] else old(Fields())
      ensures 0 <= index < |Fields()| ==> Get(index) == value
      ensures lit == old(lit) && filled == old(filled) && slot == old(slot) && essentia == old(essentia)
    {
      if index == 0 {
        alkahest := value;
      } else if index == 1 {
        maxAlkahest := value;
      } else if index == 2 {
        progress := value;
      } else if index == 3 {
        maxProgress := value;
      } else if index == 4 {
        status := value;
      }
    }

    /**
     * Writes the integer fields into `tag`, keeping its other entries; reading
     * the result back restores them, except the tank size, which always comes
     * back as TANK_SIZE.
     */
    function ToTag(tag: Tag): (saved: Tag)
      reads this
      ensures Loaded(saved) == Fields()[1 := TANK_SIZE]
      ensures forall key :: key in tag ==> key in saved
      ensures forall key :: key in tag && key !in {KEY_ALKAHEST, KEY_PROGRESS, KEY_MAX_PROGRESS, KEY_STATUS} ==>
        saved[key] == tag[key]
    {
      var withAlkahest: Tag := tag[KEY_ALKAHEST := alkahest];
      var withProgress: Tag := withAlkahest[KEY_PROGRESS := progress];
      var withMaxProgress: Tag := withProgress[KEY_MAX_PROGRESS := maxProgress];
      withMaxProgress[KEY_STATUS := status]
    }

    /** Reads the integer fields back from `tag` and resets the tank size. */
    method FromTag(tag: Tag)
      modifies this
      ensures Fields() == Loaded(tag)
      ensures maxAlkahest == TANK_SIZE
      ensures lit == old(lit) && filled == old(filled) && slot == old(slot) && essentia == old(essentia)
    {
      alkahest := GetInt(tag, KEY_ALKAHEST);
      progress := GetInt(tag, KEY_PROGRESS);
      maxProgress := GetInt(tag, KEY_MAX_PROGRESS);
      status := GetInt(tag, KEY_STATUS);
      maxAlkahest := TANK_SIZE;
    }
  }

  /** Saving and then loading restores every integer field but resets the tank size. */
  method SaveThenLoad(d: BlockEntityDissolver, tag: Tag)
    modifies d
    ensures d.Fields() == old(d.Fields())[1 := TANK_SIZE]
    ensures d.Get(0) == old(d.alkahest) && d.Get(2) == old(d.progress)
    ensures d.Get(3) == old(d.maxProgress) && d.Get(4) == old(d.status) && d.Get(1) == TANK_SIZE
  {
    var saved := d.ToTag(tag);
    d.FromTag(saved);
  }
}
