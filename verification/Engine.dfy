/**
 * Plain values standing in for the engine and library types that the two core
 * classes touch: essentia containers, item stacks and action results.
 */
module Engine {

  datatype Option<T> = None | Some(value: T)

  /** An essentia kind, known only by its registry name. */
  datatype Essentia = Essentia(name: string)

  /**
   * An essentia container reduced to what the core reads and writes: its I/O
   * flags, its whitelist, its capacity and its total count.
   */
  datatype Container = Container(
    input: bool,
    output: bool,
    whitelistEnabled: bool,
    whitelist: set<Essentia>,
    capacity: int,
    count: int)

  /**
   * An item stack. `Empty` is the engine's shared empty stack; a `Stack` whose
   * count dropped to zero or below is empty as well.
   */
  datatype ItemStack =
    | Empty
    | Stack(item: nat, count: int, damage: nat, maxDamage: nat)
  {
    predicate IsEmpty() {
      Empty? || count <= 0
    }

    /** The engine reports 0 for an empty stack. */
    function Count(): int {
      if IsEmpty() then 0 else count
    }

    /** An item that wears down with use. */
    predicate IsDamageable() {
      !IsEmpty() && maxDamage > 0
    }

    /** Takes one item off the stack. */
    function Decrement(): ItemStack {
      match this
      case Empty => Empty
      case Stack(_, _, _, _) => this.(count := count - 1)
    }
  }

  /** The result the engine reads back from a use callback. */
  datatype ActionResult = Success | Pass
}
