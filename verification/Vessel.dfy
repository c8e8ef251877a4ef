/**
 * The essentia vessel item: a portable essentia container kept in an item
 * stack. Sneak-using it cycles its I/O mode; using it on a block that holds
 * essentia first tries to pull from the block and, failing that, to push into
 * it.
 */
module Vessel {
  import opened Engine

  const DEFAULT_MULTI_CAPACITY: int := 4000
  const DEFAULT_SINGLE_CAPACITY: int := 4000

  /** Whether the vessel's container accepts essentia (`input`) and gives it up (`output`). */
  datatype IoMode = IoMode(input: bool, output: bool)

  /** The name under which a mode is announced in chat and shown in the tooltip. */
  datatype ModeName = Unlocked | InputOnly | OutputOnly | Locked

  /** The outcome of using the vessel in the air. */
  datatype UseResult = Consumed(message: ModeName) | Default

  function ModeOf(c: Container): IoMode {
    IoMode(c.input, c.output)
  }

  /** The order of the modes in the sneak-use cycle, starting from both ways open. */
  function CyclePosition(m: IoMode): (k: nat)
    ensures k < 4
  {
    if m.input && m.output then 0
    else if m.input then 1
    else if m.output then 2
    else 3
  }

  /** The mode that a sneak-use switches to: one step further along the cycle. */
  function NextMode(m: IoMode): (next: IoMode)
    ensures CyclePosition(next) == (CyclePosition(m) + 1) % 4
    ensures next != m
  {
    if m.input && m.output then IoMode(true, false)
    else if m.input && !m.output then IoMode(false, true)
    else if !m.input && m.output then IoMode(false, false)
    else IoMode(true, true)
  }

  /** One step back along the cycle. */
  function PreviousMode(m: IoMode): (prev: IoMode)
    ensures NextMode(prev) == m
  {
    if m.input && m.output then IoMode(false, false)
    else if m.input && !m.output then IoMode(true, true)
    else if !m.input && m.output then IoMode(true, false)
    else IoMode(false, true)
  }

  /** Sneak-use is a bijection on the four modes, with PreviousMode as its inverse. */
  lemma NextModeIsBijective(a: IoMode, b: IoMode)
    ensures NextMode(a) == NextMode(b) ==> a == b
    ensures PreviousMode(NextMode(a)) == a
  {
  }

  /** Four sneak-uses bring the vessel back to its mode, and no fewer do. */
  lemma CycleHasLengthFour(m: IoMode)
    ensures NextMode(NextMode(NextMode(NextMode(m)))) == m
    ensures NextMode(NextMode(m)) != m && NextMode(NextMode(NextMode(m))) != m
  {
  }

  /** The chat message a sneak-use shows: the name of the mode it switched to. */
  function NameOf(m: IoMode): (name: ModeName)
    ensures name == Unlocked <==> m.input && m.output
    ensures name == InputOnly <==> m.input && !m.output
    ensures name == OutputOnly <==> !m.input && m.output
    ensures name == Locked <==> !m.input && !m.output
  {
    if m.input && m.output then Unlocked
    else if m.input then InputOnly
    else if m.output then OutputOnly
    else Locked
  }

  /**
   * The lock-status line of the tooltip: none without a world, and none when
   * the container is open both ways.
   */
  function TooltipLockLine(hasWorld: bool, c: Container): (line: Option<ModeName>)
    ensures !hasWorld ==> line == None
    ensures hasWorld ==> (line == Some(Locked) <==> !c.input && !c.output)
    ensures hasWorld ==> (line == Some(OutputOnly) <==> !c.input && c.output)
    ensures hasWorld ==> (line == Some(InputOnly) <==> c.input && !c.output)
    ensures hasWorld ==> (line == None <==> c.input && c.output)
  {
    if !hasWorld then None
    else if !c.input && !c.output then Some(Locked)
    else if !c.input then Some(OutputOnly)
    else if !c.output then Some(InputOnly)
    else None
  }

  /**
   * The container a vessel stack holds: the stored one, or else a fresh one
   * (`blank`, as `new EssentiaContainer()` makes it) with the default capacity,
   * whitelisted to the vessel's essentia when it has one.
   */
  function GetContainer(stored: Option<Container>, vesselType: Option<Essentia>, blank: Container): (c: Container)
    ensures stored.Some? ==> c == stored.value
    ensures stored.None? ==> c.capacity == DEFAULT_SINGLE_CAPACITY && c.capacity == DEFAULT_MULTI_CAPACITY
    ensures stored.None? ==> ModeOf(c) == ModeOf(blank) && c.count == blank.count
    ensures stored.None? && vesselType.Some? ==>
      c.whitelistEnabled && c.whitelist == blank.whitelist + {vesselType.value}
    ensures stored.None? && vesselType.None? ==>
      c.whitelistEnabled == blank.whitelistEnabled && c.whitelist == blank.whitelist
  {
    match stored
    case Some(c) => c
    case None =>
      var c := blank.(capacity := DEFAULT_SINGLE_CAPACITY);
      if vesselType.Some? then
        c.(whitelist := c.whitelist + {vesselType.value}).(whitelistEnabled := true).(capacity := DEFAULT_MULTI_CAPACITY)
      else c
  }

  /** One pull or push between the vessel's container and another: both containers afterwards, and the count moved. */
  datatype Moved = Moved(vessel: Container, other: Container, count: nat)

  /** `pullContents` or `pushContents`. */
  type Transfer = (Container, Container) -> Moved

  /** The state after a sweep over the target's containers, and how many of them it tried. */
  datatype SweepResult = SweepResult(vessel: Container, others: seq<Container>, moved: nat, tried: nat)

  /**
   * Tries `op` against the containers from index `i` on, stopping after the
   * first one that moves anything.
   */
  function Sweep(op: Transfer, vessel: Container, others: seq<Container>, i: nat): (r: SweepResult)
    requires i <= |others|
    decreases |others| - i
    ensures |r.others| == |others| && i <= r.tried <= |others|
    ensures forall j :: 0 <= j < i || r.tried <= j < |others| ==> r.others[j] == others[j]
    ensures r.moved == 0 ==> r.tried == |others|
    ensures r.moved != 0 ==> i < r.tried
  {
    if i == |others| then SweepResult(vessel, others, 0, i)
    else
      var m := op(vessel, others[i]);
      if m.count != 0 then SweepResult(m.vessel, others[i := m.other], m.count, i + 1)
      else Sweep(op, m.vessel, others[i := m.other], i + 1)
  }

  /** A sweep ends at the first container that moves anything. */
  lemma SweepStopsAtFirstHit(op: Transfer, vessel: Container, others: seq<Container>, i: nat)
    requires i < |others| && op(vessel, others[i]).count != 0
    ensures Sweep(op, vessel, others, i).tried == i + 1
    ensures Sweep(op, vessel, others, i).moved == op(vessel, others[i]).count
  {
  }

  /**
   * A sweep that moves something stops at its first hit: the sweep over the
   * containers before the last one tried moved nothing, the last attempt
   * moved the whole count, and the containers after it are untouched.
   */
  lemma {:induction false} SweepStopsAtFirst(op: Transfer, vessel: Container, others: seq<Container>, i: nat)
    requires i <= |others|
    decreases |others| - i
    ensures var r := Sweep(op, vessel, others, i);
      r.moved != 0 ==>
        var before := Sweep(op, vessel, others[..r.tried - 1], i);
        var last := op(before.vessel, others[r.tried - 1]);
        && before.moved == 0 && before.tried == r.tried - 1
        && r.moved == last.count && r.vessel == last.vessel
        && r.others == before.others + [last.other] + others[r.tried..]
  {
    if i < |others| {
      var m := op(vessel, others[i]);
      var next := others[i := m.other];
      if m.count != 0 {
        assert others[..i][i..] == [];
        assert others[i := m.other] == others[..i] + [m.other] + others[i + 1..];
      } else {
        SweepStopsAtFirst(op, m.vessel, next, i + 1);
        var r := Sweep(op, vessel, others, i);
        if r.moved != 0 {
          var t := r.tried;
          assert others[..t - 1][i] == others[i];
          assert others[..t - 1][i := m.other] == next[..t - 1];
          assert next[t - 1] == others[t - 1];
          assert next[t..] == others[t..];
        }
      }
    }
  }

  /**
   * A sweep goes on past containers that yield nothing: when the sweep over
   * the containers before `k` moved nothing and the attempt at `k` would move
   * something, the sweep over all of them ends at `k` with that count.
   */
  lemma {:induction false} SweepReachesFirstHit(op: Transfer, vessel: Container, others: seq<Container>, i: nat, k: nat)
    requires i <= k < |others|
    requires Sweep(op, vessel, others[..k], i).moved == 0
    requires op(Sweep(op, vessel, others[..k], i).vessel, others[k]).count != 0
    decreases k - i
    ensures Sweep(op, vessel, others, i).tried == k + 1
    ensures Sweep(op, vessel, others, i).moved == op(Sweep(op, vessel, others[..k], i).vessel, others[k]).count
  {
    if i < k {
      var m := op(vessel, others[i]);
      assert others[..k][i] == others[i];
      assert others[..k][i := m.other] == others[i := m.other][..k];
      SweepReachesFirstHit(op, m.vessel, others[i := m.other], i + 1, k);
    } else {
      assert others[..k][k..] == [];
    }
  }

  /**
   * When every attempt the sweep makes moves nothing, the sweep moves nothing
   * and tries every container.
   */
  lemma {:induction false} IdleSweepMovesNothing(op: Transfer, vessel: Container, others: seq<Container>, i: nat)
    requires i <= |others|
    requires forall k :: i <= k < |others| ==> op(Sweep(op, vessel, others[..k], i).vessel, others[k]).count == 0
    ensures Sweep(op, vessel, others, i).moved == 0
    ensures Sweep(op, vessel, others, i).tried == |others|
  {
    SweepStopsAtFirst(op, vessel, others, i);
  }

  /** The outcome of using the vessel on a block: both sides afterwards, and the net count pulled (negative: pushed). */
  datatype ExchangeResult = ExchangeResult(vessel: Container, others: seq<Container>, net: int)

  /** Pull from the block's containers; only if nothing came out, push into them. */
  function Exchange(pull: Transfer, push: Transfer, vessel: Container, others: seq<Container>): (e: ExchangeResult)
    ensures |e.others| == |others|
    ensures var pulled := Sweep(pull, vessel, others, 0);
      && (e.net > 0 <==> pulled.moved != 0)
      && (e.net > 0 ==> e.vessel == pulled.vessel && e.others == pulled.others && e.net == pulled.moved)
      && (e.net <= 0 ==>
            var pushed := Sweep(push, pulled.vessel, pulled.others, 0);
            e.net == 0 - pushed.moved && e.vessel == pushed.vessel && e.others == pushed.others)
  {
    var pulled := Sweep(pull, vessel, others, 0);
    if pulled.moved != 0 then ExchangeResult(pulled.vessel, pulled.others, pulled.moved)
    else
      var pushed := Sweep(push, pulled.vessel, pulled.others, 0);
      ExchangeResult(pushed.vessel, pushed.others, 0 - pushed.moved)
  }

  /** An item stack holding an essentia vessel. */
  class VesselStack {
    /** The essentia the vessel item is made for, if any. */
    const vesselType: Option<Essentia>
    /** The container saved in the stack's data, if any. */
    var stored: Option<Container>

    constructor (vesselType: Option<Essentia>, stored: Option<Container>)
      ensures this.vesselType == vesselType && this.stored == stored
    {
      this.vesselType := vesselType;
      this.stored := stored;
    }

    /** The container this stack holds now. */
    function Contents(blank: Container): Container
      reads this
    {
      GetContainer(stored, vesselType, blank)
    }

    /**
     * Stores `c`; a typed vessel first narrows the whitelist to its own
     * essentia and enables it.
     */
    method SetContainer(c: Container)
      modifies this
      ensures vesselType.None? ==> stored == Some(c)
      ensures vesselType.Some? ==>
        stored == Some(c.(whitelist := {vesselType.value}, whitelistEnabled := true))
    {
      var container := c;
      if vesselType.Some? {
        container := container.(whitelist := {}).(whitelist := {vesselType.value}).(whitelistEnabled := true);
      }
      stored := Some(container);
    }

    /** On crafting, the stack stores its container, whitelisted as SetContainer does. */
    method OnCraft(blank: Container)
      modifies this
      ensures stored.Some?
      ensures ModeOf(stored.value) == ModeOf(old(Contents(blank)))
      ensures stored.value.capacity == old(Contents(blank)).capacity
      ensures old(stored).None? ==> stored.value.capacity == DEFAULT_SINGLE_CAPACITY
      ensures vesselType.Some? ==>
        stored == Some(old(Contents(blank)).(whitelist := {vesselType.value}, whitelistEnabled := true))
      ensures vesselType.None? ==> stored == Some(old(Contents(blank)))
    {
      var container := GetContainer(stored, vesselType, blank);
      SetContainer(container);
    }

    /**
     * Using the vessel in the air: sneaking steps the I/O mode one place along
     * the cycle and announces the new mode; otherwise the engine's default
     * applies and the stack is untouched.
     */
    method Use(sneaking: bool, blank: Container) returns (r: UseResult)
      modifies this
      ensures !sneaking ==> r == Default && stored == old(stored)
      ensures sneaking ==>
        var before := old(Contents(blank));
        && stored == Some(before.(input := NextMode(ModeOf(before)).input, output := NextMode(ModeOf(before)).output))
        && r == Consumed(NameOf(NextMode(ModeOf(before))))
      ensures sneaking ==>
        TooltipLockLine(true, stored.value) == if r.message == Unlocked then None else Some(r.message)
    {
      if !sneaking {
        return Default;
      }
      var container := GetContainer(stored, vesselType, blank);
      var message: ModeName;
      if container.input && container.output {
        message := InputOnly;
        container := container.(input := true).(output := false);
      } else if container.input && !container.output {
        message := OutputOnly;
        container := container.(input := false).(output := true);
      } else if !container.input && container.output {
        message := Locked;
        container := container.(input := false).(output := false);
      } else {
        message := Unlocked;
        container := container.(input := true).(output := true);
      }
      stored := Some(container);
      r := Consumed(message);
    }

    /**
     * Using the vessel on a block. `target` holds the block's essentia
     * containers, or is None when the block holds no essentia. Returns the
     * result, the block's containers afterwards, and whether the block was
     * marked changed.
     */
    method UseOnBlock(target: Option<seq<Container>>, pull: Transfer, push: Transfer, blank: Container)
      returns (r: ActionResult, others: seq<Container>, targetDirty: bool)
      modifies this
      ensures target.None? ==> r == Pass && !targetDirty && stored == old(stored)
      ensures target.Some? ==>
        var e := Exchange(pull, push, old(Contents(blank)), target.value);
        && stored == Some(e.vessel)
        && others == e.others
        && (r == Success <==> e.net != 0)
        && (targetDirty <==> e.net < 0)
    {
      var container := GetContainer(stored, vesselType, blank);
      if target.None? {
        return Pass, [], false;
      }
      ghost var start := container;
      others := target.value;
      var transferred := 0;
      var i := 0;
      while i < |others| && transferred == 0
        invariant i <= |others| == |target.value|
        invariant transferred >= 0
        invariant transferred == 0 ==>
          Sweep(pull, container, others, i) == Sweep(pull, start, target.value, 0)
        invariant transferred != 0 ==>
          SweepResult(container, others, transferred, i) == Sweep(pull, start, target.value, 0)
      {
        var m := pull(container, others[i]);
        container := m.vessel;
        others := others[i := m.other];
        transferred := transferred + m.count;
        i := i + 1;
      }
      ghost var pulled := SweepResult(container, others, transferred, i);
      ghost var afterPull := others;
      i := 0;
      while i < |others| && transferred == 0
        invariant i <= |others| == |target.value|
        invariant pulled.moved == 0 ==> transferred <= 0
        invariant pulled.moved == 0 ==> (transferred == 0 ==>
          Sweep(push, container, others, i) == Sweep(push, pulled.vessel, afterPull, 0))
        invariant pulled.moved == 0 ==> (transferred != 0 ==>
          SweepResult(container, others, -transferred, i) == Sweep(push, pulled.vessel, afterPull, 0))
        invariant pulled.moved != 0 ==>
          transferred == pulled.moved && container == pulled.vessel && others == afterPull
      {
        var m := push(container, others[i]);
        container := m.vessel;
        others := others[i := m.other];
        transferred := transferred - m.count;
        i := i + 1;
      }
      stored := Some(container);
      if transferred > 0 {
        return Success, others, false;
      } else if transferred < 0 {
        targetDirty := true;
      } else {
        return Pass, others, false;
      }
      r := Success;
    }
  }
}
