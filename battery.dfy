/** The wall-mounted battery building: a wick that fire damage may light, which counts
    down one step per game tick and then sets off a small fire explosion and drains
    energy from the battery. Only the countdown is saved with the game. */
module Battery {
  import opened Wrappers
  import opened Grid

  /** Stored energy above which fire damage can light the wick. */
  const MinEnergyToExplode: real := 250.0
  /** Energy drawn from the battery when the wick burns out. */
  const EnergyToLoseWhenExplode: real := 200.0
  /** Chance per fire-damage event that the wick lights. */
  const ExplodeChancePerDamage: real := 0.05
  /** Range of the wick length in ticks, drawn as Rand.Range(70, 150): upper bound exclusive. */
  const MinWickTicks: int := 70
  const MaxWickTicks: int := 150
  /** The explosion radius is a draw in [0.5, 1] scaled by this factor. */
  const ExplosionRadiusFactor: real := 1.5
  /** The key under which the countdown is saved. */
  const SaveKey: string := "ticksToExplode"

  /** A damage type, identified by its definition name. */
  datatype DamageDef = DamageDef(defName: string)

  const Flame: DamageDef := DamageDef("Flame")

  datatype DamageInfo = DamageInfo(def: DamageDef, amount: real)

  /** A running looping hiss sound, by the number of per-tick Maintain calls it has had. */
  datatype Sustainer = Sustainer(maintained: nat) {

    function Maintained(): Sustainer
    {
      Sustainer(maintained + 1)
    }
  }

  /** A sustainer as it is first spawned. */
  const FreshSustainer: Sustainer := Sustainer(0)

  /** The wick's runtime state: the countdown (0 dormant, positive armed) and the
      optional sound handle. */
  datatype Wick = Wick(ticksToExplode: int, wickSustainer: Option<Sustainer>) {

    predicate Armed()
    {
      ticksToExplode > 0
    }
  }

  /** The state after one tick and whether that tick set off the explosion. */
  datatype TickResult = TickResult(wick: Wick, explodes: bool)

  /** One game tick of the wick. */
  function TickWick(w: Wick): (r: TickResult)
    ensures !w.Armed() ==> r.wick == w && !r.explodes
    ensures w.Armed() ==> r.wick.ticksToExplode == w.ticksToExplode - 1
    ensures w.Armed() ==> r.wick.wickSustainer.Some?
    ensures w.Armed() && w.wickSustainer.None? ==> r.wick.wickSustainer == Some(FreshSustainer)
    ensures w.Armed() && w.wickSustainer.Some? ==>
              r.wick.wickSustainer.value.maintained == w.wickSustainer.value.maintained + 1
    ensures r.explodes <==> w.ticksToExplode == 1
    ensures w.ticksToExplode >= 0 ==> r.wick.ticksToExplode >= 0
  {
    if w.ticksToExplode <= 0 then
      TickResult(w, false)
    else
      var s := if w.wickSustainer.None? then FreshSustainer else w.wickSustainer.value.Maintained();
      var t := w.ticksToExplode - 1;
      TickResult(Wick(t, Some(s)), t == 0)
  }

  /** The wick after a damage event. `destroyed` and `storedEnergy` are the host's state
      at the time of the call, `chance` the Rand.Value draw and `ticksDraw` the
      Rand.Range(70, 150) draw. */
  function ApplyDamage(w: Wick, destroyed: bool, damage: DamageDef, chance: real,
                       storedEnergy: real, ticksDraw: int): (r: Wick)
    requires MinWickTicks <= ticksDraw < MaxWickTicks
    ensures destroyed ==> r == w
    ensures w.ticksToExplode != 0 ==> r == w
    ensures damage != Flame ==> r == w
    ensures chance >= ExplodeChancePerDamage ==> r == w
    ensures storedEnergy <= MinEnergyToExplode ==> r == w
    ensures r != w ==> r.Armed() && MinWickTicks <= r.ticksToExplode < MaxWickTicks
                       && r.wickSustainer == Some(FreshSustainer)
    ensures r.ticksToExplode != w.ticksToExplode <==>
              !destroyed && !w.Armed() && w.ticksToExplode >= 0 && damage == Flame
              && chance < ExplodeChancePerDamage && storedEnergy > MinEnergyToExplode
    ensures w.ticksToExplode >= 0 ==> r.ticksToExplode >= 0
  {
    if destroyed || w.ticksToExplode != 0 || damage != Flame
       || !(chance < ExplodeChancePerDamage) || !(storedEnergy > MinEnergyToExplode)
    then w
    else Wick(ticksDraw, Some(FreshSustainer))
  }

  /** The explosion radius for a Rand.Range(0.5, 1) draw. */
  function ExplosionRadius(draw: real): (radius: real)
    requires 0.5 <= draw <= 1.0
    ensures 0.75 <= radius <= 1.5
  {
    draw * ExplosionRadiusFactor
  }

  /** The explosion centre as the source computes it: the facing's one-cell offset,
      which does not depend on where the battery stands. */
  function ExplosionCenterAsWritten(position: IntVec3, rotation: Rot4): (c: IntVec3)
    ensures c.y == 0 && Abs(c.x) + Abs(c.z) == 1
  {
    rotation.FacingCell()
  }

  /** The explosion centre as intended: the cell the battery faces, next to it. */
  function ExplosionCenter(position: IntVec3, rotation: Rot4): (c: IntVec3)
    ensures c.y == position.y && Abs(c.x - position.x) + Abs(c.z - position.z) == 1
    ensures c == Facing(position, rotation)
  {
    Add(position, rotation.FacingCell())
  }

  /** The source's centre is the intended one only for a battery at the map origin. */
  lemma AsWrittenCenterMissesFacingCell(position: IntVec3, rotation: Rot4)
    ensures ExplosionCenterAsWritten(position, rotation) == ExplosionCenter(position, rotation)
            <==> position == IntVec3(0, 0, 0)
    ensures ExplosionCenterAsWritten(IntVec3(10, 0, 10), North) == IntVec3(0, 0, 1)
    ensures ExplosionCenter(IntVec3(10, 0, 10), North) == IntVec3(10, 0, 11)
  {
  }

  /** The wick after `n` ticks. */
  function RunTicks(w: Wick, n: nat): Wick
    decreases n
  {
    if n == 0 then w else RunTicks(TickWick(w).wick, n - 1)
  }

  /** The number of explosions during `n` ticks from `w`. */
  function ExplosionsDuring(w: Wick, n: nat): nat
    decreases n
  {
    if n == 0 then 0
    else (if TickWick(w).explodes then 1 else 0) + ExplosionsDuring(TickWick(w).wick, n - 1)
  }

  /** A wick that is not armed stays as it is, and nothing explodes. */
  lemma {:induction false} DormantIsStable(w: Wick, n: nat)
    requires !w.Armed()
    ensures RunTicks(w, n) == w
    ensures ExplosionsDuring(w, n) == 0
    decreases n
  {
    if n > 0 {
      DormantIsStable(TickWick(w).wick, n - 1);
    }
  }

  /** From an armed countdown N the counter drops by one per tick down to 0, the one
      explosion comes on tick N, and nothing more happens afterwards. */
  lemma {:induction false} CountdownExplodesOnce(w: Wick, n: nat)
    requires w.Armed()
    ensures RunTicks(w, n).ticksToExplode == if n < w.ticksToExplode then w.ticksToExplode - n else 0
    ensures ExplosionsDuring(w, n) == if n < w.ticksToExplode then 0 else 1
    decreases n
  {
    if n > 0 {
      var next := TickWick(w).wick;
      if next.Armed() {
        CountdownExplodesOnce(next, n - 1);
      } else {
        DormantIsStable(next, n - 1);
      }
    }
  }

  /** Exactly N ticks pass before the explosion: none in the first N - 1, and the N-th
      tick sets it off. */
  lemma ExplodesOnTickN(w: Wick)
    requires w.Armed()
    ensures ExplosionsDuring(w, w.ticksToExplode - 1) == 0
    ensures TickWick(RunTicks(w, w.ticksToExplode - 1)).explodes
  {
    CountdownExplodesOnce(w, w.ticksToExplode - 1);
  }

  /** The countdown and its explosions depend on the counter alone, not on the sound handle. */
  lemma {:induction false} CountdownIgnoresSustainer(w1: Wick, w2: Wick, n: nat)
    requires w1.ticksToExplode == w2.ticksToExplode
    ensures RunTicks(w1, n).ticksToExplode == RunTicks(w2, n).ticksToExplode
    ensures ExplosionsDuring(w1, n) == ExplosionsDuring(w2, n)
    decreases n
  {
    if n > 0 {
      CountdownIgnoresSustainer(TickWick(w1).wick, TickWick(w2).wick, n - 1);
    }
  }

  /** A lit wick burns down in exactly the drawn number of ticks with one explosion,
      and leaves the battery dormant, so that fire damage can light it again. */
  lemma ArmingCycle(w: Wick, destroyed: bool, damage: DamageDef, chance: real,
                    storedEnergy: real, ticksDraw: int)
    requires MinWickTicks <= ticksDraw < MaxWickTicks
    requires ApplyDamage(w, destroyed, damage, chance, storedEnergy, ticksDraw) != w
    ensures ExplosionsDuring(ApplyDamage(w, destroyed, damage, chance, storedEnergy, ticksDraw), ticksDraw) == 1
    ensures ExplosionsDuring(ApplyDamage(w, destroyed, damage, chance, storedEnergy, ticksDraw), ticksDraw - 1) == 0
    ensures RunTicks(ApplyDamage(w, destroyed, damage, chance, storedEnergy, ticksDraw), ticksDraw).ticksToExplode == 0
  {
    var armed := ApplyDamage(w, destroyed, damage, chance, storedEnergy, ticksDraw);
    CountdownExplodesOnce(armed, ticksDraw);
    CountdownExplodesOnce(armed, ticksDraw - 1);
  }

  /** The saved record of a countdown. A value equal to the default 0 is not written. */
  function SaveTicks(ticks: int): (record: map<string, int>)
    ensures LoadTicks(record) == ticks
    ensures SaveKey in record <==> ticks != 0
    ensures record.Keys <= {SaveKey}
  {
    if ticks == 0 then map[] else map[SaveKey := ticks]
  }

  /** The countdown loaded from a saved record; a missing key loads the default 0. */
  function LoadTicks(record: map<string, int>): int
  {
    if SaveKey in record then record[SaveKey] else 0
  }

  /** The wick of a building loaded from a saved record: no sound handle yet. */
  function Restored(record: map<string, int>): Wick
  {
    Wick(LoadTicks(record), None)
  }

  /** Saving and loading keeps the countdown and drops the handle; the first armed tick
      after loading starts a new handle, and the countdown runs on as before. */
  lemma SaveLoadRoundTrip(w: Wick)
    ensures Restored(SaveTicks(w.ticksToExplode)).ticksToExplode == w.ticksToExplode
    ensures Restored(SaveTicks(w.ticksToExplode)).wickSustainer.None?
    ensures w.Armed() ==>
              TickWick(Restored(SaveTicks(w.ticksToExplode))).wick.wickSustainer == Some(FreshSustainer)
    ensures forall n: nat ::
              RunTicks(Restored(SaveTicks(w.ticksToExplode)), n).ticksToExplode == RunTicks(w, n).ticksToExplode
              && ExplosionsDuring(Restored(SaveTicks(w.ticksToExplode)), n) == ExplosionsDuring(w, n)
  {
    var r := Restored(SaveTicks(w.ticksToExplode));
    forall n: nat
      ensures RunTicks(r, n).ticksToExplode == RunTicks(w, n).ticksToExplode
      ensures ExplosionsDuring(r, n) == ExplosionsDuring(w, n)
    {
      CountdownIgnoresSustainer(r, w, n);
    }
  }

  /** What the building does to the world outside itself. */
  datatype Effect =
    | Exploded(center: IntVec3, radius: real, damage: DamageDef)
    | DrewPower(amount: real)

  /** The building. `effects` records, in order, the explosions it set off and the
      DrawPower requests it made on its power component. */
  class WallmountedBattery {
    const position: IntVec3
    const rotation: Rot4
    var ticksToExplode: int
    var wickSustainer: Option<Sustainer>
    var effects: seq<Effect>

    /** The countdown never goes negative. */
    ghost predicate Valid()
      reads this
    {
      ticksToExplode >= 0
    }

    function State(): Wick
      reads this
    {
      Wick(ticksToExplode, wickSustainer)
    }

    /** A newly built battery: dormant, no sound. */
    constructor (position: IntVec3, rotation: Rot4)
      ensures this.position == position && this.rotation == rotation
      ensures State() == Wick(0, None) && effects == []
      ensures Valid()
    {
      this.position := position;
      this.rotation := rotation;
      ticksToExplode := 0;
      wickSustainer := None;
      effects := [];
    }

    /** A battery loaded from a saved game. */
    constructor Restore(record: map<string, int>, position: IntVec3, rotation: Rot4)
      ensures this.position == position && this.rotation == rotation
      ensures State() == Restored(record) && effects == []
      ensures Valid() <==> LoadTicks(record) >= 0
    {
      this.position := position;
      this.rotation := rotation;
      ticksToExplode := LoadTicks(record);
      wickSustainer := None;
      effects := [];
    }

    /** The record written when the game is saved. */
    method Save() returns (record: map<string, int>)
      ensures record == SaveTicks(ticksToExplode)
    {
      if ticksToExplode != 0 {
        record := map[SaveKey := ticksToExplode];
      } else {
        record := map[];
      }
    }

    method StartWickSustainer()
      modifies this`wickSustainer
      ensures wickSustainer == Some(FreshSustainer)
    {
      wickSustainer := Some(FreshSustainer);
    }

    /** One game tick. `radiusDraw` is the Rand.Range(0.5, 1) draw for the explosion. */
    method Tick(radiusDraw: real)
      requires 0.5 <= radiusDraw <= 1.0
      modifies this
      ensures State() == TickWick(old(State())).wick
      ensures effects == old(effects) +
                (if TickWick(old(State())).explodes
                 then [Exploded(ExplosionCenter(position, rotation), ExplosionRadius(radiusDraw), Flame),
                       DrewPower(EnergyToLoseWhenExplode)]
                 else [])
      ensures old(Valid()) ==> Valid()
    {
      if ticksToExplode <= 0 {
        return;
      }
      if wickSustainer.None? {
        StartWickSustainer();
      } else {
        wickSustainer := Some(wickSustainer.value.Maintained());
      }
      ticksToExplode := ticksToExplode - 1;
      if ticksToExplode != 0 {
        return;
      }
      var radius := ExplosionRadius(radiusDraw);
      effects := effects + [Exploded(ExplosionCenter(position, rotation), radius, Flame)];
      effects := effects + [DrewPower(EnergyToLoseWhenExplode)];
    }

    /** The reaction to a damage event. `destroyed` and `storedEnergy` are the host's
        state, `chance` the Rand.Value draw, `ticksDraw` the Rand.Range(70, 150) draw. */
    method PostApplyDamage(dinfo: DamageInfo, destroyed: bool, chance: real,
                           storedEnergy: real, ticksDraw: int)
      requires MinWickTicks <= ticksDraw < MaxWickTicks
      modifies this
      ensures State() == ApplyDamage(old(State()), destroyed, dinfo.def, chance, storedEnergy, ticksDraw)
      ensures effects == old(effects)
      ensures old(Valid()) ==> Valid()
    {
      if destroyed || ticksToExplode != 0 || dinfo.def != Flame
         || !(chance < ExplodeChancePerDamage) || !(storedEnergy > MinEnergyToExplode) {
        return;
      }
      ticksToExplode := ticksDraw;
      StartWickSustainer();
    }
  }
}
