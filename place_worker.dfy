/** The placement rule for the wall-mounted battery: it must be built into a wall or
    rock edifice, face a walkable cell, and not share its cell with another one. The
    rules are tried in order and the first that fails decides the rejection. */
module PlaceWorker {
  import opened Wrappers
  import opened Grid

  /** The translation keys of the three rejections. */
  const OnSupportKey: string := "WMB.onsupport"
  const WalkableKey: string := "WMB.walkable"
  const ExistingKey: string := "WMB.existing"
  /** The definition name of the battery itself. */
  const BatteryDefName: string := "WallmountedBattery"

  /** Graphic link flags; those other than Rock and Wall are told apart by name only. */
  datatype LinkFlag = Rock | Wall | OtherLink(name: string)

  /** A graphic definition; the flag bitset is the set of flags it holds. */
  datatype GraphicData = GraphicData(linkFlags: set<LinkFlag>)

  datatype ThingDef = ThingDef(defName: string, graphicData: Option<GraphicData>)

  /** A thing on the map; its definition may be missing. */
  datatype Thing = Thing(def: Option<ThingDef>)

  /** The parts of the game map the rule looks at: the edifice of a cell, whether a
      cell is walkable, and the list of things in a cell (entries may be null). */
  datatype Map = Map(
    edifice: IntVec3 -> Option<Thing>,
    walkable: IntVec3 -> bool,
    thingList: IntVec3 -> seq<Option<Thing>>)

  datatype AcceptanceReport = Accepted | Rejected(key: string)

  /** A support the battery can hang on: an edifice whose graphic links as rock or wall. */
  predicate IsWallSupport(support: Option<Thing>)
  {
    support.Some? && support.value.def.Some? && support.value.def.value.graphicData.Some?
    && (Rock in support.value.def.value.graphicData.value.linkFlags
        || Wall in support.value.def.value.graphicData.value.linkFlags)
  }

  /** A non-null thing whose definition is the battery's. */
  predicate IsBattery(t: Option<Thing>)
  {
    t.Some? && t.value.def.Some? && t.value.def.value.defName == BatteryDefName
  }

  /** `thing?.def?.defName`: None wherever the chain meets a null. */
  function DefName(thing: Option<Thing>): Option<string>
  {
    match thing
    case None => None
    case Some(t) => if t.def.None? then None else Some(t.def.value.defName)
  }

  /** The search of the cell's thing list for a battery already there. */
  function ContainsBattery(things: seq<Option<Thing>>): (found: bool)
    ensures found <==> exists i :: 0 <= i < |things| && IsBattery(things[i])
  {
    if things == [] then false
    else if DefName(things[0]) != Some(BatteryDefName) then ContainsBattery(things[1..])
    else true
  }

  /** Whether a battery may be placed on `loc` with facing `rot`. */
  function AllowsPlacing(loc: IntVec3, rot: Rot4, m: Map): (report: AcceptanceReport)
    ensures m.edifice(loc).None? ==> report == Rejected(OnSupportKey)
    ensures m.edifice(loc).Some?
            && (m.edifice(loc).value.def.None? || m.edifice(loc).value.def.value.graphicData.None?)
            ==> report == Rejected(OnSupportKey)
    ensures m.edifice(loc).Some? && m.edifice(loc).value.def.Some?
            && m.edifice(loc).value.def.value.graphicData.Some?
            && Rock !in m.edifice(loc).value.def.value.graphicData.value.linkFlags
            && Wall !in m.edifice(loc).value.def.value.graphicData.value.linkFlags
            ==> report == Rejected(OnSupportKey)
    ensures report == Rejected(OnSupportKey) <==> !IsWallSupport(m.edifice(loc))
    ensures IsWallSupport(m.edifice(loc)) && !m.walkable(Facing(loc, rot))
            ==> report == Rejected(WalkableKey)
    ensures IsWallSupport(m.edifice(loc)) && m.walkable(Facing(loc, rot))
            ==> (report == Rejected(ExistingKey) <==>
                   exists i :: 0 <= i < |m.thingList(loc)| && IsBattery(m.thingList(loc)[i]))
    ensures report == Accepted <==>
              IsWallSupport(m.edifice(loc)) && m.walkable(Facing(loc, rot))
              && forall i :: 0 <= i < |m.thingList(loc)| ==> !IsBattery(m.thingList(loc)[i])
    ensures report.Rejected? ==> report.key in {OnSupportKey, WalkableKey, ExistingKey}
  {
    var support := m.edifice(loc);
    if support.None? then
      Rejected(OnSupportKey)
    else if support.value.def.None? || support.value.def.value.graphicData.None? then
      Rejected(OnSupportKey)
    else if support.value.def.value.graphicData.value.linkFlags * {Rock, Wall} == {} then
      var flags := support.value.def.value.graphicData.value.linkFlags;
      assert Rock !in flags && Wall !in flags by {
        assert Rock in flags ==> Rock in flags * {Rock, Wall};
        assert Wall in flags ==> Wall in flags * {Rock, Wall};
      }
      Rejected(OnSupportKey)
    else
      var c := Facing(loc, rot);
      if !m.walkable(c) then
        Rejected(WalkableKey)
      else if ContainsBattery(m.thingList(loc)) then
        Rejected(ExistingKey)
      else
        Accepted
  }

  /** A rejection for the support does not depend on the facing cell or on the things
      in the target cell. */
  lemma SupportRejectionIgnoresRest(loc: IntVec3, rot1: Rot4, rot2: Rot4, m1: Map, m2: Map)
    requires m1.edifice(loc) == m2.edifice(loc)
    requires !IsWallSupport(m1.edifice(loc))
    ensures AllowsPlacing(loc, rot1, m1) == AllowsPlacing(loc, rot2, m2) == Rejected(OnSupportKey)
  {
  }

  /** Walkability is checked before duplicates: with a good support, an unwalkable facing
      cell gives the walkability rejection whatever the target cell holds. */
  lemma WalkabilityBeforeDuplicates(loc: IntVec3, rot: Rot4, m: Map, k: nat)
    requires IsWallSupport(m.edifice(loc))
    requires !m.walkable(Facing(loc, rot))
    requires k < |m.thingList(loc)| && IsBattery(m.thingList(loc)[k])
    ensures AllowsPlacing(loc, rot, m) == Rejected(WalkableKey)
  {
  }

  /** The cell whose walkability is checked is the neighbour the battery faces. */
  lemma CheckedCellIsNeighbour(loc: IntVec3, rot: Rot4, m: Map)
    requires IsWallSupport(m.edifice(loc))
    ensures AllowsPlacing(loc, rot, m) != Rejected(WalkableKey) <==> m.walkable(Add(loc, rot.FacingCell()))
  {
  }
}
