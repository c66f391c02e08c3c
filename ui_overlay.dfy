/** The pure parts of the heads-up display: whether a building or the base
    upgrade is affordable, which buildings the build bar offers, and the
    width of the health bar. */
module UIOverlay {
  import opened GameTypes
  import opened Constants

  /** A building kind is affordable when it has a cost entry and each of wood,
      stone and gold covers the matching component. */
  function CanAfford(wood: int, stone: int, gold: int, kind: EntityKind): (ok: bool)
    ensures Cost(kind).None? ==> !ok
    ensures ok ==> wood >= Cost(kind).value.wood && stone >= Cost(kind).value.stone && gold >= Cost(kind).value.gold
    ensures Cost(kind).Some? ==>
      (wood >= Cost(kind).value.wood && stone >= Cost(kind).value.stone && gold >= Cost(kind).value.gold ==> ok)
  {
    match Cost(kind)
    case None => false
    case Some(c) => wood >= c.wood && stone >= c.stone && gold >= c.gold
  }

  /** More of every resource never makes an affordable building unaffordable. */
  lemma CanAffordMonotone(wood: int, stone: int, gold: int, wood': int, stone': int, gold': int, kind: EntityKind)
    requires CanAfford(wood, stone, gold, kind)
    requires wood <= wood' && stone <= stone' && gold <= gold'
    ensures CanAfford(wood', stone', gold', kind)
  {
  }

  /** Being able to afford anything at all needs non-negative resources. */
  lemma CanAffordNeedsNoDebt(wood: int, stone: int, gold: int, kind: EntityKind)
    requires CanAfford(wood, stone, gold, kind)
    ensures wood >= 0 && stone >= 0 && gold >= 0
  {
  }

  /** The base upgrade needs 200 wood, 100 stone and 150 gold. */
  function CanAffordUpgrade(wood: int, stone: int, gold: int): (ok: bool)
    ensures ok <==> wood >= 200 && stone >= 100 && gold >= 150
  {
    wood >= BaseLevel2Cost.wood && stone >= BaseLevel2Cost.stone && gold >= BaseLevel2Cost.gold
  }

  datatype BuildItem = BuildItem(kind: EntityKind, caption: string)

  /** The five buildings every world offers, in bar order. */
  const CommonBuildKinds: seq<EntityKind> := [Wall, Spike, Turret, GoldMine, Torch]

  /** The build bar: five buildings, and in world 2 the forcefield and the
      plasma turret after them. */
  function BuildItems(world: int): (items: seq<BuildItem>)
    ensures world != 2 ==> |items| == 5
    ensures world == 2 ==> |items| == 7 && items[5].kind == Forcefield && items[6].kind == PlasmaTurret
    ensures forall i | 0 <= i < 5 :: items[i].kind == CommonBuildKinds[i]
    ensures forall i | 0 <= i < |items| :: Cost(items[i].kind).Some?
  {
    var common := [
      BuildItem(Wall, "Wall"),
      BuildItem(Spike, "Spike"),
      BuildItem(Turret, "Turret"),
      BuildItem(GoldMine, "Mine"),
      BuildItem(Torch, "Torch")];
    if world == 2 then common + [BuildItem(Forcefield, "Field"), BuildItem(PlasmaTurret, "Plasma")]
    else common
  }

  /** The world-2 bar extends the world-1 bar. */
  lemma WorldTwoBarExtendsWorldOne()
    ensures BuildItems(2)[..5] == BuildItems(1)
  {
  }

  /** Clicking a build-bar item selects it, or clears the selection when it is
      the item already selected. */
  function Clicked(selected: Option<EntityKind>, kind: EntityKind): (r: Option<EntityKind>)
    ensures r.None? <==> selected == Some(kind)
    ensures r.Some? ==> r.value == kind
  {
    if selected == Some(kind) then None else Some(kind)
  }

  /** The health bar's width in percent, clamped to [0, 100]. */
  function HealthBarWidth(hp: real): (width: real)
    ensures 0.0 <= width <= 100.0
    ensures 0.0 <= hp <= 100.0 ==> width == hp
    ensures hp < 0.0 ==> width == 0.0
    ensures hp > 100.0 ==> width == 100.0
  {
    var capped := if 100.0 < hp then 100.0 else hp;
    if 0.0 < capped then capped else 0.0
  }
}
