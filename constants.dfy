/** The game's data tables: world and day-cycle constants, building costs,
    entity stats, and the crafting recipes with what each recipe's effect does
    to the player. */
module Constants {
  import opened GameTypes

  // Day cycle of world 1 and of the faster world 2, in ticks.
  const W1DayLength: nat := 24000
  const W1NightThreshold: nat := 16000
  const W2DayLength: nat := 14000
  const W2NightThreshold: nat := 7200

  /** In both worlds night starts strictly inside the day. */
  lemma DayCyclesWellFormed()
    ensures 0 < W1NightThreshold < W1DayLength
    ensures 0 < W2NightThreshold < W2DayLength
    ensures W2DayLength < W1DayLength && W2NightThreshold < W1NightThreshold
  {
  }

  /** A building price; every component of every table entry is given. */
  datatype Price = Price(wood: nat, stone: nat, gold: nat)

  /** The building cost table: only the buildable kinds have an entry, every
      building costs something, and the two world-2 buildings cost gold. */
  function Cost(kind: EntityKind): (c: Option<Price>)
    ensures c.Some? <==>
      kind.Wall? || kind.Turret? || kind.Bot? || kind.Spike? || kind.GoldMine? || kind.Torch? ||
      kind.Forcefield? || kind.PlasmaTurret?
    ensures c.Some? ==> c.value.wood + c.value.stone + c.value.gold > 0
    ensures kind.Forcefield? || kind.PlasmaTurret? ==> c.value.gold > 0
  {
    match kind
    case Wall => Some(Price(10, 0, 0))
    case Turret => Some(Price(50, 20, 0))
    case Bot => Some(Price(0, 0, 100))
    case Spike => Some(Price(25, 5, 0))
    case GoldMine => Some(Price(150, 50, 0))
    case Torch => Some(Price(15, 0, 0))
    case Forcefield => Some(Price(0, 50, 200))
    case PlasmaTurret => Some(Price(50, 50, 300))
    case _ => None
  }

  /** The price of the level-2 base upgrade. */
  const BaseLevel2Cost := Price(200, 100, 150)

  /** A table price as a recipe cost, every building component present. */
  function AsRecipeCost(p: Price): (c: RecipeCost)
    ensures c.wood == Some(p.wood) && c.stone == Some(p.stone) && c.gold == Some(p.gold)
    ensures c.food.None?
  {
    RecipeCost(Some(p.wood), Some(p.stone), Some(p.gold), None)
  }

  /** One row of the entity stat table; a field the row leaves out is None. */
  datatype Stats = Stats(
    hp: Option<nat>,
    size: nat,
    damage: Option<nat>,
    speed: Option<real>,
    range: Option<nat>,
    fireRate: Option<nat>,
    resource: Option<nat>)

  /** The entity stat table: only projectiles lack health, only the two
      turrets have a range and a fire rate, only trees and rocks yield a
      resource, and the bot is the only buildable kind that moves. */
  function StatsOf(kind: EntityKind): (st: Stats)
    ensures st.size > 0
    ensures st.hp.None? <==> kind.Projectile?
    ensures st.range.Some? <==> kind.Turret? || kind.PlasmaTurret?
    ensures st.fireRate.Some? <==> st.range.Some?
    ensures st.resource.Some? <==> kind.Tree? || kind.Rock?
    ensures st.speed.Some? && Cost(kind).Some? ==> kind.Bot?
  {
    match kind
    case Player => Stats(Some(100), 16, None, Some(4.0), None, None, None)
    case Zombie => Stats(Some(30), 16, Some(5), Some(2.5), None, None, None)
    case Boss => Stats(Some(300), 32, Some(20), Some(2.0), None, None, None)
    case Bot => Stats(Some(50), 12, Some(2), Some(3.0), None, None, None)
    case Tree => Stats(Some(50), 24, None, None, None, None, Some(10))
    case Rock => Stats(Some(80), 20, None, None, None, None, Some(10))
    case Wall => Stats(Some(200), 32, None, None, None, None, None)
    case Turret => Stats(Some(100), 32, Some(15), None, Some(250), Some(30), None)
    case Base => Stats(Some(1000), 48, None, None, None, None, None)
    case Projectile => Stats(None, 4, None, Some(10.0), None, None, None)
    case Animal => Stats(Some(20), 16, None, Some(3.0), None, None, None)
    case Spike => Stats(Some(50), 24, Some(10), None, None, None, None)
    case GoldMine => Stats(Some(300), 40, None, None, None, None, None)
    case Torch => Stats(Some(10), 16, None, None, None, None, None)
    case Forcefield => Stats(Some(1000), 32, None, None, None, None, None)
    case PlasmaTurret => Stats(Some(300), 32, Some(30), None, Some(350), Some(15), None)
  }

  /** Every kind with a building cost has a health value to be built with. */
  lemma BuildableKindsHaveHealth(kind: EntityKind)
    requires Cost(kind).Some?
    ensures StatsOf(kind).hp.Some? && StatsOf(kind).hp.value > 0
  {
  }

  // ---------------------------------------------------------------------------
  // Recipe effects, on a value view of the player

  /** The potion heals by `amount` but never above the maximum health. */
  function Healed(s: PlayerSnapshot, amount: nat): (r: PlayerSnapshot)
    ensures r.hp <= r.maxHp
    ensures r.hp <= s.hp + amount
    ensures r.hp == s.hp + amount || r.hp == s.maxHp
    ensures s.hp <= s.maxHp ==> s.hp <= r.hp
    ensures r == s.(hp := r.hp)
  {
    s.(hp := if s.hp + amount < s.maxHp then s.hp + amount else s.maxHp)
  }

  /** A weapon step sets the tier and adds its bonus to the damage. */
  function Armed(s: PlayerSnapshot, tier: nat, bonus: nat): (r: PlayerSnapshot)
    ensures r.weaponTier == tier
    ensures r.damage - s.damage == bonus
    ensures r == s.(damage := r.damage, weaponTier := r.weaponTier)
  {
    s.(damage := s.damage + bonus, weaponTier := tier)
  }

  /** The mining multiplier grows by a fifth; an unset (zero) multiplier counts as 1. */
  const PickaxeStep: real := 0.2

  function Sharpened(s: PlayerSnapshot): (r: PlayerSnapshot)
    ensures r.miningMultiplier > s.miningMultiplier
    ensures s.miningMultiplier >= 1.0 ==> r.miningMultiplier >= 1.0 + PickaxeStep
    ensures s.miningMultiplier == 0.0 ==> r.miningMultiplier == 1.0 + PickaxeStep
    ensures r == s.(miningMultiplier := r.miningMultiplier)
  {
    s.(miningMultiplier := (if s.miningMultiplier == 0.0 then 1.0 else s.miningMultiplier) + PickaxeStep)
  }

  /** Armour raises maximum and current health together. */
  function Armoured(s: PlayerSnapshot, amount: nat): (r: PlayerSnapshot)
    ensures r.maxHp == s.maxHp + amount
    ensures r.maxHp - r.hp == s.maxHp - s.hp
    ensures s.hp <= s.maxHp ==> r.hp <= r.maxHp
    ensures r == s.(hp := r.hp, maxHp := r.maxHp)
  {
    s.(maxHp := s.maxHp + amount, hp := s.hp + amount)
  }

  /** What a recipe effect does to the player; no effect touches the resources. */
  function Effected(e: Effect, s: PlayerSnapshot): (r: PlayerSnapshot)
    ensures r.purse == s.purse
    ensures s.hp <= s.maxHp ==> r.hp <= r.maxHp
    ensures r.weaponTier != s.weaponTier ==> e.RaiseWeapon? && r.weaponTier == e.tier
  {
    match e
    case Heal(amount) => Healed(s, amount)
    case RaiseWeapon(tier, bonus) => Armed(s, tier, bonus)
    case SharpenPickaxe => Sharpened(s)
    case RaiseMaxHp(amount) => Armoured(s, amount)
  }

  /** A recipe effect, assigning the player's fields in place. */
  method ApplyEffect(p: PlayerState, e: Effect)
    modifies p
    ensures p.Snapshot() == Effected(e, old(p.Snapshot()))
  {
    match e
    case Heal(amount) =>
      p.hp := if p.hp + amount < p.maxHp then p.hp + amount else p.maxHp;
    case RaiseWeapon(tier, bonus) =>
      p.damage := p.damage + bonus;
      p.weaponTier := tier;
    case SharpenPickaxe =>
      p.miningMultiplier := (if p.miningMultiplier == 0.0 then 1.0 else p.miningMultiplier) + PickaxeStep;
    case RaiseMaxHp(amount) =>
      p.maxHp := p.maxHp + amount;
      p.hp := p.hp + amount;
  }

  // ---------------------------------------------------------------------------
  // The crafting recipes

  const HealPotion := Recipe("heal_potion", "Small Potion", Item, "Heals 30 HP",
    RecipeCost(None, None, None, Some(20)), Some(Heal(30)), None, None, None)
  const IronMace := Recipe("weapon_t1", "Iron Mace", Upgrade, "+10 Damage",
    RecipeCost(Some(50), Some(50), None, None), Some(RaiseWeapon(1, 10)), None, Some(0), None)
  const GoldenHammer := Recipe("weapon_t2", "Golden Hammer", Upgrade, "+20 Damage",
    RecipeCost(Some(100), Some(100), Some(50), None), Some(RaiseWeapon(2, 20)), None, Some(1), None)
  const DiamondSword := Recipe("weapon_t3", "Diamond Sword", Upgrade, "+30 Damage",
    RecipeCost(Some(100), Some(100), Some(250), None), Some(RaiseWeapon(3, 30)), None, Some(2), None)
  const PlasmaRifle := Recipe("weapon_t4", "Plasma Rifle", Upgrade, "World 2 Weapon (+50 Dmg)",
    RecipeCost(Some(200), Some(200), Some(500), None), Some(RaiseWeapon(4, 50)), None, Some(3), Some(2))
  const PickaxeUpgrade := Recipe("tool_pickaxe", "Pickaxe Upgrade", Upgrade, "+20% Mining Speed",
    RecipeCost(Some(100), Some(50), None, None), Some(SharpenPickaxe), None, None, None)
  const LeatherArmor := Recipe("armor_t1", "Leather Armor", Upgrade, "+50 Max HP",
    RecipeCost(Some(20), None, None, Some(50)), Some(RaiseMaxHp(50)), None, None, None)
  const SpikeTrap := Recipe("spike_trap", "Spike Trap", Build, "Hurts enemies stepping on it",
    AsRecipeCost(Cost(Spike).value), None, Some(Spike), None, None)
  const TorchRecipe := Recipe("torch", "Torch", Build, "Provides light at night",
    AsRecipeCost(Cost(Torch).value), None, Some(Torch), None, None)
  const GoldMineRecipe := Recipe("gold_mine", "Gold Mine", Build, "Generates Gold over time",
    AsRecipeCost(Cost(GoldMine).value), None, Some(GoldMine), None, None)
  const ForcefieldRecipe := Recipe("forcefield", "Forcefield", Build, "World 2: Strong Energy Wall",
    AsRecipeCost(Cost(Forcefield).value), None, Some(Forcefield), None, Some(2))
  const PlasmaTurretRecipe := Recipe("plasma_turret", "Plasma Turret", Build, "World 2: High Dmg Turret",
    AsRecipeCost(Cost(PlasmaTurret).value), None, Some(PlasmaTurret), None, Some(2))

  const CraftingRecipes: seq<Recipe> := [
    HealPotion, IronMace, GoldenHammer, DiamondSword, PlasmaRifle, PickaxeUpgrade, LeatherArmor,
    SpikeTrap, TorchRecipe, GoldMineRecipe, ForcefieldRecipe, PlasmaTurretRecipe]

  /** The four weapon recipes, in tier order. */
  const WeaponChain: seq<Recipe> := [IronMace, GoldenHammer, DiamondSword, PlasmaRifle]

  /** A building recipe has no effect, names a buildable kind, and costs
      exactly that kind's entry in the building cost table; any other recipe
      has an effect and builds nothing. */
  predicate WellFormedRecipe(r: Recipe) {
    if r.kind == Build then
      r.effect.None? && r.entityType.Some? && Cost(r.entityType.value).Some? &&
      r.cost == AsRecipeCost(Cost(r.entityType.value).value)
    else
      r.effect.Some? && r.entityType.None?
  }

  lemma RecipesWellFormed()
    ensures forall i | 0 <= i < |CraftingRecipes| :: WellFormedRecipe(CraftingRecipes[i])
  {
    forall i | 0 <= i < |CraftingRecipes| ensures WellFormedRecipe(CraftingRecipes[i]) {
      RecipeWellFormed(i);
    }
  }

  lemma RecipeWellFormed(i: nat)
    requires i < |CraftingRecipes|
    ensures WellFormedRecipe(CraftingRecipes[i])
  {
    if i == 0 { assert CraftingRecipes[i] == HealPotion; }
    else if i == 1 { assert CraftingRecipes[i] == IronMace; }
    else if i == 2 { assert CraftingRecipes[i] == GoldenHammer; }
    else if i == 3 { assert CraftingRecipes[i] == DiamondSword; }
    else if i == 4 { assert CraftingRecipes[i] == PlasmaRifle; }
    else if i == 5 { assert CraftingRecipes[i] == PickaxeUpgrade; }
    else if i == 6 { assert CraftingRecipes[i] == LeatherArmor; }
    else if i == 7 { assert CraftingRecipes[i] == SpikeTrap; }
    else if i == 8 { assert CraftingRecipes[i] == TorchRecipe; }
    else if i == 9 { assert CraftingRecipes[i] == GoldMineRecipe; }
    else if i == 10 { assert CraftingRecipes[i] == ForcefieldRecipe; }
    else { assert CraftingRecipes[i] == PlasmaTurretRecipe; }
  }

  /** Exactly the tier-4 weapon and the two world-2 buildings are tagged for world 2,
      and no recipe is tagged for any other world. */
  lemma WorldTwoContentTagged()
    ensures forall i | 0 <= i < |CraftingRecipes| ::
      CraftingRecipes[i].reqWorld == Some(2) <==>
        CraftingRecipes[i].id == "weapon_t4" || CraftingRecipes[i].id == "forcefield" || CraftingRecipes[i].id == "plasma_turret"
    ensures forall i | 0 <= i < |CraftingRecipes| :: CraftingRecipes[i].reqWorld.None? || CraftingRecipes[i].reqWorld == Some(2)
  {
    forall i | 0 <= i < |CraftingRecipes|
      ensures CraftingRecipes[i].reqWorld == Some(2) <==>
        CraftingRecipes[i].id == "weapon_t4" || CraftingRecipes[i].id == "forcefield" || CraftingRecipes[i].id == "plasma_turret"
      ensures CraftingRecipes[i].reqWorld.None? || CraftingRecipes[i].reqWorld == Some(2)
    {
      WorldTagAt(i);
    }
  }

  lemma WorldTagAt(i: nat)
    requires i < |CraftingRecipes|
    ensures CraftingRecipes[i].reqWorld == Some(2) <==>
      CraftingRecipes[i].id == "weapon_t4" || CraftingRecipes[i].id == "forcefield" || CraftingRecipes[i].id == "plasma_turret"
    ensures CraftingRecipes[i].reqWorld.None? || CraftingRecipes[i].reqWorld == Some(2)
  {
    if i == 0 { assert CraftingRecipes[i] == HealPotion; }
    else if i == 1 { assert CraftingRecipes[i] == IronMace; }
    else if i == 2 { assert CraftingRecipes[i] == GoldenHammer; }
    else if i == 3 { assert CraftingRecipes[i] == DiamondSword; }
    else if i == 4 { assert CraftingRecipes[i] == PlasmaRifle; }
    else if i == 5 { assert CraftingRecipes[i] == PickaxeUpgrade; }
    else if i == 6 { assert CraftingRecipes[i] == LeatherArmor; }
    else if i == 7 { assert CraftingRecipes[i] == SpikeTrap; }
    else if i == 8 { assert CraftingRecipes[i] == TorchRecipe; }
    else if i == 9 { assert CraftingRecipes[i] == GoldMineRecipe; }
    else if i == 10 { assert CraftingRecipes[i] == ForcefieldRecipe; }
    else { assert CraftingRecipes[i] == PlasmaTurretRecipe; }
  }

  /** The table holds twelve recipes with pairwise distinct ids, in the
      order the crafting menu lists them: the potion, the four weapons, the
      pickaxe, the armour, then the five buildings. */
  lemma RecipeTableShape()
    ensures |CraftingRecipes| == 12
    ensures forall i, j | 0 <= i < j < |CraftingRecipes| :: CraftingRecipes[i].id != CraftingRecipes[j].id
    ensures forall i | 0 <= i < |CraftingRecipes| :: (CraftingRecipes[i].kind == Build <==> 7 <= i)
    ensures CraftingRecipes[1..5] == WeaponChain
  {
  }

  /** Each weapon recipe in the table requires exactly the tier below the one it grants. */
  lemma WeaponTiersConsecutive()
    ensures forall r | r in CraftingRecipes && r.effect.Some? && r.effect.value.RaiseWeapon? ::
      r.reqTier.Some? && r.reqTier.value + 1 == r.effect.value.tier
    ensures forall r | r in CraftingRecipes && r.reqTier.Some? :: r in WeaponChain
  {
  }

  /** What a recipe's tags declare. The tier tag is read as an exact match:
      the recipe type documents it only as the tag for sequential upgrades, and
      the gate itself is applied by the crafting menu, which is not part of this
      model. Every property proved below also holds when it is read as a
      lower bound. The world gate must match. */
  predicate Unlocked(r: Recipe, weaponTier: int, world: int) {
    (r.reqTier.None? || r.reqTier.value == weaponTier) &&
    (r.reqWorld.None? || r.reqWorld.value == world)
  }

  /** The effects of a list of recipes applied in order (costs are not charged here). */
  function CraftedAll(s: PlayerSnapshot, rs: seq<Recipe>): PlayerSnapshot
    decreases |rs|
  {
    if rs == [] then s
    else
      var next := if rs[0].effect.Some? then Effected(rs[0].effect.value, s) else s;
      CraftedAll(next, rs[1..])
  }

  /** Every recipe of the list is unlocked at the tier reached just before it. */
  predicate UnlockedInOrder(s: PlayerSnapshot, rs: seq<Recipe>, world: int)
    decreases |rs|
  {
    rs == [] ||
    (Unlocked(rs[0], s.weaponTier, world) &&
     UnlockedInOrder(if rs[0].effect.Some? then Effected(rs[0].effect.value, s) else s, rs[1..], world))
  }

  /** From tier 0 in world 2 the four weapons can be crafted one after the other;
      the player ends at tier 4 with 110 more damage and nothing else changed. */
  lemma WeaponChainFromTierZero(s: PlayerSnapshot)
    requires s.weaponTier == 0
    ensures UnlockedInOrder(s, WeaponChain, 2)
    ensures CraftedAll(s, WeaponChain) == s.(weaponTier := 4, damage := s.damage + 110)
  {
    var s1 := Armed(s, 1, 10);
    var s2 := Armed(s1, 2, 20);
    var s3 := Armed(s2, 3, 30);
    var s4 := Armed(s3, 4, 50);
    assert WeaponChain[1..] == [GoldenHammer, DiamondSword, PlasmaRifle];
    assert WeaponChain[2..] == [DiamondSword, PlasmaRifle];
    assert WeaponChain[3..] == [PlasmaRifle];
    assert UnlockedInOrder(s3, [PlasmaRifle], 2);
    assert UnlockedInOrder(s2, WeaponChain[2..], 2);
    assert UnlockedInOrder(s1, WeaponChain[1..], 2);
    assert CraftedAll(s3, WeaponChain[3..]) == s4;
    assert CraftedAll(s2, WeaponChain[2..]) == s4;
    assert CraftedAll(s1, WeaponChain[1..]) == s4;
  }

  /** The second weapon cannot be unlocked at tier 0, and the world-2 weapon not in world 1. */
  lemma TierGateExamples(s: PlayerSnapshot, world: int)
    ensures !Unlocked(GoldenHammer, 0, world)
    ensures Unlocked(GoldenHammer, CraftedAll(s.(weaponTier := 0), [IronMace]).weaponTier, world)
    ensures !Unlocked(PlasmaRifle, 3, 1)
  {
    assert [IronMace][1..] == [];
  }
}
