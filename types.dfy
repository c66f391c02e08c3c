/** The game's shared data model: entity kinds, weather, recipes, the player
    and the live game state. Only the parts that the economy, input and
    progression layer reads or writes are kept. */
module GameTypes {

  datatype Option<+T> = None | Some(value: T) {
    function GetOr(default: T): T {
      if Some? then value else default
    }
  }

  datatype EntityKind =
    | Player | Zombie | Bot | Tree | Rock | Wall | Turret | Base | Projectile
    | Animal | Spike | GoldMine | Boss | Torch
    | Forcefield | PlasmaTurret  // world 2 only

  datatype WeatherKind = Clear | Rain | Fog | Storm | Snow

  datatype Vector2 = Vector2(x: real, y: real)

  datatype AnimState = Idle | Walk | Attack | Flee

  /** An entity as placed in the world. `id` is a counter value where the game
      draws a random string; colour and the engine-only timers are left out. */
  datatype Entity = Entity(
    id: nat,
    kind: EntityKind,
    pos: Vector2,
    size: nat,
    hp: int,
    maxHp: int,
    damage: int,
    speed: real,
    range: Option<nat>,
    fireRate: Option<nat>,
    facing: int,
    animState: AnimState,
    animFrame: nat)

  /** The player's spendable resources: the inventory (wood, stone, food) and gold. */
  datatype Purse = Purse(wood: int, stone: int, food: int, gold: int)

  /** A value view of the player's progression fields and resources. */
  datatype PlayerSnapshot = PlayerSnapshot(
    hp: int,
    maxHp: int,
    damage: int,
    weaponTier: int,
    miningMultiplier: real,
    purse: Purse)

  datatype RecipeKind = Upgrade | Item | Build

  /** A recipe cost: every component may be absent. */
  datatype RecipeCost = RecipeCost(wood: Option<nat>, stone: Option<nat>, gold: Option<nat>, food: Option<nat>)

  /** The closed set of recipe effects; the amounts come from the recipe table. */
  datatype Effect =
    | Heal(amount: nat)
    | RaiseWeapon(tier: nat, bonus: nat)
    | SharpenPickaxe
    | RaiseMaxHp(amount: nat)

  datatype Recipe = Recipe(
    id: string,
    name: string,
    kind: RecipeKind,
    description: string,
    cost: RecipeCost,
    effect: Option<Effect>,
    entityType: Option<EntityKind>,
    reqTier: Option<nat>,
    reqWorld: Option<nat>)

  datatype RespawnTask = RespawnTask(kind: EntityKind, timer: int)

  /** The player object, whose fields the recipe effects and the build and
      craft handlers assign in place. */
  class PlayerState {
    var hp: int
    var maxHp: int
    var damage: int
    var weaponTier: int
    var miningMultiplier: real
    var wood: int
    var stone: int
    var food: int
    var gold: int

    constructor (s: PlayerSnapshot)
      ensures Snapshot() == s
    {
      hp, maxHp, damage, weaponTier := s.hp, s.maxHp, s.damage, s.weaponTier;
      miningMultiplier := s.miningMultiplier;
      wood, stone, food, gold := s.purse.wood, s.purse.stone, s.purse.food, s.purse.gold;
    }

    function Snapshot(): PlayerSnapshot
      reads this
    {
      PlayerSnapshot(hp, maxHp, damage, weaponTier, miningMultiplier, Purse(wood, stone, food, gold))
    }
  }

  /** The live game state, the one object the engine tick produces. Movement,
      combat, the clock and the particle, projectile, river and lightning
      collections belong to the engine and are not kept. */
  class GameState {
    const player: PlayerState
    var entities: seq<Entity>
    var dayCount: int
    var gameOver: bool
    var weather: WeatherKind
    var world: int

    constructor (player: PlayerState, entities: seq<Entity>, dayCount: int, weather: WeatherKind, world: int)
      ensures this.player == player && this.entities == entities && this.dayCount == dayCount
      ensures this.weather == weather && this.world == world && !gameOver
    {
      this.player := player;
      this.entities := entities;
      this.dayCount := dayCount;
      this.gameOver := false;
      this.weather := weather;
      this.world := world;
    }
  }
}
