/** The game shell around the engine tick: keyboard steering, the per-tick
    input hand-off, the weather ambience cues, the best-score rule, building
    placement by tapping, and crafting. */
module App {
  import opened GameTypes
  import opened Constants
  import opened UIOverlay

  // ---------------------------------------------------------------------------
  // Keyboard direction

  /** The keys the handlers react to, already lower-cased; every other key is `Other`. */
  datatype Key = W | S | A | D | Space | Other

  /** The keyboard direction: x is -1 (left), 0 or 1 (right); y is -1 (up), 0 or 1 (down). */
  datatype Axes = Axes(x: int, y: int)

  datatype KeyEvent = Down(key: Key) | Up(key: Key)

  predicate UnitAxes(a: Axes) {
    -1 <= a.x <= 1 && -1 <= a.y <= 1
  }

  /** Key-down points one axis the key's way and leaves the other alone. */
  function Pressed(a: Axes, k: Key): (r: Axes)
    ensures UnitAxes(a) ==> UnitAxes(r)
    ensures (k == W || k == S) ==> r.x == a.x && r.y != 0
    ensures (k == A || k == D) ==> r.y == a.y && r.x != 0
    ensures (k == Space || k == Other) ==> r == a
  {
    match k
    case W => a.(y := -1)
    case S => a.(y := 1)
    case A => a.(x := -1)
    case D => a.(x := 1)
    case _ => a
  }

  /** Key-up stops an axis only while it still points the released key's way,
      so releasing a key that was overridden by its opposite keeps the motion. */
  function Released(a: Axes, k: Key): (r: Axes)
    ensures UnitAxes(a) ==> UnitAxes(r)
    ensures (r.x == a.x || r.x == 0) && (r.y == a.y || r.y == 0)
    ensures k == W ==> r.x == a.x && (r.y == 0 <==> a.y <= 0)
    ensures k == S ==> r.x == a.x && (r.y == 0 <==> a.y >= 0)
    ensures k == A ==> r.y == a.y && (r.x == 0 <==> a.x <= 0)
    ensures k == D ==> r.y == a.y && (r.x == 0 <==> a.x >= 0)
    ensures (k == Space || k == Other) ==> r == a
  {
    match k
    case W => if a.y < 0 then a.(y := 0) else a
    case S => if a.y > 0 then a.(y := 0) else a
    case A => if a.x < 0 then a.(x := 0) else a
    case D => if a.x > 0 then a.(x := 0) else a
    case _ => a
  }

  function Handled(a: Axes, e: KeyEvent): Axes {
    match e
    case Down(k) => Pressed(a, k)
    case Up(k) => Released(a, k)
  }

  /** The direction after a run of key events. */
  function Replay(a: Axes, events: seq<KeyEvent>): Axes
    decreases |events|
  {
    if events == [] then a else Replay(Handled(a, events[0]), events[1..])
  }

  /** However the keys are pressed and released, each axis stays in {-1, 0, 1}. */
  lemma {:induction false} ReplayStaysUnit(a: Axes, events: seq<KeyEvent>)
    requires UnitAxes(a)
    ensures UnitAxes(Replay(a, events))
    decreases |events|
  {
    if events != [] {
      ReplayStaysUnit(Handled(a, events[0]), events[1..]);
    }
  }

  /** Releasing the key just pressed stops that axis and leaves the other. */
  lemma PressThenRelease(a: Axes, k: Key)
    ensures (k == W || k == S) ==> Released(Pressed(a, k), k) == a.(y := 0)
    ensures (k == A || k == D) ==> Released(Pressed(a, k), k) == a.(x := 0)
  {
  }

  /** Holding w, pressing s and then letting go of w keeps moving down (and
      likewise for a and d). */
  lemma OppositeKeySurvivesRelease(a: Axes)
    ensures Replay(a, [Down(W), Down(S), Up(W)]).y == 1
    ensures Replay(a, [Down(A), Down(D), Up(A)]).x == 1
  {
    assert [Down(W), Down(S), Up(W)][1..] == [Down(S), Up(W)];
    assert [Down(S), Up(W)][1..] == [Up(W)];
    assert [Down(A), Down(D), Up(A)][1..] == [Down(D), Up(A)];
    assert [Down(D), Up(A)][1..] == [Up(A)];
  }

  /** Once all four direction keys are up, the keyboard asks for no motion. */
  lemma ReleasingEveryKeyStops(a: Axes)
    ensures Replay(a, [Up(W), Up(S), Up(A), Up(D)]) == Axes(0, 0)
  {
    var events := [Up(W), Up(S), Up(A), Up(D)];
    assert events[1..] == [Up(S), Up(A), Up(D)];
    assert events[1..][1..] == [Up(A), Up(D)];
    assert events[1..][1..][1..] == [Up(D)];
  }

  // ---------------------------------------------------------------------------
  // Input hand-off to the engine

  /** The movement input and attack flag given to one engine tick: nothing
      before the game starts; otherwise the keyboard overrides the joystick
      whenever it asks for any motion. */
  function TickInput(started: bool, keyboard: Axes, joystick: Vector2, attacking: bool): (r: (Vector2, bool))
    ensures !started ==> r == (Vector2(0.0, 0.0), false)
    ensures started && keyboard != Axes(0, 0) ==> r.0 == Vector2(keyboard.x as real, keyboard.y as real)
    ensures started && keyboard == Axes(0, 0) ==> r.0 == joystick
    ensures r.1 <==> started && attacking
  {
    if !started then (Vector2(0.0, 0.0), false)
    else if keyboard.x != 0 || keyboard.y != 0 then (Vector2(keyboard.x as real, keyboard.y as real), attacking)
    else (joystick, attacking)
  }

  // ---------------------------------------------------------------------------
  // Weather ambience

  /** Sound requests sent to the audio collaborator. */
  datatype Cue = StartRain | StopRain | StartWind | StopWind | Step | BuildSound | Shoot

  /** Which ambient loops are playing. */
  datatype Ambience = Ambience(rain: bool, wind: bool)

  const Silence := Ambience(false, false)

  predicate Rainy(w: WeatherKind) {
    w == Rain || w == Storm
  }

  predicate Windy(w: WeatherKind) {
    w == Fog || w == Snow || w == Storm
  }

  /** The loops that should be playing in a given weather. */
  function Ambient(w: WeatherKind): Ambience {
    Ambience(Rainy(w), Windy(w))
  }

  /** The stop cues for the weather being left, in the order they are sent. */
  function StopCues(prev: WeatherKind): (cues: seq<Cue>)
    ensures StopRain in cues <==> Rainy(prev)
    ensures StopWind in cues <==> Windy(prev)
    ensures StartRain !in cues && StartWind !in cues
  {
    (if prev == Rain then [StopRain] else []) +
    (if Windy(prev) then [StopWind] else []) +
    (if prev == Storm then [StopRain] else [])
  }

  /** The start cues for the weather being entered, in the order they are sent. */
  function StartCues(cur: WeatherKind): (cues: seq<Cue>)
    ensures StartRain in cues <==> Rainy(cur)
    ensures StartWind in cues <==> Windy(cur)
    ensures StopRain !in cues && StopWind !in cues
  {
    (if cur == Rain then [StartRain] else []) +
    (if Windy(cur) then [StartWind] else []) +
    (if cur == Storm then [StartRain] else [])
  }

  /** The cues of one tick's weather check: none while the weather holds. */
  function WeatherCues(prev: WeatherKind, cur: WeatherKind): (cues: seq<Cue>)
    ensures cur == prev ==> cues == []
  {
    if cur == prev then [] else StopCues(prev) + StartCues(cur)
  }

  /** The effect of one cue on the playing loops. */
  function Heard(a: Ambience, c: Cue): Ambience {
    match c
    case StartRain => a.(rain := true)
    case StopRain => a.(rain := false)
    case StartWind => a.(wind := true)
    case StopWind => a.(wind := false)
    case _ => a
  }

  function Played(a: Ambience, cues: seq<Cue>): Ambience
    decreases |cues|
  {
    if cues == [] then a else Played(Heard(a, cues[0]), cues[1..])
  }

  lemma {:induction false} PlayedAppend(a: Ambience, first: seq<Cue>, second: seq<Cue>)
    ensures Played(a, first + second) == Played(Played(a, first), second)
    decreases |first|
  {
    if first != [] {
      assert (first + second)[1..] == first[1..] + second;
      PlayedAppend(Heard(a, first[0]), first[1..], second);
    } else {
      assert first + second == second;
    }
  }

  /** Stopping what a weather plays silences it. */
  lemma StopCuesSilence(prev: WeatherKind)
    ensures Played(Ambient(prev), StopCues(prev)) == Silence
  {
    match prev
    case Clear =>
    case Rain => assert StopCues(prev) == [StopRain];
    case Fog => assert StopCues(prev) == [StopWind];
    case Snow => assert StopCues(prev) == [StopWind];
    case Storm =>
      assert StopCues(prev) == [StopWind, StopRain];
      assert StopCues(prev)[1..] == [StopRain];
      assert Played(Ambience(true, false), [StopRain]) == Silence;
  }

  /** Starting from silence, the start cues play exactly what the weather calls for. */
  lemma StartCuesFromSilence(cur: WeatherKind)
    ensures Played(Silence, StartCues(cur)) == Ambient(cur)
  {
    match cur
    case Clear =>
    case Rain => assert StartCues(cur) == [StartRain];
    case Fog => assert StartCues(cur) == [StartWind];
    case Snow => assert StartCues(cur) == [StartWind];
    case Storm =>
      assert StartCues(cur) == [StartWind, StartRain];
      assert StartCues(cur)[1..] == [StartRain];
      assert Played(Ambience(false, true), [StartRain]) == Ambient(Storm);
  }

  /** If the loops matched the previous weather, after the weather check they
      match the current one: rain plays iff it rains or storms, wind plays iff
      there is fog, snow or a storm. */
  lemma CuesFollowWeather(a: Ambience, prev: WeatherKind, cur: WeatherKind)
    requires a == Ambient(prev)
    ensures Played(a, WeatherCues(prev, cur)) == Ambient(cur)
  {
    if cur != prev {
      PlayedAppend(a, StopCues(prev), StartCues(cur));
      StopCuesSilence(prev);
      StartCuesFromSilence(cur);
    }
  }

  /** A restart stops both loops, which is what clear weather calls for. */
  lemma RestartSilences(a: Ambience)
    ensures Played(a, [StopRain, StopWind]) == Ambient(Clear)
  {
    assert [StopRain, StopWind][1..] == [StopWind];
  }

  // ---------------------------------------------------------------------------
  // Best score

  /** The stored best becomes the larger of the old best and the day reached. */
  function BestAfter(best: int, day: int): (r: int)
    ensures r >= best && r >= day
    ensures r == best || r == day
  {
    if day > best then day else best
  }

  // ---------------------------------------------------------------------------
  // Resources: placement and crafting charges

  predicate Solvent(p: Purse) {
    p.wood >= 0 && p.stone >= 0 && p.food >= 0 && p.gold >= 0
  }

  /** The placement guard of a tap: the kind has a cost entry and wood, stone and
      gold each cover it. It agrees with the build bar's affordability. */
  function PlacementAllowed(p: Purse, kind: EntityKind): (ok: bool)
    ensures ok <==> CanAfford(p.wood, p.stone, p.gold, kind)
  {
    Cost(kind).Some? &&
    p.wood >= Cost(kind).value.wood && p.stone >= Cost(kind).value.stone && p.gold >= Cost(kind).value.gold
  }

  /** Paying a building price: food is untouched, and a solvent purse stays
      solvent exactly when the price is covered. */
  function Deducted(p: Purse, c: Price): (r: Purse)
    ensures r.food == p.food
    ensures r.wood <= p.wood && r.stone <= p.stone && r.gold <= p.gold
    ensures Solvent(p) ==> (Solvent(r) <==> p.wood >= c.wood && p.stone >= c.stone && p.gold >= c.gold)
  {
    p.(wood := p.wood - c.wood, stone := p.stone - c.stone, gold := p.gold - c.gold)
  }

  /** The purse after one tap with a building selected. */
  function AfterPlacement(p: Purse, kind: EntityKind): (r: Purse)
    ensures !PlacementAllowed(p, kind) ==> r == p
    ensures Solvent(p) ==> Solvent(r)
  {
    if PlacementAllowed(p, kind) then Deducted(p, Cost(kind).value) else p
  }

  /** The purse after a run of building taps. */
  function AfterPlacements(p: Purse, kinds: seq<EntityKind>): Purse
    decreases |kinds|
  {
    if kinds == [] then p else AfterPlacements(AfterPlacement(p, kinds[0]), kinds[1..])
  }

  /** However many buildings are placed, no resource goes negative, none grows,
      and food is never spent. */
  lemma {:induction false} PlacementsKeepSolvent(p: Purse, kinds: seq<EntityKind>)
    requires Solvent(p)
    ensures Solvent(AfterPlacements(p, kinds))
    ensures AfterPlacements(p, kinds).wood <= p.wood && AfterPlacements(p, kinds).stone <= p.stone
    ensures AfterPlacements(p, kinds).gold <= p.gold && AfterPlacements(p, kinds).food == p.food
    decreases |kinds|
  {
    if kinds != [] {
      PlacementsKeepSolvent(AfterPlacement(p, kinds[0]), kinds[1..]);
    }
  }

  /** What a recipe cost component takes: an absent or zero component takes nothing. */
  function Due(c: Option<nat>): (n: nat)
    ensures c.None? ==> n == 0
    ensures c.Some? ==> n == c.value
  {
    if c.Some? && c.value != 0 then c.value else 0
  }

  predicate Covers(p: Purse, c: RecipeCost) {
    p.wood >= Due(c.wood) && p.stone >= Due(c.stone) && p.food >= Due(c.food) && p.gold >= Due(c.gold)
  }

  /** Crafting charges every cost component without checking the purse: a
      solvent purse stays solvent exactly when the cost is covered. */
  function Charged(p: Purse, c: RecipeCost): (r: Purse)
    ensures r.wood <= p.wood && r.stone <= p.stone && r.food <= p.food && r.gold <= p.gold
    ensures Solvent(p) ==> (Solvent(r) <==> Covers(p, c))
  {
    Purse(p.wood - Due(c.wood), p.stone - Due(c.stone), p.food - Due(c.food), p.gold - Due(c.gold))
  }

  /** Charges a recipe cost to the player in place, component by component. */
  method Charge(player: PlayerState, c: RecipeCost)
    modifies player
    ensures player.Snapshot() == old(player.Snapshot()).(purse := Charged(old(player.Snapshot().purse), c))
  {
    if c.wood.Some? && c.wood.value != 0 { player.wood := player.wood - c.wood.value; }
    if c.stone.Some? && c.stone.value != 0 { player.stone := player.stone - c.stone.value; }
    if c.food.Some? && c.food.value != 0 { player.food := player.food - c.food.value; }
    if c.gold.Some? && c.gold.value != 0 { player.gold := player.gold - c.gold.value; }
  }

  /** A building recipe is paid twice: once when it is crafted and again when
      the building it selects is placed. */
  lemma BuildRecipeChargedTwice(p: Purse, i: nat)
    requires i < |CraftingRecipes| && CraftingRecipes[i].kind == Build
    ensures CraftingRecipes[i].entityType.Some? && Cost(CraftingRecipes[i].entityType.value).Some?
    ensures
      var kind := CraftingRecipes[i].entityType.value;
      var c := Cost(kind).value;
      var crafted := Charged(p, CraftingRecipes[i].cost);
      PlacementAllowed(crafted, kind) ==>
        AfterPlacement(crafted, kind) == Purse(p.wood - 2 * c.wood, p.stone - 2 * c.stone, p.food, p.gold - 2 * c.gold)
  {
    RecipeWellFormed(i);
  }

  // ---------------------------------------------------------------------------
  // Building placement

  /** The building a successful tap adds: full health from the stat table,
      no speed, the table's damage or none, standing at the tap. */
  function Built(kind: EntityKind, pos: Vector2, id: nat): (e: Entity)
    requires Cost(kind).Some?
    ensures e.kind == kind && e.pos == pos && e.id == id
    ensures StatsOf(kind).hp.Some? && e.hp == e.maxHp == StatsOf(kind).hp.value > 0
    ensures e.speed == 0.0
    ensures e.damage == StatsOf(kind).damage.GetOr(0)
  {
    BuildableKindsHaveHealth(kind);
    var s := StatsOf(kind);
    Entity(id, kind, pos, s.size, s.hp.value, s.hp.value, s.damage.GetOr(0), 0.0, s.range, s.fireRate, 1, Idle, 0)
  }

  /** Taps closer than this to the base open the crafting menu. */
  const CraftingReach: real := 60.0

  /** Within the disc of radius `CraftingReach` around `b`, compared on the
      squared distance; a tap on the spot is in reach. */
  function WithinReach(a: Vector2, b: Vector2): (near: bool)
    ensures a == b ==> near
  {
    var dx, dy := a.x - b.x, a.y - b.y;
    dx * dx + dy * dy < CraftingReach * CraftingReach
  }

  /** Reach is a disc of radius 60: a tap 60 or more away along either axis is
      out of reach, and one within 42 along both axes is in reach. */
  lemma ReachIsADisc(a: Vector2, b: Vector2)
    ensures WithinReach(a, b) ==> -CraftingReach < a.x - b.x < CraftingReach && -CraftingReach < a.y - b.y < CraftingReach
    ensures -42.0 <= a.x - b.x <= 42.0 && -42.0 <= a.y - b.y <= 42.0 ==> WithinReach(a, b)
  {
    SquareOfSmall(a.x - b.x);
    SquareOfSmall(a.y - b.y);
    SquareOfLarge(a.x - b.x);
    SquareOfLarge(a.y - b.y);
  }

  lemma SquareOfLarge(d: real)
    ensures (d <= -CraftingReach || CraftingReach <= d) ==> d * d >= CraftingReach * CraftingReach
  {
    if CraftingReach <= d {
      assert d * d >= CraftingReach * d;
    } else if d <= -CraftingReach {
      assert d * d >= -CraftingReach * d;
    }
  }

  lemma SquareOfSmall(d: real)
    ensures -42.0 <= d <= 42.0 ==> d * d <= 1764.0
  {
    if 0.0 <= d <= 42.0 {
      assert d * d <= 42.0 * d;
    } else if -42.0 <= d < 0.0 {
      assert d * d <= -42.0 * d;
    }
  }

  /** The first base in the entity list, as the tap handler looks it up. */
  method FindBase(entities: seq<Entity>) returns (found: Option<nat>)
    ensures found.Some? ==> found.value < |entities| && entities[found.value].kind == Base
    ensures found.Some? ==> forall i | 0 <= i < found.value :: entities[i].kind != Base
    ensures found.None? ==> forall i | 0 <= i < |entities| :: entities[i].kind != Base
  {
    var i := 0;
    while i < |entities|
      invariant 0 <= i <= |entities|
      invariant forall j | 0 <= j < i :: entities[j].kind != Base
    {
      if entities[i].kind == Base {
        return Some(i);
      }
      i := i + 1;
    }
    return None;
  }

  /** A tap at `pos` is within reach of the first base in the list. */
  ghost predicate NearBase(entities: seq<Entity>, pos: Vector2) {
    exists i | 0 <= i < |entities| ::
      entities[i].kind == Base && (forall j | 0 <= j < i :: entities[j].kind != Base) &&
      WithinReach(pos, entities[i].pos)
  }

  // ---------------------------------------------------------------------------
  // The session: the app's mutable references around the live game state

  class Session {
    var game: GameState
    var started: bool
    var joystick: Vector2
    var keyboard: Axes
    var attacking: bool
    var prevWeather: WeatherKind
    var ambience: Ambience
    var selectedBuild: Option<EntityKind>
    var showCrafting: bool
    var best: int
    var nextId: nat

    /** The keyboard direction is a unit direction on each axis, and the
        ambient loops playing are those of the last weather seen. */
    ghost predicate Valid()
      reads this
    {
      UnitAxes(keyboard) && ambience == Ambient(prevWeather)
    }

    constructor (game: GameState, best: int)
      ensures Valid() && this.game == game && this.best == best
      ensures !started && keyboard == Axes(0, 0) && joystick == Vector2(0.0, 0.0) && !attacking
      ensures prevWeather == Clear && ambience == Silence && selectedBuild.None? && !showCrafting
    {
      this.game := game;
      this.best := best;
      started := false;
      joystick := Vector2(0.0, 0.0);
      keyboard := Axes(0, 0);
      attacking := false;
      prevWeather := Clear;
      ambience := Silence;
      selectedBuild := None;
      showCrafting := false;
      nextId := 0;
    }

    method Start()
      modifies this`started
      ensures started
    {
      started := true;
    }

    method Steer(v: Vector2)
      modifies this`joystick
      ensures joystick == v
    {
      joystick := v;
    }

    /** Key-down is ignored before the game starts and after it ends; the space
        bar requests an attack. */
    method KeyDown(k: Key)
      requires Valid()
      modifies this`keyboard, this`attacking
      ensures Valid()
      ensures !started || game.gameOver ==> keyboard == old(keyboard) && attacking == old(attacking)
      ensures started && !game.gameOver ==>
        keyboard == Pressed(old(keyboard), k) && (attacking <==> old(attacking) || k == Space)
    {
      if !started || game.gameOver {
        return;
      }
      match k
      case W => keyboard := keyboard.(y := -1);
      case S => keyboard := keyboard.(y := 1);
      case A => keyboard := keyboard.(x := -1);
      case D => keyboard := keyboard.(x := 1);
      case Space => attacking := true;
      case Other =>
    }

    /** Key-up is always handled. */
    method KeyUp(k: Key)
      requires Valid()
      modifies this`keyboard
      ensures Valid()
      ensures keyboard == Released(old(keyboard), k)
    {
      match k
      case W => if keyboard.y < 0 { keyboard := keyboard.(y := 0); }
      case S => if keyboard.y > 0 { keyboard := keyboard.(y := 0); }
      case A => if keyboard.x < 0 { keyboard := keyboard.(x := 0); }
      case D => if keyboard.x > 0 { keyboard := keyboard.(x := 0); }
      case _ =>
    }

    /** The on-screen attack button: requests an attack and plays the shot. */
    method Attack() returns (cues: seq<Cue>)
      requires Valid()
      modifies this`attacking
      ensures Valid()
      ensures attacking && cues == [Shoot]
    {
      attacking := true;
      cues := [Shoot];
    }

    /** Stores the day reached if it beats the best so far. */
    method SaveScore(day: int)
      modifies this`best
      ensures best == BestAfter(old(best), day)
    {
      if day > best {
        best := day;
      }
    }

    /** One frame: hand the input to the engine tick `advance`, clear the attack
        request, send the weather cues, and save the score once the game is over. */
    method Loop(advance: (GameState, Vector2, bool) -> GameState) returns (input: Vector2, attack: bool, cues: seq<Cue>)
      requires Valid()
      modifies this`game, this`attacking, this`prevWeather, this`ambience, this`best
      ensures Valid()
      ensures (input, attack) == TickInput(started, keyboard, joystick, old(attacking))
      ensures game == advance(old(game), input, attack)
      ensures !attacking
      ensures prevWeather == game.weather && ambience == Ambient(game.weather)
      ensures cues == (if (input.x != 0.0 || input.y != 0.0) && !game.gameOver then [Step] else []) +
                      WeatherCues(old(prevWeather), game.weather)
      ensures best == if game.gameOver then BestAfter(old(best), game.dayCount) else old(best)
    {
      var inputX, inputY := joystick.x, joystick.y;
      if keyboard.x != 0 || keyboard.y != 0 {
        inputX, inputY := keyboard.x as real, keyboard.y as real;
      }
      input := if started then Vector2(inputX, inputY) else Vector2(0.0, 0.0);
      attack := if started then attacking else false;
      game := advance(game, input, attack);
      cues := if (input.x != 0.0 || input.y != 0.0) && !game.gameOver then [Step] else [];
      attacking := false;

      var current := game.weather;
      if current != prevWeather {
        var weatherCues := WeatherCues(prevWeather, current);
        CuesFollowWeather(ambience, prevWeather, current);
        ambience := Played(ambience, weatherCues);
        cues := cues + weatherCues;
        prevWeather := current;
      }

      if game.gameOver {
        SaveScore(game.dayCount);
      }
    }

    /** Restart: a fresh game from the engine, no building selected, both
        ambient loops stopped. */
    method Restart(initial: GameState) returns (cues: seq<Cue>)
      requires Valid()
      modifies this`game, this`selectedBuild, this`ambience, this`prevWeather
      ensures Valid()
      ensures game == initial && selectedBuild.None? && prevWeather == Clear && ambience == Silence
      ensures cues == [StopRain, StopWind]
    {
      game := initial;
      selectedBuild := None;
      cues := [StopRain, StopWind];
      RestartSilences(ambience);
      ambience := Played(ambience, cues);
      prevWeather := Clear;
    }

    /** Selecting from the build bar toggles the selection. */
    method ToggleBuild(kind: EntityKind)
      modifies this`selectedBuild
      ensures selectedBuild == Clicked(old(selectedBuild), kind)
    {
      selectedBuild := if selectedBuild == Some(kind) then None else Some(kind);
    }

    /** A tap on the world: near the base it opens crafting; with a building
        selected it places it if every resource covers the cost; otherwise it
        is an attack. */
    method HandleTap(pos: Vector2) returns (cues: seq<Cue>)
      requires Valid()
      modifies this`showCrafting, this`selectedBuild, this`attacking, this`nextId
      modifies game`entities, game.player`wood, game.player`stone, game.player`gold
      ensures Valid()
      ensures !started || game.gameOver ==>
        unchanged(this) && unchanged(game) && unchanged(game.player) && cues == []
      ensures started && !game.gameOver && NearBase(old(game.entities), pos) ==>
        showCrafting && selectedBuild == old(selectedBuild) && attacking == old(attacking) &&
        nextId == old(nextId) && unchanged(game) && unchanged(game.player) && cues == []
      ensures started && !game.gameOver && !NearBase(old(game.entities), pos) && old(selectedBuild).None? ==>
        attacking && showCrafting == old(showCrafting) && selectedBuild.None? && nextId == old(nextId) &&
        unchanged(game) && unchanged(game.player) && cues == []
      ensures started && !game.gameOver && !NearBase(old(game.entities), pos) && old(selectedBuild).Some? &&
              !PlacementAllowed(old(game.player.Snapshot().purse), old(selectedBuild).value) ==>
        unchanged(this) && unchanged(game) && unchanged(game.player) && cues == []
      ensures started && !game.gameOver && !NearBase(old(game.entities), pos) && old(selectedBuild).Some? &&
              PlacementAllowed(old(game.player.Snapshot().purse), old(selectedBuild).value) ==>
        game.entities == old(game.entities) + [Built(old(selectedBuild).value, pos, old(nextId))] &&
        game.player.Snapshot() ==
          old(game.player.Snapshot()).(purse := Deducted(old(game.player.Snapshot().purse), Cost(old(selectedBuild).value).value)) &&
        selectedBuild.None? && nextId == old(nextId) + 1 &&
        showCrafting == old(showCrafting) && attacking == old(attacking) && cues == [BuildSound]
    {
      cues := [];
      if !started || game.gameOver {
        return;
      }
      var base := FindBase(game.entities);
      if base.Some? && WithinReach(pos, game.entities[base.value].pos) {
        showCrafting := true;
        return;
      }
      if selectedBuild.Some? {
        var kind := selectedBuild.value;
        var cost := Cost(kind);
        var player := game.player;
        if cost.Some? && player.wood >= cost.value.wood && player.stone >= cost.value.stone && player.gold >= cost.value.gold {
          game.entities := game.entities + [Built(kind, pos, nextId)];
          nextId := nextId + 1;
          player.wood := player.wood - cost.value.wood;
          player.stone := player.stone - cost.value.stone;
          player.gold := player.gold - cost.value.gold;
          cues := [BuildSound];
          selectedBuild := None;
        }
      } else {
        attacking := true;
      }
    }

    /** Crafting charges each cost component that is present and non-zero, with
        no affordability, tier or world check; a building recipe then selects
        its building, any other recipe applies its effect. */
    method HandleCraft(recipe: Recipe) returns (cues: seq<Cue>)
      requires Valid()
      modifies this`selectedBuild, this`showCrafting, game.player
      ensures Valid()
      ensures
        var charged := old(game.player.Snapshot()).(purse := Charged(old(game.player.Snapshot().purse), recipe.cost));
        if recipe.kind == Build && recipe.entityType.Some? then
          selectedBuild == recipe.entityType && !showCrafting && game.player.Snapshot() == charged && cues == []
        else
          selectedBuild == old(selectedBuild) && showCrafting == old(showCrafting) &&
          game.player.Snapshot() == (if recipe.effect.Some? then Effected(recipe.effect.value, charged) else charged) &&
          cues == (if recipe.effect.Some? then [BuildSound] else [])
    {
      var player := game.player;
      Charge(player, recipe.cost);
      cues := [];
      if recipe.kind == Build && recipe.entityType.Some? {
        selectedBuild := recipe.entityType;
        showCrafting := false;
      } else if recipe.effect.Some? {
        ApplyEffect(player, recipe.effect.value);
        cues := [BuildSound];
      }
    }
  }
}
