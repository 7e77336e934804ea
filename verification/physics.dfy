/**
  The rules of the single-level platformer as functions on a value of its
  whole mutable state: what one timer tick, one key press and one key release
  do. The class in game.dfy performs the same updates in place and is proved
  against these functions; the lemmas here state what the rules promise.
 */
module Physics {
  import opened Geometry

  // Window and player constants.
  const Height := 600
  const PlayerW := 40
  const PlayerH := 50
  const PlayerSpeed := 5
  const Gravity := 1
  const JumpStrength := -15

  /** Where the player starts and where a reset puts it back. */
  const SpawnX := 100
  const SpawnY := 500

  /** The lowest y the player's top edge may have: the window floor. */
  const FloorY := Height - PlayerH

  /** The fixed level, in the order in which collisions are resolved. */
  const Platforms: seq<Rect> := [
    Rect(0, 550, 800, 50),
    Rect(200, 450, 200, 20),
    Rect(450, 350, 200, 20),
    Rect(150, 250, 150, 20)
  ]

  /** Touching the flag wins the game. */
  const Flag := Rect(700, 180, 20, 100)

  // The patrolling enemy: start, speed and the x range where it turns.
  const EnemyStart := Rect(600, 520, 40, 40)
  const EnemyStartDir := -2
  const EnemySpeed := 2
  const PatrolLeft := 400
  const PatrolRight := 700

  datatype Option<T> = None | Some(value: T)

  /** The keys the game reacts to; every other key code is OtherKey. */
  datatype Key = Left | Right | Space | OtherKey

  /** The two message dialogs the game can show during a tick. */
  datatype Outcome = Lost | Won

  /** Every field the game updates. */
  datatype State = State(
    playerX: int, playerY: int, velocityY: int, onGround: bool,
    leftPressed: bool, rightPressed: bool,
    enemy: Rect, enemyDir: int)

  /** The state when the game starts. */
  const Initial := State(SpawnX, SpawnY, 0, false, false, false, EnemyStart, EnemyStartDir)

  /** What a tick produces: the new state and the dialogs shown, in order. */
  datatype Step = Step(state: State, outcomes: seq<Outcome>)

  // ---------------------------------------------------------------------------
  // Player update

  /** The index of the first rectangle of ps that r intersects, if any. */
  function FirstHit(r: Rect, ps: seq<Rect>): (k: Option<nat>)
    ensures k.Some? ==> k.value < |ps| && Intersects(r, ps[k.value])
    ensures k.Some? ==> forall j :: 0 <= j < k.value ==> !Intersects(r, ps[j])
    ensures k.None? <==> forall j :: 0 <= j < |ps| ==> !Intersects(r, ps[j])
  {
    if ps == [] then None
    else if Intersects(r, ps[0]) then Some(0)
    else
      match FirstHit(r, ps[1..])
      case None => None
      case Some(k) => Some(k + 1)
  }

  /** A rectangle hit with no hit before it is the one FirstHit finds. */
  lemma FirstHitIsFirst(r: Rect, ps: seq<Rect>, k: nat)
    requires k < |ps| && Intersects(r, ps[k])
    requires forall j :: 0 <= j < k ==> !Intersects(r, ps[j])
    ensures FirstHit(r, ps) == Some(k)
  {
  }

  /** How far the held arrow keys move the player this tick. */
  function HorizontalIntent(left: bool, right: bool): int
  {
    (if left then -PlayerSpeed else 0) + (if right then PlayerSpeed else 0)
  }

  /**
    The player's rectangle after the horizontal move and gravity, before any
    platform snap: the rectangle every collision test of the tick uses.
   */
  function MovedRect(s: State): Rect
  {
    Rect(s.playerX + HorizontalIntent(s.leftPressed, s.rightPressed),
         s.playerY + s.velocityY + Gravity, PlayerW, PlayerH)
  }

  /** The state after moving and applying gravity, with onGround cleared. */
  function Moved(s: State): State
  {
    var r := MovedRect(s);
    s.(playerX := r.x, playerY := r.y, velocityY := s.velocityY + Gravity, onGround := false)
  }

  /**
    Platform collisions against ps: only a falling player lands, on top of
    the first platform of ps that its moved rectangle r intersects.
   */
  function Land(m: State, r: Rect, ps: seq<Rect>): State
  {
    if m.velocityY > 0 then
      match FirstHit(r, ps)
      case Some(k) => m.(playerY := ps[k].y - PlayerH, velocityY := 0, onGround := true)
      case None => m
    else m
  }

  /**
    Resolving one more platform: once the player has landed its velocity is
    0 and later platforms change nothing; before that, platform i lands a
    falling player exactly when the moved rectangle meets it.
   */
  lemma LandOneMore(m: State, r: Rect, ps: seq<Rect>, i: nat)
    requires i < |ps|
    ensures var cur := Land(m, r, ps[..i]);
      Land(m, r, ps[..i+1]) ==
        if Intersects(r, ps[i]) && cur.velocityY > 0
        then cur.(playerY := ps[i].y - PlayerH, velocityY := 0, onGround := true)
        else cur
  {
  }

  /** A reset puts the player back at the spawn point, at rest; nothing else changes. */
  function Reset(s: State): State
  {
    s.(playerX := SpawnX, playerY := SpawnY, velocityY := 0)
  }

  /** The dialogs a tick shows: first the enemy's, then the flag's, both judged on r. */
  function Outcomes(r: Rect, enemy: Rect): seq<Outcome>
  {
    (if Intersects(r, enemy) then [Lost] else []) + (if Intersects(r, Flag) then [Won] else [])
  }

  /** The state after collisions and resets, before the floor clamp. */
  function Unclamped(s: State): State
  {
    var r := MovedRect(s);
    var landed := Land(Moved(s), r, Platforms);
    if Outcomes(r, s.enemy) != [] then Reset(landed) else landed
  }

  /** The window floor stops a player that sank below it. */
  function ClampToFloor(s: State): State
  {
    if s.playerY > FloorY then s.(playerY := FloorY, velocityY := 0, onGround := true) else s
  }

  /** One player update. */
  function PlayerStep(s: State): Step
  {
    Step(ClampToFloor(Unclamped(s)), Outcomes(MovedRect(s), s.enemy))
  }

  // ---------------------------------------------------------------------------
  // Enemy update, key events and the tick

  /** The enemy moves by its direction, then turns if it left the patrol range. */
  function EnemyStep(s: State): State
  {
    var x := s.enemy.x + s.enemyDir;
    var dir := if x < PatrolLeft then EnemySpeed else s.enemyDir;
    var dir' := if x > PatrolRight then -EnemySpeed else dir;
    s.(enemy := s.enemy.(x := x), enemyDir := dir')
  }

  /** One timer tick: the player, then the enemy. */
  function Tick(s: State): Step
  {
    var p := PlayerStep(s);
    Step(EnemyStep(p.state), p.outcomes)
  }

  function KeyPressed(s: State, k: Key): State
  {
    match k
    case Left => s.(leftPressed := true)
    case Right => s.(rightPressed := true)
    case Space => if s.onGround then s.(velocityY := JumpStrength) else s
    case OtherKey => s
  }

  function KeyReleased(s: State, k: Key): State
  {
    match k
    case Left => s.(leftPressed := false)
    case Right => s.(rightPressed := false)
    case _ => s
  }

  /** The events the game reacts to, as Swing delivers them one at a time. */
  datatype Event = TimerTick | Press(key: Key) | Release(key: Key)

  function Apply(s: State, e: Event): State
  {
    match e
    case TimerTick => Tick(s).state
    case Press(k) => KeyPressed(s, k)
    case Release(k) => KeyReleased(s, k)
  }

  /** The state after a sequence of events, applied first to last. */
  function Run(s: State, es: seq<Event>): State
    decreases |es|
  {
    if es == [] then s else Run(Apply(s, es[0]), es[1..])
  }

  // ---------------------------------------------------------------------------
  // Invariants

  /** The enemy's patrol: within two steps of the turning points, heading back inside. */
  predicate PatrolInv(x: int, dir: int)
  {
    PatrolLeft - EnemySpeed <= x <= PatrolRight + EnemySpeed &&
    (dir == EnemySpeed || dir == -EnemySpeed) &&
    (x < PatrolLeft ==> dir == EnemySpeed) &&
    (x > PatrolRight ==> dir == -EnemySpeed)
  }

  /** What holds in every state the game reaches. */
  predicate Inv(s: State)
  {
    PatrolInv(s.enemy.x, s.enemyDir) &&
    s.enemy.y == EnemyStart.y && s.enemy.width == EnemyStart.width &&
    s.enemy.height == EnemyStart.height &&
    s.playerY <= FloorY
  }
}
