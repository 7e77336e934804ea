/**
  What the game's rules promise: the effect of one player update on
  position and velocity, landing, the floor, resets and dialogs, the enemy's
  patrol, key handling, and the invariant every reachable state keeps.
 */
module Properties {
  import opened Geometry
  import opened Physics

  // ---------------------------------------------------------------------------
  // Player update

  /**
    Unless a dialog resets the player, the arrow keys move it by exactly one
    speed step to the side held alone and not at all when both or neither
    are held; there is no clamp to the window's sides.
   */
  lemma HorizontalMove(s: State)
    requires Outcomes(MovedRect(s), s.enemy) == []
    ensures PlayerStep(s).state.playerX - s.playerX ==
      if s.rightPressed && !s.leftPressed then 5
      else if s.leftPressed && !s.rightPressed then -5
      else 0
  {
  }

  /**
    Free flight: with no landing, no reset and no floor contact, gravity adds
    exactly 1 to the vertical velocity and the player moves by the new
    velocity; nothing caps the fall speed.
   */
  lemma FreeFlight(s: State)
    requires Outcomes(MovedRect(s), s.enemy) == []
    requires s.velocityY + Gravity <= 0 || forall j :: 0 <= j < |Platforms| ==> !Intersects(MovedRect(s), Platforms[j])
    requires s.playerY + s.velocityY + Gravity <= FloorY
    ensures PlayerStep(s).state.velocityY == s.velocityY + 1
    ensures PlayerStep(s).state.playerY == s.playerY + s.velocityY + 1
    ensures !PlayerStep(s).state.onGround
  {
  }

  /**
    A rising (or still) player passes through platforms: the platform stage
    changes nothing, dialog or not, and without a dialog the player ends
    where gravity put it.
   */
  lemma RisingPassesThrough(s: State)
    requires s.velocityY + Gravity <= 0
    ensures Land(Moved(s), MovedRect(s), Platforms) == Moved(s)
    ensures Outcomes(MovedRect(s), s.enemy) == [] && s.playerY <= FloorY ==>
      PlayerStep(s).state.velocityY == s.velocityY + Gravity &&
      PlayerStep(s).state.playerY == s.playerY + s.velocityY + Gravity &&
      !PlayerStep(s).state.onGround
  {
  }

  /**
    A falling player whose moved rectangle meets platform k, and none before
    it in level order, lands on top of k and comes to rest.
   */
  lemma LandsOnFirstPlatform(s: State, k: nat)
    requires s.velocityY + Gravity > 0
    requires k < |Platforms| && Intersects(MovedRect(s), Platforms[k])
    requires forall j :: 0 <= j < k ==> !Intersects(MovedRect(s), Platforms[j])
    requires Outcomes(MovedRect(s), s.enemy) == []
    ensures PlayerStep(s).state.playerY == Platforms[k].y - PlayerH
    ensures PlayerStep(s).state.velocityY == 0
    ensures PlayerStep(s).state.onGround
  {
  }

  /**
    The player never ends an update below the floor; when the floor stops it,
    it is at rest on the floor.
   */
  lemma FloorBound(s: State)
    ensures PlayerStep(s).state.playerY <= FloorY
    ensures Unclamped(s).playerY > FloorY ==>
      PlayerStep(s).state.playerY == FloorY && PlayerStep(s).state.velocityY == 0 &&
      PlayerStep(s).state.onGround
    ensures Unclamped(s).playerY <= FloorY ==> PlayerStep(s).state == Unclamped(s)
  {
  }

  /**
    A player standing still on top of platform i, and over it after this
    tick's horizontal move, stays exactly where it is and stays grounded; no
    other platform meets its moved rectangle.
   */
  lemma RestingStaysPut(s: State, i: nat)
    requires i < |Platforms|
    requires s.velocityY == 0 && s.playerY == Platforms[i].y - PlayerH
    requires MovedRect(s).x < Platforms[i].x + Platforms[i].width
    requires Platforms[i].x < MovedRect(s).x + PlayerW
    requires Outcomes(MovedRect(s), s.enemy) == []
    ensures PlayerStep(s).state.playerY == s.playerY
    ensures PlayerStep(s).state.velocityY == 0
    ensures PlayerStep(s).state.onGround
    ensures forall j :: 0 <= j < |Platforms| && j != i ==> !Intersects(MovedRect(s), Platforms[j])
  {
  }

  /**
    The dialogs are decided on the rectangle before any landing snap: the
    enemy's first, then the flag's, each exactly when its rectangle is hit.
   */
  lemma OutcomesOnMovedRect(s: State)
    ensures Lost in PlayerStep(s).outcomes <==> Intersects(MovedRect(s), s.enemy)
    ensures Won in PlayerStep(s).outcomes <==> Intersects(MovedRect(s), Flag)
    ensures PlayerStep(s).outcomes == [] || PlayerStep(s).outcomes == [Lost] ||
            PlayerStep(s).outcomes == [Won] || PlayerStep(s).outcomes == [Lost, Won]
  {
  }

  /**
    A dialog puts the player back at the spawn point at rest, whatever the
    landing did, and keeps the grounded flag the landing left; the keys and
    the enemy are untouched.
   */
  lemma DialogResets(s: State)
    requires PlayerStep(s).outcomes != []
    ensures PlayerStep(s).state.playerX == SpawnX
    ensures PlayerStep(s).state.playerY == SpawnY
    ensures PlayerStep(s).state.velocityY == 0
    ensures PlayerStep(s).state.onGround == Land(Moved(s), MovedRect(s), Platforms).onGround
    ensures PlayerStep(s).state.leftPressed == s.leftPressed
    ensures PlayerStep(s).state.rightPressed == s.rightPressed
    ensures PlayerStep(s).state.enemy == s.enemy && PlayerStep(s).state.enemyDir == s.enemyDir
  {
  }

  /**
    In this level both dialogs can never come up in the same tick: the enemy
    walks 240 pixels below the flag's bottom edge and the player is only 50
    pixels tall.
   */
  lemma LostAndWonExclusive(s: State)
    requires Inv(s)
    ensures |PlayerStep(s).outcomes| <= 1
  {
  }

  // ---------------------------------------------------------------------------
  // Enemy

  /**
    In every state the enemy moves by exactly its direction and keeps its
    size and height; it turns right below the left turning point, left beyond
    the right one, and keeps its direction in between.
   */
  lemma EnemyMoves(s: State)
    ensures EnemyStep(s).enemy.x == s.enemy.x + s.enemyDir
    ensures EnemyStep(s).enemy.y == s.enemy.y
    ensures EnemyStep(s).enemy.width == s.enemy.width
    ensures EnemyStep(s).enemy.height == s.enemy.height
    ensures EnemyStep(s).enemy.x < PatrolLeft ==> EnemyStep(s).enemyDir == EnemySpeed
    ensures EnemyStep(s).enemy.x > PatrolRight ==> EnemyStep(s).enemyDir == -EnemySpeed
    ensures PatrolLeft <= EnemyStep(s).enemy.x <= PatrolRight ==> EnemyStep(s).enemyDir == s.enemyDir
  {
  }

  /** The enemy's patrol invariant is kept by every enemy step. */
  lemma EnemyPatrol(s: State)
    requires PatrolInv(s.enemy.x, s.enemyDir)
    ensures PatrolInv(EnemyStep(s).enemy.x, EnemyStep(s).enemyDir)
  {
  }

  // ---------------------------------------------------------------------------
  // Keys

  /** Space makes the player jump exactly when it is on the ground, and changes nothing else. */
  lemma JumpGating(s: State)
    ensures KeyPressed(s, Space).velocityY == if s.onGround then JumpStrength else s.velocityY
    ensures KeyPressed(s, Space).(velocityY := s.velocityY) == s
  {
  }

  /** Pressing or releasing the same key twice before a tick is the same as doing it once. */
  lemma KeysIdempotent(s: State, k: Key)
    ensures KeyPressed(KeyPressed(s, k), k) == KeyPressed(s, k)
    ensures KeyReleased(KeyReleased(s, k), k) == KeyReleased(s, k)
  {
  }

  /** The arrow keys set and clear their own flag and nothing else; other keys change nothing. */
  lemma ArrowFlags(s: State, k: Key)
    requires k != Space
    ensures KeyPressed(s, k) ==
      if k == Left then s.(leftPressed := true)
      else if k == Right then s.(rightPressed := true)
      else s
    ensures KeyReleased(s, k) ==
      if k == Left then s.(leftPressed := false)
      else if k == Right then s.(rightPressed := false)
      else s
  {
  }

  // ---------------------------------------------------------------------------
  // The invariant of every reachable state

  lemma TickKeepsInv(s: State)
    requires Inv(s)
    ensures Inv(Tick(s).state)
  {
  }

  lemma KeysKeepInv(s: State, k: Key)
    requires Inv(s)
    ensures Inv(KeyPressed(s, k)) && Inv(KeyReleased(s, k))
  {
  }

  /**
    Whatever events arrive, a game that satisfies the invariant keeps it: the
    enemy stays on its patrol and the player never rests below the floor.
   */
  lemma {:induction false} RunKeepsInv(s: State, es: seq<Event>)
    requires Inv(s)
    ensures Inv(Run(s, es))
    decreases |es|
  {
    if es != [] {
      match es[0] {
        case TimerTick => TickKeepsInv(s);
        case Press(k) => KeysKeepInv(s, k);
        case Release(k) => KeysKeepInv(s, k);
      }
      RunKeepsInv(Apply(s, es[0]), es[1..]);
    }
  }

  /** Every state reachable from the start keeps the invariant. */
  lemma ReachableInv(es: seq<Event>)
    ensures Inv(Run(Initial, es))
  {
    RunKeepsInv(Initial, es);
  }
}
