/**
  The game panel: its fields are updated in place by the timer tick and by
  the key listener, exactly as the rules in module Physics prescribe.
 */
module Platformer {
  import opened Geometry
  import opened Physics

  class Game {
    var playerX: int
    var playerY: int
    var velocityY: int
    var onGround: bool
    var leftPressed: bool
    var rightPressed: bool
    var enemy: Rect
    var enemyDir: int

    /** The fields as one value. */
    function Snapshot(): State
      reads this
    {
      State(playerX, playerY, velocityY, onGround, leftPressed, rightPressed, enemy, enemyDir)
    }

    /** The invariant every reachable game keeps. */
    ghost predicate Valid()
      reads this
    {
      Inv(Snapshot())
    }

    constructor ()
      ensures Snapshot() == Initial
      ensures Valid()
    {
      playerX, playerY, velocityY, onGround := SpawnX, SpawnY, 0, false;
      leftPressed, rightPressed := false, false;
      enemy, enemyDir := EnemyStart, EnemyStartDir;
    }

    /** One timer tick: the player, then the enemy; returns the dialogs shown. */
    method ActionPerformed() returns (outcomes: seq<Outcome>)
      modifies this
      ensures Snapshot() == Tick(old(Snapshot())).state
      ensures outcomes == Tick(old(Snapshot())).outcomes
      ensures old(Valid()) ==> Valid() && |outcomes| <= 1
    {
      outcomes := UpdatePlayer();
      UpdateEnemy();
    }

    /**
      Moves the player, applies gravity, lands it on the first platform its
      moved rectangle meets while falling, shows the lose and win dialogs
      (each followed by a reset) and stops it at the window floor.
     */
    method UpdatePlayer() returns (outcomes: seq<Outcome>)
      modifies this
      ensures Snapshot() == PlayerStep(old(Snapshot())).state
      ensures outcomes == PlayerStep(old(Snapshot())).outcomes
      ensures playerY <= FloorY
      ensures enemy == old(enemy) && enemyDir == old(enemyDir)
    {
      ghost var s := Snapshot();
      if leftPressed { playerX := playerX - PlayerSpeed; }
      if rightPressed { playerX := playerX + PlayerSpeed; }

      velocityY := velocityY + Gravity;
      playerY := playerY + velocityY;
      onGround := false;

      var playerRect := Rect(playerX, playerY, PlayerW, PlayerH);
      ghost var m := Snapshot();
      assert m == Moved(s) && playerRect == MovedRect(s);

      for i := 0 to |Platforms|
        invariant Snapshot() == Land(m, playerRect, Platforms[..i])
      {
        LandOneMore(m, playerRect, Platforms, i);
        var p := Platforms[i];
        if Intersects(playerRect, p) {
          if velocityY > 0 {
            playerY := p.y - PlayerH;
            velocityY := 0;
            onGround := true;
          }
        }
      }
      assert Platforms[..|Platforms|] == Platforms;

      outcomes := [];
      if Intersects(playerRect, enemy) {
        outcomes := outcomes + [Lost];
        ResetGame();
      }
      if Intersects(playerRect, Flag) {
        outcomes := outcomes + [Won];
        ResetGame();
      }

      if playerY > FloorY {
        playerY := FloorY;
        velocityY := 0;
        onGround := true;
      }
    }

    /** Moves the enemy one step along its patrol, turning it at either end. */
    method UpdateEnemy()
      modifies this
      ensures Snapshot() == EnemyStep(old(Snapshot()))
      ensures old(PatrolInv(enemy.x, enemyDir)) ==> PatrolInv(enemy.x, enemyDir)
    {
      enemy := enemy.(x := enemy.x + enemyDir);
      if enemy.x < PatrolLeft { enemyDir := EnemySpeed; }
      if enemy.x > PatrolRight { enemyDir := -EnemySpeed; }
    }

    /** Puts the player back at the spawn point, at rest; touches no other field. */
    method ResetGame()
      modifies this
      ensures Snapshot() == Reset(old(Snapshot()))
      ensures playerX == SpawnX && playerY == SpawnY && velocityY == 0
      ensures onGround == old(onGround)
      ensures leftPressed == old(leftPressed) && rightPressed == old(rightPressed)
      ensures enemy == old(enemy) && enemyDir == old(enemyDir)
    {
      playerX := SpawnX;
      playerY := SpawnY;
      velocityY := 0;
    }

    /** Holds an arrow key down, or jumps on Space while on the ground. */
    method KeyPressed(k: Key)
      modifies this
      ensures Snapshot() == Physics.KeyPressed(old(Snapshot()), k)
      ensures k == Space ==> velocityY == if old(onGround) then JumpStrength else old(velocityY)
      ensures old(Valid()) ==> Valid()
    {
      if k == Left { leftPressed := true; }
      if k == Right { rightPressed := true; }
      if k == Space && onGround {
        velocityY := JumpStrength;
      }
    }

    /** Lets go of an arrow key. */
    method KeyReleased(k: Key)
      modifies this
      ensures Snapshot() == Physics.KeyReleased(old(Snapshot()), k)
      ensures old(Valid()) ==> Valid()
    {
      if k == Left { leftPressed := false; }
      if k == Right { rightPressed := false; }
    }
  }
}
