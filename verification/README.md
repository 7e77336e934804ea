# JumpCube platformer: the simulation of one game tick

This project models the game logic of the single-level Swing platformer in
`prueba/src/main/java/org/example/Main.java`. The player is a 40 x 50 box in
an 800 x 600 window with y growing downwards. Every 16 ms a timer tick runs
two updates, the player's and then the enemy's:

- The player moves 5 pixels per held arrow key, and gravity adds 1 to its
  vertical velocity before it is integrated into its position.
- A falling player lands on the first of four fixed platforms that its moved
  rectangle overlaps.
- Touching the patrolling enemy shows "You lost!" and touching the flag shows
  "You Win!". Both dialogs reset the player to (100, 500) at rest.
- The window floor stops the player at y = 550.
- The enemy walks 2 pixels per tick and turns around outside x in [400, 700].

The key listener sets and clears the arrow flags. Space makes the player jump
(velocity -15), but only while it is on the ground.

The project has four files:

- `geometry.dfy` (module `Geometry`): the integer rectangle and
  `java.awt.Rectangle.intersects` as a predicate.
- `physics.dfy` (module `Physics`): the constants, the whole mutable state as
  a value `State`, and one function per update. These are the player update
  `PlayerStep` with its stages (`MovedRect`, `Moved`, `Land`, `Outcomes`,
  `Reset`, `Unclamped`, `ClampToFloor`), `EnemyStep`, `Tick`, `KeyPressed`
  and `KeyReleased`. It also holds a sequence of listener events `Run` and the
  invariant `Inv`.
- `properties.dfy` (module `Properties`): lemmas that state what these
  updates promise.
- `game.dfy` (module `Platformer`): the class `Game`, which has the Java
  panel's fields and updates them in place. Each method is proved to leave
  `Snapshot()` equal to the matching `Physics` function of the old snapshot.
  `UpdatePlayer` keeps the source's `for` loop over the platforms and checks
  it with a loop invariant.

The two message dialogs are returned by `UpdatePlayer` and `ActionPerformed`
as a sequence of `Outcome`s (`Lost`, then `Won`), each followed by the reset.

## Behaviour worth knowing

- A jump changes only `velocityY` and leaves `onGround` set until the next
  tick, so pressing Space twice before a tick is the same as pressing it once.
- There is no horizontal clamp: the player can walk out of the window.

Verifying the model also shows something the code only implies
(`Properties.LostAndWonExclusive`). Both dialogs are checked on the same
pre-landing rectangle, so the code allows both in one tick. With this level's
geometry that never happens: the enemy walks at y = 520, 240 pixels below
the flag's bottom edge, and the player is 50 pixels tall.

## Model

| member | source | states |
|---|---|---|
| `Geometry.IntersectsIffSharedCell` | prueba/src/main/java/org/example/Main.java:76-80 | The overlap test used for every collision holds exactly when some unit cell lies inside both rectangles. It is false for empty rectangles and for rectangles that only share an edge. |
| `Physics.FirstHit` | prueba/src/main/java/org/example/Main.java:79-87 | Finds the index of the first platform, in array order, that the player's rectangle intersects. No platform before it intersects. `None` exactly when no platform intersects. |
| `Physics.FirstHitIsFirst` | prueba/src/main/java/org/example/Main.java:79-87 | A platform that is hit, with none hit before it, is the one `FirstHit` finds. |
| `Physics.LandOneMore` | prueba/src/main/java/org/example/Main.java:79-87 | One loop iteration: platform i snaps the player to its top exactly when the player is still falling and its moved rectangle meets platform i. After a landing, velocity 0 makes every later platform a no-op. |
| `Properties.HorizontalMove` | prueba/src/main/java/org/example/Main.java:67-69 | Unless a dialog resets the player, x changes by +5 with only right held, by -5 with only left held, and by 0 with both or neither. There is no clamp. |
| `Properties.FreeFlight` | prueba/src/main/java/org/example/Main.java:71-74 | With no landing, reset or floor contact, the velocity becomes v+1 and y advances by v+1. `onGround` is false and there is no terminal-velocity cap. |
| `Properties.RisingPassesThrough` | prueba/src/main/java/org/example/Main.java:78-87 | While the velocity after gravity is at most 0, the platform stage changes nothing, in every tick, so a rising player passes through platforms. With no dialog and the player not below the floor, y and the velocity end as the gravity step left them. |
| `Properties.LandsOnFirstPlatform` | prueba/src/main/java/org/example/Main.java:79-87 | A falling player whose moved rectangle meets platform k, and no earlier platform, ends with y = top of k - 50, velocity 0 and `onGround`. |
| `Properties.FloorBound` | prueba/src/main/java/org/example/Main.java:101-106 | After the player update y <= 550. When the clamp fires, the player is at 550 with velocity 0 and `onGround`; otherwise the clamp changes nothing. |
| `Properties.RestingStaysPut` | prueba/src/main/java/org/example/Main.java:79-87 | A player at rest on top of a platform, and still over it after the horizontal move, keeps its y and velocity 0 and stays grounded, and no other platform meets its moved rectangle. |
| `Properties.OutcomesOnMovedRect` | prueba/src/main/java/org/example/Main.java:89-99 | "Lost" is shown exactly when the rectangle before the landing snap meets the enemy. "Won" is shown exactly when that rectangle meets the flag. The order is Lost then Won, and both may appear. |
| `Properties.DialogResets` | prueba/src/main/java/org/example/Main.java:89-99 | After a dialog the player is at (100, 500) with velocity 0, whatever the landing did. `onGround` keeps the landing's value, and the keys and the enemy are unchanged. |
| `Properties.LostAndWonExclusive` | prueba/src/main/java/org/example/Main.java:89-99 | In every state that keeps the invariant (enemy at y = 520, 40 pixels tall), at most one dialog is shown per tick. |
| `Properties.EnemyMoves` | prueba/src/main/java/org/example/Main.java:110-115 | In every state the enemy moves by exactly its direction; y, width and height are unchanged; it heads right below 400, left above 700, and keeps its direction inside [400, 700]. |
| `Properties.EnemyPatrol` | prueba/src/main/java/org/example/Main.java:110-115 | The patrol invariant is kept: 398 <= x <= 702, direction +-2, heading right below 400 and left above 700. |
| `Properties.JumpGating` | prueba/src/main/java/org/example/Main.java:154-156 | Space sets the velocity to -15 if and only if the player is on the ground. Otherwise the velocity is unchanged, and no other field changes in either case. |
| `Properties.KeysIdempotent` | prueba/src/main/java/org/example/Main.java:150-163 | Pressing or releasing a key twice before a tick has the same effect as doing it once. |
| `Properties.ArrowFlags` | prueba/src/main/java/org/example/Main.java:150-163 | The left and right keys set (on press) or clear (on release) their own flag and nothing else. Any other key except Space changes nothing. |
| `Properties.TickKeepsInv` | prueba/src/main/java/org/example/Main.java:59-63 | A tick keeps the invariant: the enemy's patrol bounds, its fixed y and size, and the player not below the floor. |
| `Properties.KeysKeepInv` | prueba/src/main/java/org/example/Main.java:150-163 | Key presses and releases keep the invariant. |
| `Properties.RunKeepsInv` | prueba/src/main/java/org/example/Main.java:58-63 | Any interleaving of timer ticks and key events keeps the invariant. |
| `Properties.ReachableInv` | prueba/src/main/java/org/example/Main.java:12-38 | Every state reached from the initial fields keeps the invariant: the enemy patrol stays bounded and the player never rests below the floor. |
| `Platformer.Game.constructor` | prueba/src/main/java/org/example/Main.java:12-38 | The fields start at the initial values: player at (100, 500) at rest and not grounded, no key held, enemy at (600, 520) heading left. These satisfy the invariant. |
| `Platformer.Game.ActionPerformed` | prueba/src/main/java/org/example/Main.java:59-63 | A tick runs the player update and then the enemy update, returns the dialogs shown, keeps the invariant, and shows at most one dialog. |
| `Platformer.Game.UpdatePlayer` | prueba/src/main/java/org/example/Main.java:66-107 | The in-place update, including the loop over the platforms, leaves exactly the state `PlayerStep` prescribes and returns its dialogs. y ends at most 550 and the enemy is untouched. |
| `Platformer.Game.UpdateEnemy` | prueba/src/main/java/org/example/Main.java:110-115 | The in-place enemy update leaves exactly the state `EnemyStep` prescribes and keeps the patrol invariant. |
| `Platformer.Game.ResetGame` | prueba/src/main/java/org/example/Main.java:117-121 | Sets x = 100, y = 500 and velocity 0, and leaves `onGround`, both key flags, the enemy and its direction unchanged. |
| `Platformer.Game.KeyPressed` | prueba/src/main/java/org/example/Main.java:150-157 | Sets the pressed arrow's flag. Space jumps only when grounded. The result is exactly `Physics.KeyPressed`, and the invariant is kept. |
| `Platformer.Game.KeyReleased` | prueba/src/main/java/org/example/Main.java:160-163 | Clears the released arrow's flag. The result is exactly `Physics.KeyReleased`, and the invariant is kept. |

## Left out

- The window width `WIDTH` (800) only sizes the frame and is not a constant of the model.
- Window and timer set-up (`Main.java:44-55`), `repaint`, `paintComponent` (`Main.java:124-146`), the empty `keyTyped` and `main`: these are user interface and scheduling with no game logic. A tick is one call of `ActionPerformed`, and the 16 ms cadence is not modelled.
- The modal `JOptionPane` dialogs are returned as `Outcome` values, each treated as returning at once. In the program, `actionPerformed` waits inside the dialog. Because `javax.swing.Timer` coalesces its events by default (`Main.java:44` does not turn this off), no further tick runs meanwhile, and the tick goes on with `resetGame` once the dialog closes. Key events go to the focused dialog, so an arrow released while it is open is never seen by `keyReleased` and its flag stays set: in the model, that is an event sequence without that `Release`. `Properties.DialogResets`, `Properties.LostAndWonExclusive` and `Platformer.Game.ActionPerformed` therefore describe a single uninterrupted tick.
- `SoundManager.java`: audio loading and playback through `javax.sound.sampled` is I/O behind a library; SoundManager.java is not part of this model.
- Key codes: `KeyEvent.getKeyCode()` is abstracted to the enumeration `Key` (`Left`, `Right`, `Space`, `OtherKey`).
- Java's 32-bit `int` arithmetic: positions, velocities and the sums inside `Rectangle.intersects` are unbounded integers. The overflow guards inside `java.awt.Rectangle.intersects` are therefore vacuous and omitted. Wrap-around after very many ticks of walking in one direction is not modelled.
- The `enemy` rectangle is a mutable `java.awt.Rectangle` object in the source. It is modelled as a value field that `UpdateEnemy` reassigns. It is never shared, so no aliasing is lost.
- `playerW`, `playerH`, `playerSpeed`, `gravity` and `jumpStrength` are non-final instance fields in the source that nothing writes. `platforms` and `flag` are instance fields that nothing reassigns or mutates. All of these are modelled as constants.
