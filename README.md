# Coin catcher: a Dafny model of the game session

The game is a single Phaser scene, `CoinCatcher`. Coins fall from the top of an
800 × 600 field. The player drags a cup sideways to catch them. Each catch adds
one to the score and raises the fill drawn inside the cup. A coin that reaches
the floor ends the game. A looping decay timer shrinks the delay between coin
spawns every 5 seconds, and it shrinks faster once the score reaches 400.

The model keeps the scene's logic and leaves drawing, sound and physics to the
engine:

- `Scene.CoinCatcher` is a class holding the fields the scene updates in place:
  - the score, the game-over latch and the spawn delay;
  - the spawn-timer slot;
  - the scene clock's live looping events, a map from event id to delay and callback;
  - the live coins, a map from coin id to creation values and "body enabled" flag;
  - the cup's x position and the fill's resting height.

  Each engine callback is a method:
  - `StartCoinSpawning`, `Update`, `SpawnCoin` and `DecreaseSpawnDelay` are timer or frame callbacks;
  - `CollectCoin` and `CoinHitFloor` are the physics events;
  - `FinishCapture` is the end of the capture animation;
  - `PointerMove` is the pointer handler.

  `Valid()` is the scene invariant. It holds these facts:
  - the spawn delay lies in [300, 1000];
  - the fill rests at `min(score/500·100, 100)`;
  - the cup lies in [50, 750];
  - every coin was created inside the spawn band;
  - once the game is over, the clock and the coin group are empty;
  - while the game runs there is at most one spawn timer and it runs at the current delay;
  - while the game runs there is exactly one decay timer.
- `Difficulty` is the spawn-rate curve and the decay step, with lemmas about repeated decay ticks at scores that may change from tick to tick.
- `FillLevel` is the fill's resting height and the fill trapezoid's geometry.
- `CupInput` is the pointer clamp.
- `Clock` holds the timer events. `Options` holds the optional value used for the `null`-able timer slot.

Numbers are exact `real`s. The Dafny constructor stands for the scene's
constructor followed by the logic of `create()`: the cup at x 400, an empty
fill, a spawn timer at 1000 ms and the 5000 ms decay timer.

The model follows the code as written, including these details:
- A coin reaching the floor ends the game only while `score < 500`. From 500 on, the contact does nothing, and the coin is not destroyed (game.js:196).
- `collectCoin` has no game-over guard. After game over the coin group is empty, so no capture can be reported then, and the model's precondition (a live coin) states exactly that.
- The scene keeps `currentSpawnTimer` pointing at the removed timer after game over. The model keeps the id in the slot in the same way.

## Model

| member | source | states |
|---|---|---|
| `Difficulty.ReductionRate` | game.js:213-220 | the rate is 0.98 below a score of 400, at most 0.98 everywhere, and between 0.75 and 0.85 for scores 400 to 500 |
| `Difficulty.RateStrictlyDecreasing` | game.js:215-217 | from a score of 400 on, the rate falls by exactly 0.001 per point of score, so it is strictly decreasing there |
| `Difficulty.RateExamples` | game.js:213-220 | the rate is 0.98 at 0 and 399, 0.85 at 400, 0.80 at 450 and 0.75 at 500 |
| `Difficulty.NextSpawnDelay` | game.js:222 | the new delay is the larger of 300 and the old delay times the rate; it is never below 300, and it is strictly smaller than an old delay above 300 (by at least 2% unless it hits the floor) |
| `Difficulty.SpawnDelayAfter` | game.js:211-224 | after a run of decay ticks, each at the score the game had at that tick, the delay stays between 300 and the starting delay |
| `Difficulty.DecayBound` | game.js:211-222 | after n ticks at any sequence of scores, the delay is at the floor or at least 6·n below where it started |
| `Difficulty.DecayReachesFloor` | game.js:211-222 | for any sequence of scores, even one that changes between ticks, a delay d is exactly 300 after any number of ticks k with 6·k ≥ d − 300 |
| `Difficulty.SpawnDelayNonIncreasing` | game.js:211-222 | the delay after a run of ticks is at most the delay after any prefix of that run: ticks never raise it |
| `Difficulty.SpawnDelayScenario` | game.js:211-222 | 1000 at score 0 becomes 980; 980 at score 400 becomes 833; 833 at score 450 becomes 666.4; 310 at score 450 hits the floor of 300; the 6 ms bound puts the initial 1000 at score 0 at 300 within 117 ticks (with exact rates the floor is in fact reached at tick 60) |
| `FillLevel.FillTarget` | game.js:181-185 | the fill target lies in [0, 100]; it is proportional to the score (score/500 of the cup) up to 500 coins and full from then on; it is positive exactly when the score is |
| `FillLevel.FillTargetMonotone` | game.js:177-185 | a higher score never gives a lower fill target |
| `FillLevel.FillTargetExamples` | game.js:181-185 | scores 0, 250, 500 and 750 give fill targets 0, 50, 100 and 100 |
| `FillLevel.FillShape` | game.js:229-243 | a shape exists exactly when the height is positive; its bottom edge is 60 wide at cupY+50; its top edge is `height` above that; both edges are centred on the cup x; for heights up to 100 the top width lies in (60, 140] |
| `FillLevel.FillFollowsCupWalls` | game.js:230-243 | the fill's bottom corners are the bottom corners of the cup outline drawn at game.js lines 40-52; its top corners lie on the cup's slanted walls, height/100 of the way up; at height 100 the fill is the whole outline |
| `FillLevel.FillWidensWithHeight` | game.js:233-234 | a higher fill has a strictly wider top edge |
| `Clock.TimersPartition` | game.js:103-108 | every live clock event calls back exactly one of spawnCoin (game.js:135-140) and decreaseSpawnDelay (game.js:103-108): the two id sets are disjoint and together cover the clock |
| `CupInput.ClampCupX` | game.js:92 | the cup x lies in [50, 750]; it equals the pointer x inside that range, 50 left of it and 750 right of it |
| `CupInput.ClampIdempotent` | game.js:92 | clamping a clamped position changes nothing |
| `CupInput.ClampMonotone` | game.js:92 | moving the pointer right never moves the cup left |
| `Scene.CoinCatcher.constructor` | game.js:2-10 | the scene starts with score 0, the game running and the spawn delay at 1000; the cup is at x 400 with an empty fill and no coins; there is exactly one spawn timer, at 1000 ms, and exactly one decay timer, at 5000 ms |
| `Scene.CoinCatcher.ClockWhileRunning` | game.js:99-108 | while the game runs with its spawn timer started, the clock holds exactly two events: the spawn timer at the current spawn delay and the 5000 ms decay timer |
| `Scene.CoinCatcher.StartCoinSpawning` | game.js:129-141 | the timer in the slot is removed first; then exactly one spawn timer is live, with a fresh id and the current spawn delay; no other event changes |
| `Scene.CoinCatcher.Update` | game.js:119-127 | while the game runs, afterwards exactly one spawn timer is live at the current delay; a timer is added only when the slot was empty, and nothing changes otherwise |
| `Scene.CoinCatcher.SpawnCoin` | game.js:143-158 | while the game runs, exactly one coin is added: under a fresh id, at (x, 0), with the given x velocity and its body enabled; after game over the coin group stays as it is (empty) |
| `Scene.CoinCatcher.CollectCoin` | game.js:160-192 | the score goes up by exactly 1; that coin's body is disabled and nothing else in the coin group changes; the fill rests at the fill target of the new score; the game is still running |
| `Scene.CoinCatcher.FinishCapture` | game.js:171-173 | the captured coin leaves the group; a coin already gone is a no-op |
| `Scene.CoinCatcher.CoinHitFloor` | game.js:195-209 | while the game runs with a score below 500, the game ends and all coins and timers are removed; otherwise nothing changes, and a repeated report after game over is a no-op; the latch is never reset |
| `Scene.CoinCatcher.DecreaseSpawnDelay` | game.js:211-225 | while the game runs and the delay is above 300, the delay becomes `NextSpawnDelay` of the old delay, strictly smaller and at least 300; the spawn timer is restarted at once as the only spawn timer, at the new delay; otherwise nothing changes |
| `Scene.CoinCatcher.PointerMove` | game.js:90-96 | while the game runs, the cup moves to the clamped pointer x; after game over the cup stays put |
| `Scene.CoinCatcher.FillGraphic` | game.js:227-247 | the fill is drawn exactly when the score is positive; its top width lies in (60, 140]; it is centred on the cup and stays within the cup's range widened by half the rim |

## Left out

- Drawing: graphics paths, colours, depth layers, the camera, the score text and the "Game Over!" text (game.js:22-52, 84-87, 204-207, 238-245). `FillGraphic` gives the fill shape that would be drawn.
- Asset loading and sound (game.js:12-16, 20, 156, 176). They have no effect on the logic.
- The arcade physics engine: gravity, bounce, drag, world bounds, body sizes and offsets, and overlap and collider detection (game.js:57-68, 76-81, 111-116, 148-154). Its reports become calls to `CollectCoin` and `CoinHitFloor`, whose preconditions say what the engine guarantees: the coin is live and its body is enabled.
- Coin positions and velocities after creation: a `Coin` keeps only the values it was created with.
- The random draws of `Phaser.Math.Between`: they are the integer parameters of `SpawnCoin`, bounded as the engine bounds them.
- The tweens (game.js:163-174, 183-191). The fill is modelled at rest: `CollectCoin` sets it to its target at once. The delayed `coin.destroy()` is the separate step `FinishCapture`. The per-frame quadratic easing and the coin's shrinking and fading are not modelled.
- The order in which the clock fires its events within a frame, and timer periods as elapsed time: the clock is the set of live events with their delays.
- The `console.log` and the hitbox sync in `update` (game.js:120-122), and the `Phaser.Game` bootstrap configuration (game.js:250-265).
- The scene state before `create()` runs: the constructor models both together.
- JavaScript's floating-point rounding: the model computes with exact reals. For example, 980 × 0.85 is exactly 833 here.
