/**
 * The coin catcher scene: the session state the engine's callbacks update in
 * place. Drawing, sound and physics are the engine's; the physics events
 * reach the scene as calls to CollectCoin and CoinHitFloor.
 */
module Scene {
  import opened Options
  import opened Clock
  import opened Difficulty
  import opened FillLevel
  import opened CupInput

  /** The cup's anchor height; the cup only ever moves sideways. */
  const CupY: real := 500.0
  /** The cup's anchor x when the scene is created. */
  const InitialCupX: real := 400.0

  /**
   * A coin of the scene's group, with the position and horizontal velocity it
   * was created with (the physics engine moves it afterwards) and whether its
   * physics body is still enabled, that is, whether it has not been captured.
   */
  datatype Coin = Coin(x: int, y: int, velocityX: int, bodyEnabled: bool)

  /** A coin as spawnCoin creates it: at the top of the field, inside the spawn band, drifting slowly. */
  predicate Spawnable(c: Coin) {
    100 <= c.x <= 700 && c.y == 0 && -50 <= c.velocityX <= 50
  }

  class CoinCatcher {
    var score: nat
    var gameOver: bool
    var spawnDelay: real
    /** The id of the spawn timer last added; like the scene's field it is kept after the timer is removed. */
    var currentSpawnTimer: Option<nat>
    /** The scene clock's live looping events, by id. */
    var events: map<nat, TimerEvent>
    var nextEventId: nat
    /** The id of the looping decay timer added when the scene was created. */
    ghost var decayTimer: nat
    /** The live coins of the group, by id. */
    var coins: map<nat, Coin>
    var nextCoinId: nat
    var cupX: real
    /** The height the fill rests at once its animation has finished. */
    var fillHeight: real

    /** The spawn timers live while the game runs: the one in the slot, if any. */
    ghost function SlotTimers(): set<nat>
      reads this
    {
      if currentSpawnTimer.Some? then {currentSpawnTimer.value} else {}
    }

    /**
     * The scene's invariant, except that the spawn timer in the slot may still
     * run at an older delay: the state between setting a new spawn delay and
     * restarting the spawn timer.
     */
    ghost predicate ValidUpToSpawnTimer()
      reads this
    {
      && MinSpawnDelay <= spawnDelay <= InitialSpawnDelay
      && fillHeight == FillTarget(score)
      && CupMinX <= cupX <= CupMaxX
      && (forall id :: id in events ==> id < nextEventId)
      && (forall id :: id in coins ==> id < nextCoinId && Spawnable(coins[id]))
      // once the game is over the clock is empty and so is the coin group
      && (gameOver ==> events == map[] && coins == map[])
      // while it runs there is at most one spawn timer, the one in the slot, at the current delay
      && (!gameOver ==> TimersFor(events, Callback.SpawnCoin) == SlotTimers())
      && (!gameOver && currentSpawnTimer.Some? ==> currentSpawnTimer.value in events)
      // and exactly one decay timer
      && (!gameOver ==>
            && TimersFor(events, Callback.DecreaseSpawnDelay) == {decayTimer}
            && decayTimer in events && events[decayTimer].delay == DecayTickDelay)
    }

    /** The scene's invariant: the one above, with the spawn timer running at the current spawn delay. */
    ghost predicate Valid()
      reads this
    {
      && ValidUpToSpawnTimer()
      && (!gameOver && currentSpawnTimer.Some? ==> events[currentSpawnTimer.value].delay == spawnDelay)
    }

    /** Exactly one spawn timer is live, it is the one in the slot, and it fires at the current spawn delay. */
    ghost predicate SpawningOnce()
      reads this
    {
      && currentSpawnTimer.Some?
      && TimersFor(events, Callback.SpawnCoin) == {currentSpawnTimer.value}
      && currentSpawnTimer.value in events
      && events[currentSpawnTimer.value].delay == spawnDelay
    }

    /**
     * While the game runs with its spawn timer started, the clock holds
     * exactly two events: the spawn timer at the current spawn delay and the
     * decay timer at 5000 ms.
     */
    lemma ClockWhileRunning()
      requires Valid() && !gameOver && currentSpawnTimer.Some?
      ensures currentSpawnTimer.value != decayTimer
      ensures events == map[currentSpawnTimer.value := TimerEvent(spawnDelay, Callback.SpawnCoin),
                             decayTimer := TimerEvent(DecayTickDelay, Callback.DecreaseSpawnDelay)]
    {
      TimersPartition(events);
      var slot := currentSpawnTimer.value;
      assert slot in TimersFor(events, Callback.SpawnCoin);
      assert decayTimer in TimersFor(events, Callback.DecreaseSpawnDelay);
      assert events.Keys == {slot, decayTimer};
    }

    /**
     * The scene as its constructor and create() leave it: score 0, a spawn
     * timer at 1000 ms, the 5000 ms decay timer, the cup at x 400, an empty fill.
     */
    constructor ()
      ensures Valid() && SpawningOnce()
      ensures score == 0 && !gameOver && spawnDelay == InitialSpawnDelay
      ensures cupX == InitialCupX && fillHeight == 0.0 && coins == map[]
      ensures TimersFor(events, Callback.DecreaseSpawnDelay) == {decayTimer}
    {
      score := 0;
      gameOver := false;
      spawnDelay := InitialSpawnDelay;
      cupX := InitialCupX;
      fillHeight := 0.0;
      coins := map[];
      nextCoinId := 0;
      // startCoinSpawning() with an empty slot, then the looping decay timer
      currentSpawnTimer := Some(0);
      events := map[0 := TimerEvent(InitialSpawnDelay, Callback.SpawnCoin), 1 := TimerEvent(DecayTickDelay, Callback.DecreaseSpawnDelay)];
      decayTimer := 1;
      nextEventId := 2;
    }

    /** Removes the spawn timer in the slot, if any, and adds a fresh one at the current spawn delay. */
    method StartCoinSpawning()
      requires ValidUpToSpawnTimer() && !gameOver
      modifies this`events, this`currentSpawnTimer, this`nextEventId
      ensures Valid() && SpawningOnce()
      ensures currentSpawnTimer.value !in old(events)
      ensures events == (if old(currentSpawnTimer).Some? then old(events) - {old(currentSpawnTimer).value} else old(events))
                          [currentSpawnTimer.value := TimerEvent(spawnDelay, Callback.SpawnCoin)]
    {
      if currentSpawnTimer.Some? {
        events := events - {currentSpawnTimer.value};
      }
      assert TimersFor(events, Callback.SpawnCoin) == {};
      var id := nextEventId;
      nextEventId := nextEventId + 1;
      events := events[id := TimerEvent(spawnDelay, Callback.SpawnCoin)];
      currentSpawnTimer := Some(id);
    }

    /** The per-frame self-heal: while the game runs and no spawn timer was ever added, start one. */
    method Update()
      requires Valid()
      modifies this`events, this`currentSpawnTimer, this`nextEventId
      ensures Valid()
      ensures !gameOver ==> SpawningOnce()
      ensures gameOver || old(currentSpawnTimer).Some? ==>
                events == old(events) && currentSpawnTimer == old(currentSpawnTimer)
    {
      if !gameOver && currentSpawnTimer.None? {
        StartCoinSpawning();
      }
    }

    /**
     * The spawn timer's callback: while the game runs, one coin enters the
     * group at (x, 0) with horizontal velocity velocityX, both drawn at random
     * by the engine from [100, 700] and [-50, 50].
     */
    method SpawnCoin(x: int, velocityX: int)
      requires Valid()
      requires 100 <= x <= 700 && -50 <= velocityX <= 50
      modifies this`coins, this`nextCoinId
      ensures Valid()
      ensures old(gameOver) ==> coins == old(coins)
      ensures !old(gameOver) ==>
                && old(nextCoinId) !in old(coins)
                && coins == old(coins)[old(nextCoinId) := Coin(x, 0, velocityX, true)]
    {
      if !gameOver {
        var id := nextCoinId;
        nextCoinId := nextCoinId + 1;
        coins := coins[id := Coin(x, 0, velocityX, true)];
      }
    }

    /**
     * The cup overlapped coin `id`: its body is switched off so it cannot be
     * caught twice, the score goes up by one and the fill moves to its new
     * resting height. The physics engine only reports live coins with an
     * enabled body, which also means the game is still running.
     */
    method CollectCoin(id: nat)
      requires Valid()
      requires id in coins && coins[id].bodyEnabled
      modifies this`coins, this`score, this`fillHeight
      ensures Valid() && !gameOver
      ensures score == old(score) + 1
      ensures coins == old(coins)[id := old(coins)[id].(bodyEnabled := false)]
      ensures fillHeight == FillTarget(score)
    {
      coins := coins[id := coins[id].(bodyEnabled := false)];
      score := score + 1;
      fillHeight := FillTarget(score);
    }

    /** The capture animation has finished: coin `id` is destroyed; destroying a coin already gone does nothing. */
    method FinishCapture(id: nat)
      requires Valid()
      requires id in coins ==> !coins[id].bodyEnabled
      modifies this`coins
      ensures Valid()
      ensures coins == old(coins) - {id}
    {
      coins := coins - {id};
    }

    /**
     * Coin `id` reached the floor. While the game runs and the score is below
     * MaxCoins this ends the game for good: the coin and every other coin are
     * destroyed and every timer is removed. Otherwise nothing changes, not even
     * the coin. The engine reports live coins with an enabled body; a report
     * arriving after the game ended (a second contact in the same frame) is
     * also allowed.
     */
    method CoinHitFloor(id: nat)
      requires Valid()
      requires !gameOver ==> id in coins && coins[id].bodyEnabled
      modifies this`gameOver, this`coins, this`events
      ensures Valid()
      ensures old(!gameOver && score < MaxCoins) ==> gameOver && coins == map[] && events == map[]
      ensures !old(!gameOver && score < MaxCoins) ==>
                gameOver == old(gameOver) && coins == old(coins) && events == old(events)
    {
      if !gameOver && score < MaxCoins {
        gameOver := true;
        coins := coins - {id};
        if currentSpawnTimer.Some? {
          events := events - {currentSpawnTimer.value};
        }
        events := map[];
        coins := map[];
      }
    }

    /**
     * The decay timer's callback: while the game runs and the spawn delay is
     * above its floor, the delay shrinks by the rate for the current score and
     * the spawn timer is restarted at once with the new delay.
     */
    method DecreaseSpawnDelay()
      requires Valid()
      modifies this`spawnDelay, this`events, this`currentSpawnTimer, this`nextEventId
      ensures Valid()
      ensures old(!gameOver && spawnDelay > MinSpawnDelay) ==>
                && spawnDelay == NextSpawnDelay(old(spawnDelay), score)
                && spawnDelay < old(spawnDelay)
                && SpawningOnce()
                && currentSpawnTimer.value !in old(events)
      ensures !old(!gameOver && spawnDelay > MinSpawnDelay) ==>
                && spawnDelay == old(spawnDelay)
                && events == old(events) && currentSpawnTimer == old(currentSpawnTimer)
    {
      if !gameOver && spawnDelay > MinSpawnDelay {
        spawnDelay := NextSpawnDelay(spawnDelay, score);
        StartCoinSpawning();
      }
    }

    /** The pointer moved to pointerX: while the game runs the cup follows it, clamped to the field. */
    method PointerMove(pointerX: real)
      requires Valid()
      modifies this`cupX
      ensures Valid()
      ensures !gameOver ==> cupX == ClampCupX(pointerX)
      ensures gameOver ==> cupX == old(cupX)
    {
      if !gameOver {
        cupX := ClampCupX(pointerX);
      }
    }

    /**
     * The fill shape updateFillLevel draws for the current state: present
     * exactly when at least one coin has been caught, never wider than the
     * cup's rim and centred on the cup.
     */
    function FillGraphic(): (shape: Option<Trapezoid>)
      reads this
      requires Valid()
      ensures shape.Some? <==> score > 0
      ensures shape.Some? ==>
                && BottomWidth < shape.value.TopWidth() <= CupWidth
                && shape.value.topLeft.x + shape.value.topRight.x == 2.0 * cupX
                && CupMinX - CupWidth / 2.0 <= shape.value.topLeft.x
                && shape.value.topRight.x <= CupMaxX + CupWidth / 2.0
    {
      FillShape(cupX, CupY, fillHeight)
    }
  }

  /** The first decay tick of a session, then a coin that is spawned, caught and finally destroyed. */
  method CaptureScenario()
  {
    var scene := new CoinCatcher();
    scene.DecreaseSpawnDelay();
    assert scene.spawnDelay == 980.0;
    var caught := scene.nextCoinId;
    scene.SpawnCoin(400, -20);
    scene.CollectCoin(caught);
    assert scene.score == 1 && scene.fillHeight == 0.2;
    scene.FinishCapture(caught);
    assert caught !in scene.coins;
  }

  /**
   * A coin reaches the floor twice in the same frame: the first report ends
   * the game, the second and every later callback change nothing.
   */
  method GameOverScenario()
  {
    var scene := new CoinCatcher();
    var missed := scene.nextCoinId;
    scene.SpawnCoin(120, 50);
    scene.CoinHitFloor(missed);
    assert scene.gameOver && scene.coins == map[] && scene.events == map[];
    scene.CoinHitFloor(missed);
    var cupX := scene.cupX;
    scene.PointerMove(700.0);
    scene.SpawnCoin(300, 0);
    scene.DecreaseSpawnDelay();
    scene.Update();
    assert scene.gameOver && scene.cupX == cupX && scene.coins == map[];
    assert scene.score == 0 && scene.spawnDelay == InitialSpawnDelay;
  }
}
