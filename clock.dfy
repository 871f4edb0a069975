/**
 * The scene clock's looping timer events. Every event the coin catcher adds
 * loops, so an event is live from the moment it is added until it is removed.
 */
module Clock {

  /** The scene methods the clock calls back. */
  datatype Callback = SpawnCoin | DecreaseSpawnDelay

  datatype TimerEvent = TimerEvent(delay: real, callback: Callback)

  /** The ids of the live events that call `callback`. */
  function TimersFor(events: map<nat, TimerEvent>, callback: Callback): (ids: set<nat>)
    ensures ids <= events.Keys
  {
    set id | id in events && events[id].callback == callback
  }

  /** The two callbacks split the clock: every live event is either a spawn timer or a decay timer, never both. */
  lemma TimersPartition(events: map<nat, TimerEvent>)
    ensures TimersFor(events, SpawnCoin) !! TimersFor(events, DecreaseSpawnDelay)
    ensures TimersFor(events, SpawnCoin) + TimersFor(events, DecreaseSpawnDelay) == events.Keys
  {
  }
}
