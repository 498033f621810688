/** The audio source component as the pool drives it: the attributes it has when added to the container,
    and the effect of each transport command on them. Audio output itself is not modelled. */
module Device {
  import opened AudioTypes

  /** A source just added to the container: full volume, unmuted, not looping, stopped at the start, no clip. */
  const Fresh: Source := Source(None, 1.0, false, false, Stopped, 0.0)

  predicate IsPlaying(s: Source) {
    s.playback == Playing
  }

  /** The output a source of a pool must have: the pool volume scaled by the master volume,
      and muted when either the pool or the master is muted. */
  predicate HasOutput(s: Source, pool: Settings, master: Settings) {
    s.volume == pool.volume * master.volume && s.mute == (pool.mute || master.mute)
  }

  /** Pushes a pool's effective output to a source; nothing but volume and mute changes. */
  function Configure(s: Source, pool: Settings, master: Settings): (r: Source)
    ensures HasOutput(r, pool, master)
    ensures r.(volume := s.volume, mute := s.mute) == s
  {
    s.(volume := pool.volume * master.volume, mute := pool.mute || master.mute)
  }

  /** Starts playback from the beginning. */
  function Play(s: Source): Source {
    s.(playback := Playing, time := 0.0)
  }

  /** Pauses a playing source, keeping its position; any other source is left as it is. */
  function Pause(s: Source): Source {
    if s.playback == Playing then s.(playback := Paused) else s
  }

  /** Continues a paused source from its position; any other source is left as it is. */
  function UnPause(s: Source): Source {
    if s.playback == Paused then s.(playback := Playing) else s
  }

  /** Stops playback and rewinds to the start. */
  function Stop(s: Source): Source {
    s.(playback := Stopped, time := 0.0)
  }
}
