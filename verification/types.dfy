/** Values shared by every part of the audio model: clips, sources, their attributes and the volume/mute settings. */
module AudioTypes {

  datatype Option<+T> = None | Some(value: T)

  /** The one error the pool raises: a volume outside [0, 1]. */
  datatype Error = ArgumentOutOfRange

  datatype Result<+T> = Success(value: T) | Failure(error: Error)

  /** A loaded audio clip. Clips are compared by identity in the C# implementation; `id` stands for that identity and
      `name` is the clip's own name, which `CurrentMusic` reports. */
  datatype Clip = Clip(id: nat, name: string)

  /** An audio source: either one the manager added to its own container (numbered in creation order),
      or one a caller owns and registers with a pool. */
  datatype SourceId = Created(n: nat) | External(n: nat)

  /** The transport state of a source; `isPlaying` holds exactly in `Playing`. */
  datatype Playback = Stopped | Playing | Paused

  /** The attributes of a source that the pool sets or reads. */
  datatype Source = Source(clip: Option<Clip>, volume: real, mute: bool, loop: bool, playback: Playback, time: real)

  /** A volume and mute pair: one per pool, and the manager-level master pair. */
  datatype Settings = Settings(volume: real, mute: bool)
}
