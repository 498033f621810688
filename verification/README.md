# Audio manager: pooled audio sources, volume cascade and music tracking

This project models the core of the audio manager of the UniT/TheOne audio package (`Scripts/AudioManager.cs`):
the nested `AudioPool` class and the `AudioManager` members that keep the master settings and track the current
music. The manager owns two pools, one for sounds and one for music. They share one queue of idle audio
sources and read one master volume/mute pair.

A pool keeps four things:

- a name cache from asset names to clips, filled through the asset loader;
- the bindings from loaded clips to the sources that play them;
- the set of sources registered by callers;
- its own volume and mute.

Loading a clip takes the source at the head of the shared idle queue, or adds a new source when the queue is
empty. Unloading stops the source, clears its clip and puts it at the back of the queue. Every bound or
registered source plays at the pool volume times the master volume, and it is muted when the pool or the
master is muted. The manager remembers the current music either as a clip or as a name, never both.

Everything is modelled as pure functions over immutable state:

- `AudioTypes` (types.dfy) holds the entities: clips, source ids, source attributes, settings, `Result`.
- `Device` (device.dfy) holds the audio source attributes and the effect of each transport command on them.
- `AudioPool` (pool.dfy) holds the pool operations. Each takes a pool, the shared state (idle queue, source
  attributes, loader logs) and the master settings, and returns a `Step` with the new pool and shared state.
- `AudioManager` (manager.dfy) holds the manager: two pools, shared state, master settings, current music.
- `PoolProofs`, `CascadeProofs` and `PoolProperties` hold the pool-level properties:
  - source conservation;
  - the volume/mute cascade;
  - load-once caching, reuse of idle sources, and the play/pause/time rules.
- `ManagerProofs` and `MusicProperties` hold the manager-level invariants and the music behaviour.

The asset loader is a parameter `catalog: string -> Clip`. Every call to it is appended to `Shared.loads`, and
every `Unload(name)` sent to it is appended to `Shared.unloads`. A source created by the container is
`Created(n)`, numbered in creation order. In a valid state a newly created source `Created(nextId)` is in no
idle queue and bound to no clip. A source a caller registers is `External(n)`.

The C# implementation relies on Unity's audio source for the meaning of its commands. The model assumes that meaning:

- `Play` starts from the beginning, whatever the state, a paused source included. Unity's documentation of
  `UnPause` describes `Play` on a paused source as resuming it; the model restarts it at 0 instead. Both
  `PoolProperties.ForcedPlayRestarts` and the restart of paused music by `AudioManager.PlayMusic` rest on
  this choice;
- `Pause` acts only on a playing source and keeps its position;
- `UnPause` acts only on a paused source;
- `Stop` stops the source and rewinds it;
- `PlayOneShot` leaves the source's playback state (`isPlaying`) and its position unchanged. The early return
  of `Play` at `Scripts/AudioManager.cs:404` depends on this, since a one-shot does not make the source count
  as playing.

It also assumes a newly added source is at volume 1, unmuted, not looping, stopped, with no clip.

The music tracking compares the new track with the current one only when both are of the same kind. A clip
that is current under a name is stopped when it is played by clip, and so is a current clip played by a
name cached for it. Playing it without `force` then restarts it from 0 instead of leaving it playing. The
lemmas `MusicProperties.PlayMusicRestartsClipCurrentByName` and
`MusicProperties.PlayMusicNameRestartsClipCurrentByClip` state this behaviour of the C# code.

## Model

| member | source | states |
|---|---|---|
| Device.Configure | Scripts/AudioManager.cs:526-530 | the source gets volume = pool volume × master volume and mute = pool mute or master mute; no other attribute changes |
| AudioPool.SetVolume | Scripts/AudioManager.cs:310-322 | fails with ArgumentOutOfRange exactly when the value is below 0 or above 1; otherwise the pool stores the value, keeps its mute, and every bound and registered source is configured; only volume and mute change, and only on the pool's own sources; no clip, queue or log changes |
| AudioPool.SetMute | Scripts/AudioManager.cs:324-332 | stores the flag, keeps the volume, and leaves every owned source configured; only volume and mute change, and only on the pool's own sources |
| AudioPool.ConfigureAll | Scripts/AudioManager.cs:345-349 | every bound and every registered source gets the pool's effective output; every other source is untouched; only volume and mute change |
| AudioPool.Register | Scripts/AudioManager.cs:334-338 | the source is configured and joins the registered set; no other source changes; a configured pool stays configured |
| AudioPool.Unregister | Scripts/AudioManager.cs:340-343 | the source leaves the registered set and keeps its attributes; a configured pool stays configured |
| AudioPool.Acquire | Scripts/AudioManager.cs:355 | the head of the idle queue, removed from it, when the queue is not empty; otherwise a new source `Created(nextId)` with the attributes of a new source, and `nextId` grows by one |
| AudioPool.Load | Scripts/AudioManager.cs:351-360 | a bound clip changes nothing; otherwise the clip is bound to the head of the idle queue, or to a new source when the queue is empty; that source is configured and holds the clip, keeps every other attribute of the queued or new source, and no other source changes |
| AudioPool.LoadName | Scripts/AudioManager.cs:362-366 | the name ends up cached and its clip bound; the loader is called for the name only when it was not cached; in both cases the result is `Load` of the cached clip on the pool with the name cached |
| AudioPool.CacheName | Scripts/AudioManager.cs:397 | the get-or-add on the name cache: a cached name changes nothing; otherwise the loader is called once and its clip cached |
| AudioPool.TryGetSource | Scripts/AudioManager.cs:542-547 | the clip's source exactly when the clip is bound, and nothing otherwise |
| AudioPool.TryGetClip | Scripts/AudioManager.cs:549-554 | the cached clip exactly when the name is cached, and nothing otherwise |
| AudioPool.GetOrLoadSource | Scripts/AudioManager.cs:532-540 | returns the clip's source, loading the clip first exactly as `Load` does when it is not bound |
| AudioPool.PlayOneShot | Scripts/AudioManager.cs:388-393 | loads the clip when needed and fires one one-shot on its source; the tracked playback state is untouched |
| AudioPool.PlayOneShotName | Scripts/AudioManager.cs:395-399 | caches the name when needed, loads its clip and fires one one-shot on that clip's source; cached or not, the result is `PlayOneShot` of the cached clip on the pool with the name cached, and the loader is called only on a miss |
| AudioPool.Play | Scripts/AudioManager.cs:401-408 | loads the clip when needed and always sets loop; an already playing source is left as it is unless `force`; otherwise playback restarts from 0; the source is playing afterwards and nothing else changes |
| AudioPool.PlayName | Scripts/AudioManager.cs:410-414 | cached or not, the result is `Play` of the cached clip on the pool with the name cached, so the `force` rule holds in both cases; the loader is called only on a miss |
| AudioPool.GetTime | Scripts/AudioManager.cs:416-420 | the position of the clip's source, or 0 when the clip is not bound |
| AudioPool.GetTimeName | Scripts/AudioManager.cs:422-426 | 0 when the name is not cached, otherwise `GetTime` of its clip |
| AudioPool.Transport | Scripts/AudioManager.cs:428-482 | a command on a clip changes only the clip's source, which receives the command; no change at all when the clip is not bound |
| AudioPool.TransportName | Scripts/AudioManager.cs:435-488 | a command on a name does nothing when the name is not cached, and is the command on its clip otherwise |
| AudioPool.TransportAll | Scripts/AudioManager.cs:454-493 | a command on all clips reaches every bound source and no other source; no binding, queue or log changes |
| AudioPool.SetTime | Scripts/AudioManager.cs:428-433 | sets the position of the clip's source and nothing else; no change at all when the clip is not bound |
| AudioPool.SetTimeName | Scripts/AudioManager.cs:435-439 | no change when the name is not cached, otherwise `SetTime` on its clip |
| AudioPool.Pause | Scripts/AudioManager.cs:441-446 | a playing source becomes paused at the same position; any other source is left as it is; no change when the clip is not bound |
| AudioPool.PauseName | Scripts/AudioManager.cs:448-452 | no change when the name is not cached, otherwise `Pause` on its clip |
| AudioPool.PauseAll | Scripts/AudioManager.cs:454-457 | pauses every bound source and touches no other source |
| AudioPool.Resume | Scripts/AudioManager.cs:459-464 | a paused source plays again from the same position; any other is left as it is; no change when the clip is not bound |
| AudioPool.ResumeName | Scripts/AudioManager.cs:466-470 | no change when the name is not cached, otherwise `Resume` on its clip |
| AudioPool.ResumeAll | Scripts/AudioManager.cs:472-475 | resumes every bound source and touches no other source |
| AudioPool.Stop | Scripts/AudioManager.cs:477-482 | the clip's source is stopped and rewound to 0, nothing else changes; no change when the clip is not bound |
| AudioPool.StopName | Scripts/AudioManager.cs:484-488 | no change when the name is not cached, otherwise `Stop` on its clip |
| AudioPool.StopAll | Scripts/AudioManager.cs:490-493 | stops every bound source and touches no other source |
| AudioPool.Unload | Scripts/AudioManager.cs:495-503 | the clip's source is stopped and rewound, loses its clip, goes to the back of the idle queue, and the binding is removed; no change when the clip is not bound |
| AudioPool.UnloadName | Scripts/AudioManager.cs:505-511 | for a cached name: its clip is unloaded, the loader is told to unload the name, and the name is forgotten; no change otherwise |
| AudioPool.UnloadAll | Scripts/AudioManager.cs:513-517 | afterwards no name is cached and no clip bound; every source that was bound is in the idle queue behind the ones already there, stopped, at 0 and without a clip; every other source keeps its attributes; no source is created, the loader is not called to load and no one-shot is recorded |
| AudioPool.UnloadNames | Scripts/AudioManager.cs:515 | unloading the names of a snapshot, in any order, removes exactly those names; a source whose clip lost its binding is queued, stopped, at 0 and without a clip, and no other source changes |
| AudioPool.UnloadClips | Scripts/AudioManager.cs:516 | unloading the clips of a snapshot, in any order, removes exactly those bindings; their sources are queued, stopped, at 0 and without a clip, and no other source changes |
| PoolProofs.SourcesConserved | Scripts/AudioManager.cs:355 | in a valid pool no idle source is bound and no two clips share a source |
| PoolProofs.LoadConserves | Scripts/AudioManager.cs:351-360 | loading keeps the pool and the idle queue consistent, binds only a source that held no clip, and never reuses a source number |
| PoolProofs.UnloadConserves | Scripts/AudioManager.cs:495-503 | unloading keeps the pool and the idle queue consistent and changes the clip of no source outside the pool |
| PoolProofs.UnloadNameConserves | Scripts/AudioManager.cs:505-511 | unloading a name keeps the pool consistent and keeps loader loads and unloads balanced against the name cache |
| PoolProofs.UnloadAllConserves | Scripts/AudioManager.cs:513-517 | unloading everything, in any order, keeps the pool consistent and the loader balanced |
| PoolProofs.ApplyConserves | Scripts/AudioManager.cs:308-517 | every public pool operation keeps source conservation and loader balance |
| CascadeProofs.LoadCascade | Scripts/AudioManager.cs:351-360 | a configured pool stays configured after a load, and no source outside the pool changes output |
| CascadeProofs.UnloadAllCascade | Scripts/AudioManager.cs:513-517 | unloading everything keeps the cascade and changes no output |
| CascadeProofs.ApplyCascade | Scripts/AudioManager.cs:308-517 | every public pool operation keeps a configured pool configured and no source outside the pool changes output; `Mute` and `ConfigureAll` configure the pool from any state |
| PoolProperties.LoadNameIdempotent | Scripts/AudioManager.cs:362-366 | loading a name twice equals loading it once; the loader is called once for an uncached name and never for a cached one |
| PoolProperties.ReuseAfterUnload | Scripts/AudioManager.cs:355 | with no idle source: loading "x" creates one source, unloading "x" queues it, and loading "y" rebinds that same source without creating another |
| PoolProperties.UnloadAllThenReuse | Scripts/AudioManager.cs:513-517 | after UnloadAll of a pool with bindings, the next load takes a released source and creates none |
| PoolProperties.LoadUnloadReleases | Scripts/AudioManager.cs:495-503 | unload after load gives back the bindings as they were and puts the source at the back of the queue, stopped and without a clip |
| PoolProperties.PlayAgainKeepsPosition | Scripts/AudioManager.cs:401-408 | playing again without `force` while playing changes nothing |
| PoolProperties.ForcedPlayRestarts | Scripts/AudioManager.cs:401-408 | a forced play always leaves the clip playing at position 0 |
| PoolProperties.PlayLeavesOthers | Scripts/AudioManager.cs:401-408 | playing one clip leaves every other bound clip's binding and source attributes unchanged |
| PoolProperties.PauseThenResume | Scripts/AudioManager.cs:441-464 | pausing a playing clip and resuming it restores the state exactly |
| PoolProperties.SetTimeThenGetTime | Scripts/AudioManager.cs:416-439 | the time read after setting it is the value set when the clip (or the name's clip) is loaded, and 0 otherwise |
| PoolProperties.RegisterThenUnregister | Scripts/AudioManager.cs:334-343 | unregistering a newly registered source restores the pool; the source keeps its configured output |
| PoolProperties.UnloadedNameIsInert | Scripts/AudioManager.cs:484-511 | after a name is unloaded, every command on it is a no-op and its time reads 0 |
| AudioManager.Run | Scripts/AudioManager.cs:87-135 | an operation the manager forwards (to the sound pool: all but seeking and `ConfigureAll`; to the music pool: `LoadMusic` at lines 173-175 and the mute setter at line 63) changes that pool and the shared state as the pool operation does, and leaves the other pool, the master settings and the current music alone |
| AudioManager.SetPoolVolume | Scripts/AudioManager.cs:57-63 | the sound or music volume setter: fails exactly outside [0, 1]; otherwise that pool stores the value, keeps everything else and is configured; only volume and mute of its own sources change; the other pool, the master and the current music are untouched |
| AudioManager.SetMasterVolume | Scripts/AudioManager.cs:65-74 | stores any value with no range check; the music pool is configured afterwards, and so is every source owned by the sound pool alone; only volume and mute of the pools' sources change; no pool, queue or log changes |
| AudioManager.SetMuteMaster | Scripts/AudioManager.cs:76-85 | stores the flag; the music pool is configured afterwards, and so is every source owned by the sound pool alone; only volume and mute of the pools' sources change; no pool, queue or log changes |
| AudioManager.Reconfigure | Scripts/AudioManager.cs:70-72 | pushing both pools' output leaves the music pool configured and every source owned by the sound pool alone at the sound pool's output; only volume and mute of the pools' sources change; no pool, queue, log, master setting or current-music field changes |
| AudioManager.CurrentMusic | Scripts/AudioManager.cs:144 | the current clip's name when a clip is current, else the current name; none exactly when neither is set |
| AudioManager.MusicTime | Scripts/AudioManager.cs:146-159 | the position of the current clip, else of the current name; 0 when neither is set |
| AudioManager.SetMusicTime | Scripts/AudioManager.cs:160-170 | exactly the current music's sources get the new position; no other source, pool, setting or tracking field changes; nothing at all when neither is set |
| AudioManager.PlayMusicStopped | Scripts/AudioManager.cs:185-194 | the sources of a different current clip and of a current name are stopped and rewound, no other source changes, both are forgotten, and no pool changes |
| AudioManager.PlayMusic | Scripts/AudioManager.cs:183-197 | afterwards the clip is current, no name is current, and the clip is bound, playing, with the requested loop flag; the music pool and the queue change as loading the clip does; only the stopped tracks' sources and the clip's source change |
| AudioManager.PlayMusicNameStopped | Scripts/AudioManager.cs:201-210 | the sources of a current clip and of a different current name are stopped and rewound, no other source changes, both are forgotten, and no pool changes |
| AudioManager.PlayMusicName | Scripts/AudioManager.cs:199-213 | afterwards the name is current, no clip is current, and the name's clip is bound, playing, with the requested loop flag; the music pool, the queue and the loader log change as loading the name does; only the stopped tracks' sources and the clip's source change |
| AudioManager.CommandTracks | Scripts/AudioManager.cs:215-249 | a command sent to a clip's track and then to a name's track reaches exactly those tracks' sources, once each even when they share one, and changes nothing else |
| AudioManager.MusicCommand | Scripts/AudioManager.cs:215-249 | exactly the current music's sources receive the command; no other source, no pool and no tracking field changes; nothing at all when there is no current music |
| AudioManager.PauseMusic | Scripts/AudioManager.cs:215-225 | the current music's sources pause if playing, and nothing else changes |
| AudioManager.ResumeMusic | Scripts/AudioManager.cs:227-237 | the current music's sources resume if paused, and nothing else changes |
| AudioManager.StopMusic | Scripts/AudioManager.cs:239-249 | the current music's sources are stopped and rewound, and nothing else changes |
| AudioManager.UnloadMusic | Scripts/AudioManager.cs:251-258 | the music pool and shared state change as `AudioPool.Unload` changes them, so the clip's source is released; it stops being the current clip if it was; the current name is kept |
| AudioManager.UnloadMusicName | Scripts/AudioManager.cs:260-267 | the music pool and shared state change as `AudioPool.UnloadName` changes them, so the loader is told to unload it and its source is released; it stops being the current name if it was; the current clip is kept |
| AudioManager.UnloadAllMusics | Scripts/AudioManager.cs:269-274 | the music pool and shared state change as `AudioPool.UnloadAll` changes them, so every bound source returns to the queue, stopped, at 0 and without a clip; every other source (the sound pool's included) keeps its attributes; there is no current music, and the music time reads 0 |
| AudioManager.UnloadAllSounds | Scripts/AudioManager.cs:135 | the sound pool and shared state change as `AudioPool.UnloadAll` changes them, so every bound source returns to the queue, stopped, at 0 and without a clip; every other source (the music pool's included) keeps its attributes, and the music tracking is untouched |
| ManagerProofs.InitialValid | Scripts/AudioManager.cs:28-55 | the manager as constructed is consistent and its output is valid |
| ManagerProofs.LiftValid | Scripts/AudioManager.cs:30-46 | a step on either pool that conserves sources keeps the whole manager consistent: the other pool's bindings survive, and no source is bound in both pools, although they share one queue |
| ManagerProofs.RunValid | Scripts/AudioManager.cs:87-135 | every forwarded pool operation keeps the manager consistent |
| ManagerProofs.ManagerSourcesConserved | Scripts/AudioManager.cs:31 | across both pools, no idle source is bound and no source is bound to two clips |
| ManagerProofs.MasterValid | Scripts/AudioManager.cs:65-85 | the master setters keep the manager consistent |
| ManagerProofs.CommandTracksValid | Scripts/AudioManager.cs:215-249 | sending a command to the music tracks keeps the manager consistent |
| ManagerProofs.PlayMusicValid | Scripts/AudioManager.cs:183-197 | playing a music clip keeps the manager consistent, so at most one current-music field is set |
| ManagerProofs.PlayMusicNameValid | Scripts/AudioManager.cs:199-213 | playing music by name keeps the manager consistent |
| ManagerProofs.UnloadAllValid | Scripts/AudioManager.cs:269-274 | unloading all music or all sounds keeps the manager consistent |
| ManagerProofs.OtherKeepsOutput | Scripts/AudioManager.cs:37-46 | a step on one pool keeps every source of the other pool at the other pool's output |
| ManagerProofs.RunOutput | Scripts/AudioManager.cs:87-135 | every forwarded pool operation keeps both pools' sources at their effective output, when the sources registered with the sound pool are the caller's own |
| ManagerProofs.ReconfigureOutput | Scripts/AudioManager.cs:70-72 | configuring the sound pool and then the music pool leaves both configured |
| ManagerProofs.MasterOutput | Scripts/AudioManager.cs:65-85 | after a master volume or mute change, every bound and registered source of both pools has volume = pool × master and mute = pool or master |
| ManagerProofs.SetVolumeOutput | Scripts/AudioManager.cs:57-63 | a successful sound or music volume change keeps both pools' output valid |
| ManagerProofs.PlayMusicOutput | Scripts/AudioManager.cs:183-197 | playing music keeps both pools' output valid |
| ManagerProofs.CommandTracksOutput | Scripts/AudioManager.cs:215-249 | sending a command to the music tracks keeps the manager consistent and both pools' output valid |
| ManagerProofs.UnloadAllOutput | Scripts/AudioManager.cs:269-274 | unloading all music or all sounds keeps both pools' output valid |
| MusicProperties.PlayMusicStopsPreviousClip | Scripts/AudioManager.cs:183-197 | playing a different clip stops and rewinds the previous current clip's source, which stays bound to it, and makes the new clip current |
| MusicProperties.PlayMusicNameStopsPreviousName | Scripts/AudioManager.cs:199-213 | playing a different name stops and rewinds the previous name's source and makes the new name current |
| MusicProperties.PlayMusicStopsPreviousName | Scripts/AudioManager.cs:190-196 | playing a clip stops and rewinds the source of a current name's different clip, which stays bound; the name is forgotten and the clip is current |
| MusicProperties.PlayMusicNameStopsPreviousClip | Scripts/AudioManager.cs:201-212 | playing a name stops and rewinds the source of a current clip other than the name's clip, which stays bound; the clip is forgotten and the name is current |
| MusicProperties.PlayMusicAgainKeepsPosition | Scripts/AudioManager.cs:185-196 | playing the current clip again without `force` while it plays keeps it playing at the same music time |
| MusicProperties.PlayMusicRestartsClipCurrentByName | Scripts/AudioManager.cs:190-196 | playing by clip, without `force`, the playing clip of the current name stops it first and restarts it at music time 0 |
| MusicProperties.PlayMusicNameRestartsClipCurrentByClip | Scripts/AudioManager.cs:201-212 | playing by name, without `force`, the playing current clip stops it first and restarts it at music time 0 |
| MusicProperties.SwitchMusicByName | Scripts/AudioManager.cs:199-213 | from a new manager, playing "a" then "b": "b" is current and playing; "a" stays loaded, stopped at 0 |
| MusicProperties.MusicTimeRoundTrip | Scripts/AudioManager.cs:146-170 | reading the music time after setting it gives the value set when the current music is loaded, else the old reading |
| MusicProperties.ForcedPlayMusicRewinds | Scripts/AudioManager.cs:183-197 | a forced play makes the clip current and loaded with music time 0 |
| MusicProperties.StopMusicRewinds | Scripts/AudioManager.cs:239-249 | stopping keeps the current music but stops it and rewinds the music time to 0 |
| MusicProperties.PauseThenResumeMusic | Scripts/AudioManager.cs:215-237 | pausing playing music and then resuming it gives back the manager exactly |

## Left out

- `LoadAsync`, in both its task and coroutine forms (Scripts/AudioManager.cs:368-386), and the manager's `LoadSoundAsync`/`LoadMusicAsync`: they are asynchronous and cancellable. Once the clip is obtained they do the same as `LoadName`.
- The game object that holds the sources, `DontDestroyOnLoad` and `AddComponent`: a new source is an unused id `Created(nextId)` with the attributes of a new source.
- Audio output, the advance of playback time, and what `PlayOneShot` sounds like. A one-shot is only recorded in `Shared.oneShots`.
- Floating point: volumes are reals. So the model has no NaN, which the C# range check would let through, and no rounding in the product of the two volumes.
- Logging (`Debug`, `Warning`): it does not affect control flow.
- Asset loader failures: the loader is a total function. An exception from it would leave the name uncached; that path is not modelled.
- The property getters (`SoundVolume`, `MuteSound`, `MasterVolume` and the rest): they read stored fields, which the model exposes directly.
- The one-line sound members of the manager (`LoadSound`, `PlaySound`, `PauseAllSounds`, `RegisterSound` and the rest, Scripts/AudioManager.cs:87-135) forward to the sound pool. `AudioManager.Run` models all of them, with the pool operation given as an `Op` value; `AudioManager.Forwarded` lists the operations the manager forwards to each pool. `LoadMusic` and the `MuteSound`/`MuteMusic` setters are modelled the same way.
- `Scripts/IAudioManager.cs` and `Scripts/IAudioManagerSettings.cs` are interface declarations with no behaviour. The DI and binder files only register the manager with containers. None of them is part of this model.
- AudioPool.Register: any source id is accepted, including a container id `Created(k)` with `k` at or above `nextId`, which no caller of the C# code could hold because that source does not exist yet. After such a registration a later load "creates" a source with that id although it is already registered and has attributes. The model does not rule this out; the conservation proofs do not depend on it.
- Object identity: clips and sources compare by value. A destroyed Unity object is not modelled.
- AudioPool.UnloadAll: the order in which the dictionaries are enumerated is unspecified, so the order of the idle queue after `UnloadAll` is left unspecified too. Only its membership is stated.
- ManagerProofs.RunOutput: output validity is proved when the sources registered with the sound pool are callers' own (`External`). A container source registered by a caller would be reconfigured whenever it is bound, and the C# implementation does not forbid that. Nothing is ever registered with the music pool, because the manager forwards registrations to the sound pool only (Scripts/AudioManager.cs:87-89); `Registrations` states this.
- AudioManager.SetMasterVolume: its contract states that the music pool is configured, and so is every source owned by the sound pool alone. A source the sound pool owns that is also bound in the music pool takes the music pool's output, so that the whole sound pool stays configured is stated by `ManagerProofs.MasterOutput` under the registration condition above.
- AudioManager.SetMuteMaster: as for `SetMasterVolume`.
