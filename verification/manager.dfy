/** The audio manager: a sound pool and a music pool that share one free queue of sources and one master
    volume/mute pair, plus the bookkeeping of the current music track, which may be known by clip or by name.
    The sound operations of the manager forward to the sound pool one to one; `Run` models all of them. */
module AudioManager {
  import opened AudioTypes
  import Device
  import opened AudioPool

  datatype Kind = Sound | Music

  datatype Manager = Manager(
    sound: Pool,
    music: Pool,
    shared: Shared,
    master: Settings,
    currentClip: Option<Clip>,
    currentName: Option<string>)

  /** The manager as constructed: two fresh pools, master volume 1, unmuted, no current music. */
  const Initial: Manager := Manager(NewPool, NewPool, NewShared, Settings(1.0, false), None, None)

  function PoolOf(m: Manager, k: Kind): Pool {
    if k == Sound then m.sound else m.music
  }

  function Other(k: Kind): Kind {
    if k == Sound then Music else Sound
  }

  /** Installs the result of a step on pool `k`; the other pool, the master settings and the music tracking
      are kept. */
  function With(m: Manager, k: Kind, st: Step): (r: Manager)
    ensures PoolOf(r, k) == st.pool && r.shared == st.shared
    ensures PoolOf(r, Other(k)) == PoolOf(m, Other(k))
    ensures r.master == m.master && r.currentClip == m.currentClip && r.currentName == m.currentName
  {
    if k == Sound then m.(sound := st.pool, shared := st.shared) else m.(music := st.pool, shared := st.shared)
  }

  /** No source is bound in both pools. */
  predicate BindingsDisjoint(a: Pool, b: Pool) {
    forall c1, c2 :: c1 in a.bindings && c2 in b.bindings ==> a.bindings[c1] != b.bindings[c2]
  }

  /** Sources registered with the sound pool are callers' own, and nothing is registered with the music pool
      (the manager forwards registrations to the sound pool only). */
  predicate Registrations(m: Manager) {
    && (forall s :: s in m.sound.registered ==> s.External?)
    && m.music.registered == {}
  }

  /** Sources are conserved across both pools (each pool is valid against the shared queue, and no source is
      bound in both pools), at most one of the two current-music fields is set, and the asset loader has
      been called to load each name once more than to unload it for every pool that caches the name. */
  ghost predicate Consistent(m: Manager) {
    && SharedValid(m.shared)
    && PoolValid(m.sound, m.shared)
    && PoolValid(m.music, m.shared)
    && BindingsDisjoint(m.sound, m.music)
    && !(m.currentClip.Some? && m.currentName.Some?)
    && (forall n :: Calls(m.shared.loads, n) == Calls(m.shared.unloads, n) + Ind(n in m.sound.names) + Ind(n in m.music.names))
  }

  /** Registered sources are callers' own and registered with the sound pool only; every bound or registered
      source of each pool plays at that pool's volume times the master volume, muted if either is muted. */
  ghost predicate OutputValid(m: Manager) {
    && Registrations(m)
    && Configured(m.sound, m.shared, m.master)
    && Configured(m.music, m.shared, m.master)
  }

  // ---------------------------------------------------------------------------------------------------------
  // Settings

  /** The pool operations the manager forwards as they are: to the sound pool, every operation but seeking and
      `ConfigureAll`; to the music pool, only loading and the mute setter. */
  predicate Forwarded(k: Kind, op: Op) {
    if k == Sound then
      && !op.ConfigureAllOp?
      && !((op.TransportOp? || op.TransportNameOp? || op.TransportAllOp?) && op.cmd.SetTimeTo?)
    else op.LoadOp? || op.LoadNameOp? || op.SetMuteOp?
  }

  /** Forwards an operation to one pool, with the manager's master settings and asset catalog. */
  function Run(m: Manager, k: Kind, catalog: string -> Clip, op: Op): (r: Manager)
    requires Forwarded(k, op)
    ensures var st := Apply(PoolOf(m, k), m.shared, m.master, catalog, op);
      PoolOf(r, k) == st.pool && r.shared == st.shared
    ensures PoolOf(r, Other(k)) == PoolOf(m, Other(k))
    ensures r.master == m.master && r.currentClip == m.currentClip && r.currentName == m.currentName
  {
    With(m, k, Apply(PoolOf(m, k), m.shared, m.master, catalog, op))
  }

  /** The sound or music volume setter: fails, changing nothing, outside [0, 1]; otherwise stores the value
      and pushes the new output to that pool's sources. */
  function SetPoolVolume(m: Manager, k: Kind, v: real): (r: Result<Manager>)
    ensures r.Failure? <==> v < 0.0 || v > 1.0
    ensures r.Success? ==>
      var p := PoolOf(m, k);
      && PoolOf(r.value, k) == p.(settings := Settings(v, p.settings.mute))
      && Configured(PoolOf(r.value, k), r.value.shared, m.master)
      && PoolOf(r.value, Other(k)) == PoolOf(m, Other(k))
      && r.value.master == m.master && r.value.currentClip == m.currentClip && r.value.currentName == m.currentName
      && AttributesOnly(p, m.shared, r.value.shared)
      && r.value.shared.oneShots == m.shared.oneShots
      && (forall s :: s in r.value.shared.sources ==>
            Lookup(r.value.shared.sources, s).(volume := Lookup(m.shared.sources, s).volume, mute := Lookup(m.shared.sources, s).mute)
              == Lookup(m.shared.sources, s))
      && (forall s :: s !in Owned(p) ==> Lookup(r.value.shared.sources, s) == Lookup(m.shared.sources, s))
  {
    match AudioPool.SetVolume(PoolOf(m, k), m.shared, m.master, v)
    case Failure(e) => Failure(e)
    case Success(st) => Success(With(m, k, st))
  }

  /** The master volume setter. It has no range check: any value is stored, and both pools push their output
      again, the sound pool first. */
  function SetMasterVolume(m: Manager, v: real): (r: Manager)
    ensures r.master == Settings(v, m.master.mute)
    ensures Configured(r.music, r.shared, r.master)
    ensures r.sound == m.sound && r.music == m.music
    ensures r.currentClip == m.currentClip && r.currentName == m.currentName
    ensures r.shared == m.shared.(sources := r.shared.sources)
    ensures forall s :: s in r.shared.sources ==>
      Lookup(r.shared.sources, s).(volume := Lookup(m.shared.sources, s).volume, mute := Lookup(m.shared.sources, s).mute)
        == Lookup(m.shared.sources, s)
    ensures forall s :: s !in Owned(m.sound) && s !in Owned(m.music) ==>
      Lookup(r.shared.sources, s) == Lookup(m.shared.sources, s)
    ensures forall s :: s in Owned(m.sound) && s !in Owned(m.music) ==>
      Device.HasOutput(Lookup(r.shared.sources, s), m.sound.settings, r.master)
  {
    Reconfigure(m.(master := m.master.(volume := v)))
  }

  /** The master mute setter: stores the flag and both pools push their output again. */
  function SetMuteMaster(m: Manager, mute: bool): (r: Manager)
    ensures r.master == Settings(m.master.volume, mute)
    ensures Configured(r.music, r.shared, r.master)
    ensures r.sound == m.sound && r.music == m.music
    ensures r.currentClip == m.currentClip && r.currentName == m.currentName
    ensures r.shared == m.shared.(sources := r.shared.sources)
    ensures forall s :: s in r.shared.sources ==>
      Lookup(r.shared.sources, s).(volume := Lookup(m.shared.sources, s).volume, mute := Lookup(m.shared.sources, s).mute)
        == Lookup(m.shared.sources, s)
    ensures forall s :: s !in Owned(m.sound) && s !in Owned(m.music) ==>
      Lookup(r.shared.sources, s) == Lookup(m.shared.sources, s)
    ensures forall s :: s in Owned(m.sound) && s !in Owned(m.music) ==>
      Device.HasOutput(Lookup(r.shared.sources, s), m.sound.settings, r.master)
  {
    Reconfigure(m.(master := m.master.(mute := mute)))
  }

  /** `ConfigureAll` on the sound pool, then on the music pool: only volume and mute of the pools' sources
      change, and a source owned by the sound pool alone gets the sound pool's output. */
  function Reconfigure(m: Manager): (r: Manager)
    ensures Configured(r.music, r.shared, r.master)
    ensures r == m.(shared := r.shared)
    ensures r.shared == m.shared.(sources := r.shared.sources)
    ensures forall s :: s in r.shared.sources ==>
      Lookup(r.shared.sources, s).(volume := Lookup(m.shared.sources, s).volume, mute := Lookup(m.shared.sources, s).mute)
        == Lookup(m.shared.sources, s)
    ensures forall s :: s !in Owned(m.sound) && s !in Owned(m.music) ==>
      Lookup(r.shared.sources, s) == Lookup(m.shared.sources, s)
    ensures forall s :: s in Owned(m.sound) && s !in Owned(m.music) ==>
      Device.HasOutput(Lookup(r.shared.sources, s), m.sound.settings, r.master)
  {
    var m1 := With(m, Sound, ConfigureAll(m.sound, m.shared, m.master));
    With(m1, Music, ConfigureAll(m1.music, m1.shared, m1.master))
  }

  // ---------------------------------------------------------------------------------------------------------
  // Music

  /** The current music: the current clip's name if a clip is current, else the current name if any. */
  function CurrentMusic(m: Manager): (r: Option<string>)
    ensures r.None? <==> m.currentClip.None? && m.currentName.None?
    ensures m.currentClip.Some? ==> r == Some(m.currentClip.value.name)
    ensures m.currentClip.None? ==> r == m.currentName
  {
    if m.currentClip.Some? then Some(m.currentClip.value.name) else m.currentName
  }

  /** The position of the current music track, or 0 when there is none or it is not loaded. */
  function MusicTime(m: Manager): (r: real)
    ensures m.currentClip.None? && m.currentName.None? ==> r == 0.0
    ensures m.currentClip.Some? ==> r == GetTime(m.music, m.shared, m.currentClip.value)
    ensures m.currentClip.None? && m.currentName.Some? ==> r == GetTimeName(m.music, m.shared, m.currentName.value)
  {
    if m.currentClip.Some? then GetTime(m.music, m.shared, m.currentClip.value)
    else if m.currentName.Some? then GetTimeName(m.music, m.shared, m.currentName.value)
    else 0.0
  }

  /** Seeks the current music track: by clip if one is current, then by name if one is current. */
  function SetMusicTime(m: Manager, t: real): (r: Manager)
    ensures r.music == m.music && r.sound == m.sound && r.master == m.master
    ensures r.currentClip == m.currentClip && r.currentName == m.currentName
    ensures m.currentClip.None? && m.currentName.None? ==> r == m
    ensures r == MusicCommand(m, SetTimeTo(t))
    ensures r.shared == m.shared.(sources := r.shared.sources)
    ensures forall s :: s in TrackSources(m) ==> Lookup(r.shared.sources, s) == Lookup(m.shared.sources, s).(time := t)
    ensures forall s :: s !in TrackSources(m) ==> Lookup(r.shared.sources, s) == Lookup(m.shared.sources, s)
  {
    var m1 := if m.currentClip.Some? then With(m, Music, SetTime(m.music, m.shared, m.currentClip.value, t)) else m;
    if m1.currentName.Some? then With(m1, Music, SetTimeName(m1.music, m1.shared, m1.currentName.value, t)) else m1
  }

  /** Playing a clip after some sources were given other attributes: the pool, the queue and the counter
      change as loading the clip would have changed them before, and only the clip's source changes. */
  lemma PlayAfterAttributes(p: Pool, sh: Shared, sh2: Shared, master: Settings, clip: Clip, loop: bool, force: bool)
    requires sh2 == sh.(sources := sh2.sources)
    ensures var r, loaded := Play(p, sh2, master, clip, loop, force), Load(p, sh, master, clip);
      && r.pool == loaded.pool
      && r.shared == sh2.(free := loaded.shared.free, nextId := loaded.shared.nextId, sources := r.shared.sources)
      && forall s :: s != r.pool.bindings[clip] ==> Lookup(r.shared.sources, s) == Lookup(sh2.sources, s)
  {
    var r, l2 := Play(p, sh2, master, clip, loop, force), Load(p, sh2, master, clip);
    var b := r.pool.bindings[clip];
    forall s | s != b
      ensures Lookup(r.shared.sources, s) == Lookup(sh2.sources, s)
    {
      assert s in r.shared.sources <==> s in l2.shared.sources;
      assert s in l2.shared.sources <==> s in sh2.sources;
    }
  }

  /** Plays a music clip. A different current clip is stopped and forgotten, a current name is stopped and
      forgotten, then the clip is played by the music pool and becomes the current clip. */
  function PlayMusic(m: Manager, clip: Clip, loop: bool, force: bool): (r: Manager)
    ensures r.currentClip == Some(clip) && r.currentName == None
    ensures clip in r.music.bindings
    ensures Lookup(r.shared.sources, r.music.bindings[clip]).playback == Playing
    ensures Lookup(r.shared.sources, r.music.bindings[clip]).loop == loop
    ensures r.sound == m.sound && r.master == m.master
    ensures var loaded := Load(m.music, m.shared, m.master, clip);
      var stopping := Tracks(m.music, if m.currentClip == Some(clip) then None else m.currentClip, m.currentName);
      && r.music == loaded.pool
      && r.shared == m.shared.(free := loaded.shared.free, nextId := loaded.shared.nextId, sources := r.shared.sources)
      && (forall s :: s !in stopping && s != r.music.bindings[clip] ==> Lookup(r.shared.sources, s) == Lookup(m.shared.sources, s))
  {
    var m2 := PlayMusicStopped(m, clip);
    PlayAfterAttributes(m2.music, m.shared, m2.shared, m2.master, clip, loop, force);
    With(m2, Music, Play(m2.music, m2.shared, m2.master, clip, loop, force)).(currentClip := Some(clip))
  }

  /** The first half of `PlayMusic`: a different current clip is stopped and forgotten, and a current name is
      stopped and forgotten. */
  function PlayMusicStopped(m: Manager, clip: Clip): (r: Manager)
    ensures r.currentName == None
    ensures r.currentClip == (if m.currentClip == Some(clip) then m.currentClip else None)
    ensures r.sound == m.sound && r.master == m.master
    ensures r.music == m.music && r.shared == m.shared.(sources := r.shared.sources)
    ensures var stopping := Tracks(m.music, if m.currentClip == Some(clip) then None else m.currentClip, m.currentName);
      && (forall s :: s in stopping ==> Lookup(r.shared.sources, s) == Device.Stop(Lookup(m.shared.sources, s)))
      && (forall s :: s !in stopping ==> Lookup(r.shared.sources, s) == Lookup(m.shared.sources, s))
  {
    var keep := if m.currentClip == Some(clip) then m.currentClip else None;
    CommandTracks(m, if m.currentClip == Some(clip) then None else m.currentClip, m.currentName, StopIt)
      .(currentClip := keep, currentName := None)
  }

  /** Plays music by name: the mirror image of `PlayMusic`, with the name becoming the current name. */
  function PlayMusicName(m: Manager, catalog: string -> Clip, name: string, loop: bool, force: bool): (r: Manager)
    ensures r.currentName == Some(name) && r.currentClip == None
    ensures name in r.music.names && r.music.names[name] in r.music.bindings
    ensures Lookup(r.shared.sources, r.music.bindings[r.music.names[name]]).playback == Playing
    ensures Lookup(r.shared.sources, r.music.bindings[r.music.names[name]]).loop == loop
    ensures r.sound == m.sound && r.master == m.master
    ensures var loaded := LoadName(m.music, m.shared, m.master, catalog, name);
      var stopping := Tracks(m.music, m.currentClip, if m.currentName == Some(name) then None else m.currentName);
      && r.music == loaded.pool
      && r.shared == m.shared.(free := loaded.shared.free, nextId := loaded.shared.nextId, loads := loaded.shared.loads,
                               sources := r.shared.sources)
      && (forall s :: s !in stopping && s != r.music.bindings[r.music.names[name]] ==>
            Lookup(r.shared.sources, s) == Lookup(m.shared.sources, s))
  {
    var m2 := PlayMusicNameStopped(m, name);
    var c, c2 := CacheName(m.music, m.shared, catalog, name), CacheName(m2.music, m2.shared, catalog, name);
    PlayAfterAttributes(c.pool, c.shared, c2.shared, m2.master, c.pool.names[name], loop, force);
    With(m2, Music, PlayName(m2.music, m2.shared, m2.master, catalog, name, loop, force)).(currentName := Some(name))
  }

  /** The first half of `PlayMusicName`: a current clip is stopped and forgotten, and a different current name
      is stopped and forgotten. */
  function PlayMusicNameStopped(m: Manager, name: string): (r: Manager)
    ensures r.currentClip == None
    ensures r.currentName == (if m.currentName == Some(name) then m.currentName else None)
    ensures r.sound == m.sound && r.master == m.master
    ensures r.music == m.music && r.shared == m.shared.(sources := r.shared.sources)
    ensures var stopping := Tracks(m.music, m.currentClip, if m.currentName == Some(name) then None else m.currentName);
      && (forall s :: s in stopping ==> Lookup(r.shared.sources, s) == Device.Stop(Lookup(m.shared.sources, s)))
      && (forall s :: s !in stopping ==> Lookup(r.shared.sources, s) == Lookup(m.shared.sources, s))
  {
    var keep := if m.currentName == Some(name) then m.currentName else None;
    CommandTracks(m, m.currentClip, if m.currentName == Some(name) then None else m.currentName, StopIt)
      .(currentClip := None, currentName := keep)
  }

  /** The music pool's sources of a track given by clip and of a track given by name, each when loaded. */
  function Tracks(p: Pool, clip: Option<Clip>, name: Option<string>): set<SourceId> {
    var byClip := if clip.Some? && clip.value in p.bindings then {p.bindings[clip.value]} else {};
    var byName := if name.Some? && name.value in p.names && p.names[name.value] in p.bindings
      then {p.bindings[p.names[name.value]]} else {};
    byClip + byName
  }

  /** The sources of the current music. */
  function TrackSources(m: Manager): set<SourceId> {
    Tracks(m.music, m.currentClip, m.currentName)
  }

  /** Sending a command twice to a source does what sending it once does. */
  lemma PerformTwice(cmd: Command)
    ensures forall s :: Perform(cmd, Perform(cmd, s)) == Perform(cmd, s)
  {
  }

  /** Sends a command to the music pool's track given by clip, then to its track given by name, each when
      given. Exactly the sources of those tracks receive the command, once each even when both tracks share a
      source, and nothing else changes. */
  function CommandTracks(m: Manager, clip: Option<Clip>, name: Option<string>, cmd: Command): (r: Manager)
    ensures r == m.(shared := r.shared) && r.shared == m.shared.(sources := r.shared.sources)
    ensures forall s :: s in Tracks(m.music, clip, name) ==>
      Lookup(r.shared.sources, s) == Perform(cmd, Lookup(m.shared.sources, s))
    ensures forall s :: s !in Tracks(m.music, clip, name) ==> Lookup(r.shared.sources, s) == Lookup(m.shared.sources, s)
  {
    var m1 := if clip.Some? then With(m, Music, Transport(m.music, m.shared, clip.value, cmd)) else m;
    PerformTwice(cmd);
    if name.Some? then With(m1, Music, TransportName(m1.music, m1.shared, name.value, cmd)) else m1
  }

  /** Applies a transport command to the current music: to the current clip, then to the current name. */
  function MusicCommand(m: Manager, cmd: Command): (r: Manager)
    ensures r.music == m.music && r.sound == m.sound && r.master == m.master
    ensures r.currentClip == m.currentClip && r.currentName == m.currentName
    ensures m.currentClip.None? && m.currentName.None? ==> r == m
    ensures r.shared == m.shared.(sources := r.shared.sources)
    ensures forall s :: s in TrackSources(m) ==> Lookup(r.shared.sources, s) == Perform(cmd, Lookup(m.shared.sources, s))
    ensures forall s :: s !in TrackSources(m) ==> Lookup(r.shared.sources, s) == Lookup(m.shared.sources, s)
  {
    CommandTracks(m, m.currentClip, m.currentName, cmd)
  }

  /** Pauses the current music: its playing sources pause, and nothing else changes. */
  function PauseMusic(m: Manager): (r: Manager)
    ensures r == m.(shared := r.shared) && r.shared == m.shared.(sources := r.shared.sources)
    ensures forall s :: s in TrackSources(m) ==> Lookup(r.shared.sources, s) == Device.Pause(Lookup(m.shared.sources, s))
    ensures forall s :: s !in TrackSources(m) ==> Lookup(r.shared.sources, s) == Lookup(m.shared.sources, s)
  {
    MusicCommand(m, PauseIt)
  }

  /** Resumes the current music: its paused sources play again, and nothing else changes. */
  function ResumeMusic(m: Manager): (r: Manager)
    ensures r == m.(shared := r.shared) && r.shared == m.shared.(sources := r.shared.sources)
    ensures forall s :: s in TrackSources(m) ==> Lookup(r.shared.sources, s) == Device.UnPause(Lookup(m.shared.sources, s))
    ensures forall s :: s !in TrackSources(m) ==> Lookup(r.shared.sources, s) == Lookup(m.shared.sources, s)
  {
    MusicCommand(m, ResumeIt)
  }

  /** Stops the current music: its sources stop and rewind, and nothing else changes. */
  function StopMusic(m: Manager): (r: Manager)
    ensures r == m.(shared := r.shared) && r.shared == m.shared.(sources := r.shared.sources)
    ensures forall s :: s in TrackSources(m) ==> Lookup(r.shared.sources, s) == Device.Stop(Lookup(m.shared.sources, s))
    ensures forall s :: s !in TrackSources(m) ==> Lookup(r.shared.sources, s) == Lookup(m.shared.sources, s)
  {
    MusicCommand(m, StopIt)
  }

  /** Unloads a music clip and forgets it as the current clip if it was. */
  function UnloadMusic(m: Manager, clip: Clip): (r: Manager)
    ensures clip !in r.music.bindings
    ensures r.currentClip == (if m.currentClip == Some(clip) then None else m.currentClip)
    ensures r.currentName == m.currentName
    ensures r.sound == m.sound && r.master == m.master
    ensures var u := Unload(m.music, m.shared, clip); r.music == u.pool && r.shared == u.shared
  {
    var r := With(m, Music, Unload(m.music, m.shared, clip));
    if m.currentClip == Some(clip) then r.(currentClip := None) else r
  }

  /** Unloads music by name and forgets it as the current name if it was. */
  function UnloadMusicName(m: Manager, name: string): (r: Manager)
    ensures name !in r.music.names
    ensures r.currentName == (if m.currentName == Some(name) then None else m.currentName)
    ensures r.currentClip == m.currentClip
    ensures r.sound == m.sound && r.master == m.master
    ensures var u := UnloadName(m.music, m.shared, name); r.music == u.pool && r.shared == u.shared
  {
    var r := With(m, Music, UnloadName(m.music, m.shared, name));
    if m.currentName == Some(name) then r.(currentName := None) else r
  }

  /** Unloads every music track and forgets the current music. */
  ghost function UnloadAllMusics(m: Manager): (r: Manager)
    ensures r.music.names == map[] && r.music.bindings == map[]
    ensures r.currentClip == None && r.currentName == None
    ensures CurrentMusic(r) == None && MusicTime(r) == 0.0
    ensures r.sound == m.sound && r.master == m.master
    ensures var u := UnloadAll(m.music, m.shared); r.music == u.pool && r.shared == u.shared
    ensures r.shared.oneShots == m.shared.oneShots
    ensures forall c :: c in m.music.bindings ==>
      Lookup(r.shared.sources, m.music.bindings[c]) == Lookup(m.shared.sources, m.music.bindings[c]).(clip := None, playback := Stopped, time := 0.0)
    ensures forall s :: s !in m.music.bindings.Values ==> Lookup(r.shared.sources, s) == Lookup(m.shared.sources, s)
  {
    With(m, Music, UnloadAll(m.music, m.shared)).(currentClip := None, currentName := None)
  }

  /** Unloads every sound. */
  ghost function UnloadAllSounds(m: Manager): (r: Manager)
    ensures r.sound.names == map[] && r.sound.bindings == map[]
    ensures r.music == m.music && r.master == m.master
    ensures r.currentClip == m.currentClip && r.currentName == m.currentName
    ensures var u := UnloadAll(m.sound, m.shared); r.sound == u.pool && r.shared == u.shared
    ensures r.shared.oneShots == m.shared.oneShots
    ensures forall c :: c in m.sound.bindings ==>
      Lookup(r.shared.sources, m.sound.bindings[c]) == Lookup(m.shared.sources, m.sound.bindings[c]).(clip := None, playback := Stopped, time := 0.0)
    ensures forall s :: s !in m.sound.bindings.Values ==> Lookup(r.shared.sources, s) == Lookup(m.shared.sources, s)
  {
    With(m, Sound, UnloadAll(m.sound, m.shared))
  }
}
