/** Behaviour of the manager's music tracking: switching tracks stops the previous one, the music time is the
    position of the current track, and pausing then resuming the current track is undone exactly. */
module MusicProperties {
  import opened AudioTypes
  import Device
  import opened AudioPool
  import opened PoolProperties
  import opened AudioManager
  import opened ManagerProofs

  /** The clip the current music refers to in the music pool, if any: the current clip, or the clip cached
      under the current name. */
  function Track(m: Manager): (r: Option<Clip>)
    ensures m.currentClip.Some? ==> r == m.currentClip
    ensures r.None? ==> m.currentClip.None? && (m.currentName.None? || m.currentName.value !in m.music.names)
  {
    if m.currentClip.Some? then m.currentClip
    else if m.currentName.Some? && m.currentName.value in m.music.names then Some(m.music.names[m.currentName.value])
    else None
  }

  /** The current music has a source in the music pool. */
  predicate TrackBound(m: Manager) {
    Track(m).Some? && Track(m).value in m.music.bindings
  }

  /** Playing a clip as music stops the previous current clip (when it is a different, loaded clip): its
      source stays bound to it, stopped and rewound; and the new clip becomes the current music. */
  lemma PlayMusicStopsPreviousClip(m: Manager, clip: Clip, loop: bool, force: bool)
    requires Consistent(m)
    requires m.currentClip.Some? && m.currentClip.value != clip && m.currentClip.value in m.music.bindings
    ensures var r := PlayMusic(m, clip, loop, force);
      var prev := m.currentClip.value;
      var s := m.music.bindings[prev];
      && CurrentMusic(r) == Some(clip.name)
      && prev in r.music.bindings && r.music.bindings[prev] == s
      && Lookup(r.shared.sources, s) == Lookup(m.shared.sources, s).(playback := Stopped, time := 0.0)
  {
    var prev := m.currentClip.value;
    var m2 := PlayMusicStopped(m, clip);
    assert m2 == With(m, Music, Stop(m.music, m.shared, prev)).(currentClip := None);
    StopValid(m, prev, "");
    PlayLeavesOthers(m2.music, m2.shared, m2.master, clip, loop, force, prev);
  }

  /** Playing a name as music stops the previous current name (when it is a different name whose clip is
      loaded and is not the clip about to play); the new name becomes the current music. */
  lemma PlayMusicNameStopsPreviousName(m: Manager, catalog: string -> Clip, name: string, loop: bool, force: bool)
    requires Consistent(m)
    requires m.currentName.Some? && m.currentName.value != name
    requires m.currentName.value in m.music.names && m.music.names[m.currentName.value] in m.music.bindings
    requires (if name in m.music.names then m.music.names[name] else catalog(name)) != m.music.names[m.currentName.value]
    ensures var r := PlayMusicName(m, catalog, name, loop, force);
      var prev := m.music.names[m.currentName.value];
      var s := m.music.bindings[prev];
      && CurrentMusic(r) == Some(name)
      && prev in r.music.bindings && r.music.bindings[prev] == s
      && Lookup(r.shared.sources, s) == Lookup(m.shared.sources, s).(playback := Stopped, time := 0.0)
  {
    var prev := m.music.names[m.currentName.value];
    var m2 := PlayMusicNameStopped(m, name);
    assert m2 == With(m, Music, StopName(m.music, m.shared, m.currentName.value)).(currentName := None);
    StopValid(m, prev, m.currentName.value);
    var cached := CacheName(m2.music, m2.shared, catalog, name);
    PlayLeavesOthers(cached.pool, cached.shared, m2.master, cached.pool.names[name], loop, force, prev);
  }

  /** Playing a clip as music stops a current name (when its clip is loaded and is not the clip about to
      play): that source stays bound, stopped and rewound, the name is forgotten and the clip becomes current. */
  lemma PlayMusicStopsPreviousName(m: Manager, clip: Clip, loop: bool, force: bool)
    requires Consistent(m)
    requires m.currentName.Some? && m.currentName.value in m.music.names
    requires m.music.names[m.currentName.value] in m.music.bindings && m.music.names[m.currentName.value] != clip
    ensures var r := PlayMusic(m, clip, loop, force);
      var prev := m.music.names[m.currentName.value];
      var s := m.music.bindings[prev];
      && CurrentMusic(r) == Some(clip.name) && r.currentName == None
      && prev in r.music.bindings && r.music.bindings[prev] == s
      && Lookup(r.shared.sources, s) == Lookup(m.shared.sources, s).(playback := Stopped, time := 0.0)
  {
    var prev := m.music.names[m.currentName.value];
    var s := m.music.bindings[prev];
    var m2 := PlayMusicStopped(m, clip);
    assert s in Tracks(m.music, if m.currentClip == Some(clip) then None else m.currentClip, m.currentName);
    CommandTracksValid(m, if m.currentClip == Some(clip) then None else m.currentClip, m.currentName, StopIt);
    assert Valid(m2.music, m2.shared);
    PlayLeavesOthers(m2.music, m2.shared, m2.master, clip, loop, force, prev);
  }

  /** Playing a name as music stops a current clip (when it is loaded and is not the name's clip): its source
      stays bound, stopped and rewound, the clip is forgotten and the name becomes current. */
  lemma PlayMusicNameStopsPreviousClip(m: Manager, catalog: string -> Clip, name: string, loop: bool, force: bool)
    requires Consistent(m)
    requires m.currentClip.Some? && m.currentClip.value in m.music.bindings
    requires (if name in m.music.names then m.music.names[name] else catalog(name)) != m.currentClip.value
    ensures var r := PlayMusicName(m, catalog, name, loop, force);
      var prev := m.currentClip.value;
      var s := m.music.bindings[prev];
      && CurrentMusic(r) == Some(name) && r.currentClip == None
      && prev in r.music.bindings && r.music.bindings[prev] == s
      && Lookup(r.shared.sources, s) == Lookup(m.shared.sources, s).(playback := Stopped, time := 0.0)
  {
    var prev := m.currentClip.value;
    var s := m.music.bindings[prev];
    var stopping := if m.currentName == Some(name) then None else m.currentName;
    var m2 := PlayMusicNameStopped(m, name);
    assert s in Tracks(m.music, m.currentClip, stopping);
    CommandTracksValid(m, m.currentClip, stopping, StopIt);
    assert Valid(m2.music, m2.shared);
    var cached := CacheName(m2.music, m2.shared, catalog, name);
    PlayLeavesOthers(cached.pool, cached.shared, m2.master, cached.pool.names[name], loop, force, prev);
  }

  /** Playing again, unforced, the clip that is current as a clip and playing leaves its position alone. */
  lemma PlayMusicAgainKeepsPosition(m: Manager, clip: Clip, loop: bool)
    requires m.currentClip == Some(clip) && m.currentName.None? && clip in m.music.bindings
    requires Lookup(m.shared.sources, m.music.bindings[clip]).playback == Playing
    ensures var r := PlayMusic(m, clip, loop, false);
      && CurrentMusic(r) == Some(clip.name)
      && MusicTime(r) == MusicTime(m)
      && Lookup(r.shared.sources, r.music.bindings[clip]).playback == Playing
  {
    var m2 := PlayMusicStopped(m, clip);
    assert m.music.bindings[clip] !in Tracks(m.music, None, None);
  }

  /** The same clip current under a name is not recognised as the same music: playing it, unforced, first
      stops the name's source (the name is a different kind of current music) and then plays the stopped
      source from the beginning, so the music time drops to 0 although the track was playing. */
  lemma PlayMusicRestartsClipCurrentByName(m: Manager, clip: Clip, loop: bool)
    requires m.currentClip.None? && m.currentName.Some?
    requires m.currentName.value in m.music.names && m.music.names[m.currentName.value] == clip
    requires clip in m.music.bindings
    requires Lookup(m.shared.sources, m.music.bindings[clip]).playback == Playing
    ensures var r := PlayMusic(m, clip, loop, false);
      && CurrentMusic(r) == Some(clip.name)
      && MusicTime(r) == 0.0
      && Lookup(r.shared.sources, r.music.bindings[clip]).playback == Playing
  {
    var s := m.music.bindings[clip];
    assert s in Tracks(m.music, None, m.currentName);
  }

  /** The mirror image: the clip current as a clip and playing, played again by a name cached for it, is
      stopped first and restarts from the beginning. */
  lemma PlayMusicNameRestartsClipCurrentByClip(m: Manager, catalog: string -> Clip, name: string, loop: bool)
    requires m.currentClip.Some? && m.currentName.None?
    requires name in m.music.names && m.music.names[name] == m.currentClip.value
    requires m.currentClip.value in m.music.bindings
    requires Lookup(m.shared.sources, m.music.bindings[m.currentClip.value]).playback == Playing
    ensures var r := PlayMusicName(m, catalog, name, loop, false);
      && CurrentMusic(r) == Some(name)
      && MusicTime(r) == 0.0
      && Lookup(r.shared.sources, r.music.bindings[m.currentClip.value]).playback == Playing
  {
    var s := m.music.bindings[m.currentClip.value];
    assert s in Tracks(m.music, m.currentClip, None);
  }

  /** Switching music by name from a fresh manager: after playing "a" and then "b" (two names whose clips
      differ), "b" is the current music and is playing, while "a" stays loaded, stopped at the beginning. */
  lemma SwitchMusicByName(catalog: string -> Clip, a: string, b: string)
    requires catalog(a) != catalog(b)
    ensures var first := PlayMusicName(Initial, catalog, a, true, false);
      var r := PlayMusicName(first, catalog, b, true, false);
      && CurrentMusic(r) == Some(b)
      && Lookup(r.shared.sources, r.music.bindings[r.music.names[b]]).playback == Playing
      && a in r.music.names && r.music.names[a] in r.music.bindings
      && Lookup(r.shared.sources, r.music.bindings[r.music.names[a]]).playback == Stopped
      && Lookup(r.shared.sources, r.music.bindings[r.music.names[a]]).time == 0.0
  {
    var first := PlayMusicName(Initial, catalog, a, true, false);
    InitialValid();
    PlayMusicNameValid(Initial, catalog, a, true, false);
    assert PlayMusicNameStopped(Initial, a) == Initial;
    assert first.music.names == map[a := catalog(a)];
    PlayMusicNameStopsPreviousName(first, catalog, b, true, false);
  }

  /** Setting the music time and reading it back gives the value set, whenever the current music is loaded;
      otherwise the reading is unchanged. */
  lemma MusicTimeRoundTrip(m: Manager, t: real)
    requires Consistent(m)
    ensures MusicTime(SetMusicTime(m, t)) == if TrackBound(m) then t else MusicTime(m)
  {
  }

  /** Forced play restarts the music from the beginning, and the played clip becomes the current music. */
  lemma ForcedPlayMusicRewinds(m: Manager, clip: Clip, loop: bool)
    ensures var r := PlayMusic(m, clip, loop, true);
      CurrentMusic(r) == Some(clip.name) && MusicTime(r) == 0.0 && TrackBound(r)
  {
  }

  /** Stopping the music keeps it current but stops and rewinds its source. */
  lemma StopMusicRewinds(m: Manager)
    requires Consistent(m) && TrackBound(m)
    ensures var r := StopMusic(m);
      && CurrentMusic(r) == CurrentMusic(m)
      && Lookup(r.shared.sources, r.music.bindings[Track(m).value]).playback == Stopped
      && MusicTime(r) == 0.0
  {
  }

  /** Pausing playing music and resuming it gives back the manager exactly as it was. */
  lemma PauseThenResumeMusic(m: Manager)
    requires Consistent(m) && TrackBound(m)
    requires Lookup(m.shared.sources, m.music.bindings[Track(m).value]).playback == Playing
    ensures var paused := PauseMusic(m);
      && Lookup(paused.shared.sources, paused.music.bindings[Track(m).value]).playback == Paused
      && ResumeMusic(paused) == m
  {
    PauseThenResume(m.music, m.shared, Track(m).value);
  }
}
