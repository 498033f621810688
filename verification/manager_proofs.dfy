/** The manager keeps both pools consistent with the one shared queue: a step on either pool that conserves
    sources (as every pool operation does) keeps the other pool valid, so every manager operation keeps
    `Consistent`; and, for registered sources that belong to the caller, every operation keeps each pool's sources
    at the pool's volume and mute combined with the master's. */
module ManagerProofs {
  import opened AudioTypes
  import Device
  import opened AudioPool
  import opened PoolProofs
  import opened CascadeProofs
  import opened AudioManager

  lemma DisjointSymmetric(a: Pool, b: Pool)
    requires BindingsDisjoint(a, b)
    ensures BindingsDisjoint(b, a)
  {
  }

  /** A source bound in a valid pool is one the container created. */
  lemma BoundIsCreated(p: Pool, sh: Shared, s: SourceId)
    requires Valid(p, sh)
    ensures s in p.bindings.Values ==> s.Created?
  {
    BoundHoldsClip(p, sh, s);
  }

  /** A source bound in the other pool is not bound in the stepped pool before the step, so the step leaves its
      clip alone, and it is not bound in the stepped pool after the step either. */
  lemma OtherBindingKept(p: Pool, o: Pool, sh: Shared, p2: Pool, sh2: Shared, c: Clip)
    requires PoolValid(o, sh) && BindingsDisjoint(p, o)
    requires Conserves(p, sh, p2, sh2)
    requires c in o.bindings
    ensures Lookup(sh2.sources, o.bindings[c]).clip == Some(c)
    ensures o.bindings[c] !in p.bindings.Values && o.bindings[c] !in p2.bindings.Values
  {
    var s := o.bindings[c];
    assert forall c1 :: c1 in p.bindings ==> p.bindings[c1] != s;
    assert s !in p.bindings.Values;
    assert Lookup(sh.sources, s).clip == Some(c);
    NewlyBoundWasIdle(p, sh, p2, sh2, s);
  }

  /** The core of the manager's consistency: a conserving step on one pool keeps the whole manager valid. */
  lemma LiftValid(m: Manager, k: Kind, st: Step)
    requires Consistent(m)
    requires Conserves(PoolOf(m, k), m.shared, st.pool, st.shared)
    ensures Consistent(With(m, k, st))
  {
    var p, o := PoolOf(m, k), PoolOf(m, Other(k));
    var sh, sh2 := m.shared, st.shared;
    var r := With(m, k, st);
    if k == Music {
      DisjointSymmetric(m.sound, m.music);
    }
    assert BindingsDisjoint(p, o);
    forall c | c in o.bindings
      ensures o.bindings[c] in sh2.sources && sh2.sources[o.bindings[c]].clip == Some(c)
    {
      OtherBindingKept(p, o, sh, st.pool, sh2, c);
    }
    assert PoolValid(o, sh2);
    forall c1, c2 | c1 in st.pool.bindings && c2 in o.bindings
      ensures st.pool.bindings[c1] != o.bindings[c2]
    {
      OtherBindingKept(p, o, sh, st.pool, sh2, c2);
    }
    assert BindingsDisjoint(st.pool, o);
    if k == Music {
      DisjointSymmetric(st.pool, o);
    }
    forall n
      ensures Calls(sh2.loads, n) == Calls(sh2.unloads, n) + Ind(n in r.sound.names) + Ind(n in r.music.names)
    {
      assert Calls(sh.loads, n) == Calls(sh.unloads, n) + Ind(n in p.names) + Ind(n in o.names);
    }
  }

  /** Every pool operation the manager forwards keeps the manager consistent. */
  lemma RunValid(m: Manager, k: Kind, catalog: string -> Clip, op: Op)
    requires Consistent(m) && Forwarded(k, op)
    ensures Consistent(Run(m, k, catalog, op))
  {
    ApplyConserves(PoolOf(m, k), m.shared, m.master, catalog, op);
    LiftValid(m, k, Apply(PoolOf(m, k), m.shared, m.master, catalog, op));
  }

  lemma SetVolumeValid(m: Manager, k: Kind, v: real)
    requires Consistent(m)
    ensures var r := SetPoolVolume(m, k, v); r.Success? ==> Consistent(r.value)
  {
    var r := AudioPool.SetVolume(PoolOf(m, k), m.shared, m.master, v);
    SetVolumeConserves(PoolOf(m, k), m.shared, m.master, v);
    if r.Success? {
      LiftValid(m, k, r.value);
    }
  }

  lemma ReconfigureValid(m: Manager)
    requires Consistent(m)
    ensures Consistent(Reconfigure(m))
  {
    var m1 := With(m, Sound, ConfigureAll(m.sound, m.shared, m.master));
    ConfigureAllConserves(m.sound, m.shared, m.master);
    LiftValid(m, Sound, ConfigureAll(m.sound, m.shared, m.master));
    ConfigureAllConserves(m1.music, m1.shared, m1.master);
    LiftValid(m1, Music, ConfigureAll(m1.music, m1.shared, m1.master));
  }

  lemma MasterValid(m: Manager, v: real, mute: bool)
    requires Consistent(m)
    ensures Consistent(SetMasterVolume(m, v)) && Consistent(SetMuteMaster(m, mute))
  {
    ReconfigureValid(m.(master := m.master.(volume := v)));
    ReconfigureValid(m.(master := m.master.(mute := mute)));
  }

  /** Stopping a track by clip and by name keeps the manager consistent. */
  lemma StopValid(m: Manager, clip: Clip, name: string)
    requires Consistent(m)
    ensures Consistent(With(m, Music, Stop(m.music, m.shared, clip)))
    ensures Consistent(With(m, Music, StopName(m.music, m.shared, name)))
  {
    TransportConserves(m.music, m.shared, clip, StopIt);
    LiftValid(m, Music, Stop(m.music, m.shared, clip));
    TransportNameConserves(m.music, m.shared, name, StopIt);
    LiftValid(m, Music, StopName(m.music, m.shared, name));
  }

  /** Sending a command to the music tracks given by clip and by name keeps the manager consistent. */
  lemma CommandTracksValid(m: Manager, clip: Option<Clip>, name: Option<string>, cmd: Command)
    requires Consistent(m)
    ensures Consistent(CommandTracks(m, clip, name, cmd))
  {
    var m1 := if clip.Some? then With(m, Music, Transport(m.music, m.shared, clip.value, cmd)) else m;
    if clip.Some? {
      TransportConserves(m.music, m.shared, clip.value, cmd);
      LiftValid(m, Music, Transport(m.music, m.shared, clip.value, cmd));
    }
    if name.Some? {
      TransportNameConserves(m1.music, m1.shared, name.value, cmd);
      LiftValid(m1, Music, TransportName(m1.music, m1.shared, name.value, cmd));
      assert CommandTracks(m, clip, name, cmd) == With(m1, Music, TransportName(m1.music, m1.shared, name.value, cmd));
    } else {
      assert CommandTracks(m, clip, name, cmd) == m1;
    }
  }

  lemma PlayMusicValid(m: Manager, clip: Clip, loop: bool, force: bool)
    requires Consistent(m)
    ensures Consistent(PlayMusic(m, clip, loop, force))
  {
    var stopping := if m.currentClip == Some(clip) then None else m.currentClip;
    CommandTracksValid(m, stopping, m.currentName, StopIt);
    var m2 := PlayMusicStopped(m, clip);
    assert m2.currentName.None?;
    assert Consistent(m2);
    PlayConserves(m2.music, m2.shared, m2.master, clip, loop, force);
    LiftValid(m2, Music, Play(m2.music, m2.shared, m2.master, clip, loop, force));
  }

  lemma PlayMusicNameValid(m: Manager, catalog: string -> Clip, name: string, loop: bool, force: bool)
    requires Consistent(m)
    ensures Consistent(PlayMusicName(m, catalog, name, loop, force))
  {
    var stopping := if m.currentName == Some(name) then None else m.currentName;
    CommandTracksValid(m, m.currentClip, stopping, StopIt);
    var m2 := PlayMusicNameStopped(m, name);
    assert m2.currentClip.None?;
    assert Consistent(m2);
    PlayNameConserves(m2.music, m2.shared, m2.master, catalog, name, loop, force);
    LiftValid(m2, Music, PlayName(m2.music, m2.shared, m2.master, catalog, name, loop, force));
  }

  lemma MusicCommandValid(m: Manager, cmd: Command)
    requires Consistent(m)
    ensures Consistent(MusicCommand(m, cmd))
  {
    CommandTracksValid(m, m.currentClip, m.currentName, cmd);
  }

  lemma SetMusicTimeValid(m: Manager, t: real)
    requires Consistent(m)
    ensures Consistent(SetMusicTime(m, t))
  {
    var m1 := if m.currentClip.Some? then With(m, Music, SetTime(m.music, m.shared, m.currentClip.value, t)) else m;
    if m.currentClip.Some? {
      TransportConserves(m.music, m.shared, m.currentClip.value, SetTimeTo(t));
      LiftValid(m, Music, SetTime(m.music, m.shared, m.currentClip.value, t));
    }
    if m1.currentName.Some? {
      TransportNameConserves(m1.music, m1.shared, m1.currentName.value, SetTimeTo(t));
      LiftValid(m1, Music, SetTimeName(m1.music, m1.shared, m1.currentName.value, t));
    }
  }

  lemma UnloadMusicValid(m: Manager, clip: Clip, name: string)
    requires Consistent(m)
    ensures Consistent(UnloadMusic(m, clip)) && Consistent(UnloadMusicName(m, name))
  {
    UnloadConserves(m.music, m.shared, clip);
    LiftValid(m, Music, Unload(m.music, m.shared, clip));
    UnloadNameConserves(m.music, m.shared, name);
    LiftValid(m, Music, UnloadName(m.music, m.shared, name));
  }

  lemma UnloadAllValid(m: Manager)
    requires Consistent(m)
    ensures Consistent(UnloadAllMusics(m)) && Consistent(UnloadAllSounds(m))
  {
    UnloadAllConserves(m.music, m.shared);
    LiftValid(m, Music, UnloadAll(m.music, m.shared));
    UnloadAllConserves(m.sound, m.shared);
    LiftValid(m, Sound, UnloadAll(m.sound, m.shared));
  }

  // ---------------------------------------------------------------------------------------------------------
  // Output cascade

  /** A conserving step on one pool that leaves every source outside that pool with its output keeps the
      other pool configured, whatever settings it was configured for: the other pool's bound sources are
      created ones the step neither owns nor binds, and its registered sources are the caller's own that the
      stepped pool neither registers nor can bind. */
  lemma OtherKeepsOutput(m: Manager, k: Kind, st: Step, master: Settings)
    requires Consistent(m) && Registrations(m) && Registrations(With(m, k, st))
    requires Conserves(PoolOf(m, k), m.shared, st.pool, st.shared)
    requires OutputFramed(PoolOf(m, k), m.shared, st.pool, st.shared)
    requires Configured(PoolOf(m, Other(k)), m.shared, master)
    ensures Configured(PoolOf(m, Other(k)), st.shared, master)
  {
    var p, o := PoolOf(m, k), PoolOf(m, Other(k));
    var sh, sh2 := m.shared, st.shared;
    if k == Music {
      DisjointSymmetric(m.sound, m.music);
    }
    forall s | s in Owned(o)
      ensures Device.HasOutput(Lookup(sh2.sources, s), o.settings, master)
    {
      if s in o.bindings.Values {
        var c :| c in o.bindings && o.bindings[c] == s;
        OtherBindingKept(p, o, sh, st.pool, sh2, c);
        assert Allocated(s, sh.nextId);
      } else {
        BoundIsCreated(p, sh, s);
        BoundIsCreated(st.pool, sh2, s);
      }
      assert SameOutput(Lookup(sh2.sources, s), Lookup(sh.sources, s));
    }
  }

  /** A step that keeps the pool's sources configured and frames every other source keeps the manager's output
      valid, provided the registrations stay as the manager makes them. */
  lemma StepOutput(m: Manager, k: Kind, st: Step)
    requires Consistent(m) && OutputValid(m) && Registrations(With(m, k, st))
    requires Conserves(PoolOf(m, k), m.shared, st.pool, st.shared)
    requires Cascades(PoolOf(m, k), m.shared, st, m.master)
    ensures OutputValid(With(m, k, st))
  {
    OtherKeepsOutput(m, k, st, m.master);
  }

  /** The registered sets an operation leaves: the same, plus the source for `RegisterOp`, minus it for
      `UnregisterOp`. */
  lemma ApplyRegistered(p: Pool, sh: Shared, master: Settings, catalog: string -> Clip, op: Op)
    ensures Apply(p, sh, master, catalog, op).pool.registered ==
      if op.RegisterOp? then p.registered + {op.source}
      else if op.UnregisterOp? then p.registered - {op.source}
      else p.registered
  {
  }

  /** Every forwarded pool operation keeps the output valid, as long as a registered source is the caller's
      own. */
  lemma RunOutput(m: Manager, k: Kind, catalog: string -> Clip, op: Op)
    requires Consistent(m) && OutputValid(m) && Forwarded(k, op)
    requires op.RegisterOp? ==> op.source.External?
    ensures OutputValid(Run(m, k, catalog, op))
  {
    var st := Apply(PoolOf(m, k), m.shared, m.master, catalog, op);
    ApplyConserves(PoolOf(m, k), m.shared, m.master, catalog, op);
    ApplyCascade(PoolOf(m, k), m.shared, m.master, catalog, op);
    ApplyRegistered(PoolOf(m, k), m.shared, m.master, catalog, op);
    StepOutput(m, k, st);
  }

  /** Pushing the output of both pools again makes the output valid from any consistent state whose
      registrations are as the manager makes them: this is how the master setters take effect. */
  lemma ReconfigureOutput(m: Manager)
    requires Consistent(m) && Registrations(m)
    ensures OutputValid(Reconfigure(m))
  {
    var st1 := ConfigureAll(m.sound, m.shared, m.master);
    var m1 := With(m, Sound, st1);
    ConfigureAllConserves(m.sound, m.shared, m.master);
    LiftValid(m, Sound, st1);
    var st2 := ConfigureAll(m1.music, m1.shared, m1.master);
    ConfigureAllConserves(m1.music, m1.shared, m1.master);
    OtherKeepsOutput(m1, Music, st2, m1.master);
  }

  lemma MasterOutput(m: Manager, v: real, mute: bool)
    requires Consistent(m) && Registrations(m)
    ensures OutputValid(SetMasterVolume(m, v)) && OutputValid(SetMuteMaster(m, mute))
  {
    ReconfigureOutput(m.(master := m.master.(volume := v)));
    ReconfigureOutput(m.(master := m.master.(mute := mute)));
  }

  lemma SetVolumeOutput(m: Manager, k: Kind, v: real)
    requires Consistent(m) && OutputValid(m)
    ensures var r := SetPoolVolume(m, k, v); r.Success? ==> OutputValid(r.value)
  {
    var r := AudioPool.SetVolume(PoolOf(m, k), m.shared, m.master, v);
    SetVolumeConserves(PoolOf(m, k), m.shared, m.master, v);
    SetVolumeCascade(PoolOf(m, k), m.shared, m.master, v);
    if r.Success? {
      OtherKeepsOutput(m, k, r.value, m.master);
    }
  }

  /** A step on the music pool that is one of the forwarded operations, other than registering, keeps both
      invariants, and so does forgetting the current music. The music operations are built from such steps. */
  lemma MusicStepOutput(m: Manager, catalog: string -> Clip, op: Op, st: Step)
    requires Consistent(m) && OutputValid(m) && !op.RegisterOp?
    requires st == Apply(m.music, m.shared, m.master, catalog, op)
    ensures var r := With(m, Music, st);
      && Consistent(r) && OutputValid(r)
      && Consistent(r.(currentClip := None)) && OutputValid(r.(currentClip := None))
      && Consistent(r.(currentName := None)) && OutputValid(r.(currentName := None))
  {
    ApplyConserves(m.music, m.shared, m.master, catalog, op);
    LiftValid(m, Music, st);
    ApplyCascade(m.music, m.shared, m.master, catalog, op);
    ApplyRegistered(m.music, m.shared, m.master, catalog, op);
    StepOutput(m, Music, st);
  }

  /** A transport command on the clip or on the name of the music pool keeps both invariants, and so does
      forgetting the current music afterwards. */
  lemma ClipCommandOutput(m: Manager, c: Clip, cmd: Command)
    requires Consistent(m) && OutputValid(m)
    ensures var r := With(m, Music, Transport(m.music, m.shared, c, cmd));
      && Consistent(r) && OutputValid(r)
      && Consistent(r.(currentClip := None)) && OutputValid(r.(currentClip := None))
  {
    MusicStepOutput(m, (n: string) => Clip(0, n), TransportOp(c, cmd), Transport(m.music, m.shared, c, cmd));
  }

  lemma NameCommandOutput(m: Manager, n: string, cmd: Command)
    requires Consistent(m) && OutputValid(m)
    ensures var r := With(m, Music, TransportName(m.music, m.shared, n, cmd));
      && Consistent(r) && OutputValid(r)
      && Consistent(r.(currentName := None)) && OutputValid(r.(currentName := None))
  {
    MusicStepOutput(m, (n: string) => Clip(0, n), TransportNameOp(n, cmd), TransportName(m.music, m.shared, n, cmd));
  }

  lemma PlayMusicOutput(m: Manager, clip: Clip, loop: bool, force: bool)
    requires Consistent(m) && OutputValid(m)
    ensures OutputValid(PlayMusic(m, clip, loop, force))
  {
    var m2 := PlayMusicStopped(m, clip);
    if m.currentClip.Some? && m.currentClip.value != clip {
      ClipCommandOutput(m, m.currentClip.value, StopIt);
    } else if m.currentName.Some? {
      NameCommandOutput(m, m.currentName.value, StopIt);
    }
    var st := Play(m2.music, m2.shared, m2.master, clip, loop, force);
    MusicStepOutput(m2, (n: string) => Clip(0, n), PlayOp(clip, loop, force), st);
  }

  /** Sending a command to the music tracks keeps both invariants. */
  lemma CommandTracksOutput(m: Manager, clip: Option<Clip>, name: Option<string>, cmd: Command)
    requires Consistent(m) && OutputValid(m)
    ensures Consistent(CommandTracks(m, clip, name, cmd)) && OutputValid(CommandTracks(m, clip, name, cmd))
  {
    var m1 := if clip.Some? then With(m, Music, Transport(m.music, m.shared, clip.value, cmd)) else m;
    if clip.Some? {
      ClipCommandOutput(m, clip.value, cmd);
    }
    if name.Some? {
      NameCommandOutput(m1, name.value, cmd);
      assert CommandTracks(m, clip, name, cmd) == With(m1, Music, TransportName(m1.music, m1.shared, name.value, cmd));
    } else {
      assert CommandTracks(m, clip, name, cmd) == m1;
    }
  }

  lemma PlayMusicNameOutput(m: Manager, catalog: string -> Clip, name: string, loop: bool, force: bool)
    requires Consistent(m) && OutputValid(m)
    ensures OutputValid(PlayMusicName(m, catalog, name, loop, force))
  {
    var stopping := if m.currentName == Some(name) then None else m.currentName;
    CommandTracksOutput(m, m.currentClip, stopping, StopIt);
    var m2 := PlayMusicNameStopped(m, name);
    assert Consistent(m2) && OutputValid(m2);
    var st := PlayName(m2.music, m2.shared, m2.master, catalog, name, loop, force);
    assert PlayMusicName(m, catalog, name, loop, force) == With(m2, Music, st).(currentName := Some(name));
    MusicStepOutput(m2, catalog, PlayNameOp(name, loop, force), st);
  }

  lemma MusicCommandOutput(m: Manager, cmd: Command)
    requires Consistent(m) && OutputValid(m)
    ensures OutputValid(MusicCommand(m, cmd))
  {
    if m.currentClip.Some? {
      var m1 := With(m, Music, Transport(m.music, m.shared, m.currentClip.value, cmd));
      ClipCommandOutput(m, m.currentClip.value, cmd);
      assert MusicCommand(m, cmd) == m1;
    } else if m.currentName.Some? {
      NameCommandOutput(m, m.currentName.value, cmd);
    }
  }

  lemma SetMusicTimeOutput(m: Manager, t: real)
    requires Consistent(m) && OutputValid(m)
    ensures OutputValid(SetMusicTime(m, t))
  {
    assert SetMusicTime(m, t) == MusicCommand(m, SetTimeTo(t));
    MusicCommandOutput(m, SetTimeTo(t));
  }

  lemma UnloadMusicOutput(m: Manager, clip: Clip, name: string)
    requires Consistent(m) && OutputValid(m)
    ensures OutputValid(UnloadMusic(m, clip)) && OutputValid(UnloadMusicName(m, name))
  {
    var catalog := (n: string) => Clip(0, n);
    MusicStepOutput(m, catalog, UnloadOp(clip), Unload(m.music, m.shared, clip));
    MusicStepOutput(m, catalog, UnloadNameOp(name), UnloadName(m.music, m.shared, name));
  }

  lemma UnloadAllOutput(m: Manager)
    requires Consistent(m) && OutputValid(m)
    ensures OutputValid(UnloadAllMusics(m)) && OutputValid(UnloadAllSounds(m))
  {
    UnloadAllConserves(m.music, m.shared);
    UnloadAllCascade(m.music, m.shared, m.master);
    StepOutput(m, Music, UnloadAll(m.music, m.shared));
    UnloadAllConserves(m.sound, m.shared);
    UnloadAllCascade(m.sound, m.shared, m.master);
    StepOutput(m, Sound, UnloadAll(m.sound, m.shared));
  }

  /** The manager as constructed satisfies both invariants. */
  lemma InitialValid()
    ensures Consistent(Initial) && OutputValid(Initial)
  {
  }

  /** Source conservation across the manager: no idle source is bound in either pool, and no source is bound
      to two clips, whether in one pool or across the two. */
  lemma ManagerSourcesConserved(m: Manager)
    requires Consistent(m)
    ensures forall i, k, c :: 0 <= i < |m.shared.free| && c in PoolOf(m, k).bindings ==> m.shared.free[i] != PoolOf(m, k).bindings[c]
    ensures forall k1, k2, c1, c2 :: c1 in PoolOf(m, k1).bindings && c2 in PoolOf(m, k2).bindings && (k1, c1) != (k2, c2) ==>
      PoolOf(m, k1).bindings[c1] != PoolOf(m, k2).bindings[c2]
  {
    SourcesConserved(m.sound, m.shared);
    SourcesConserved(m.music, m.shared);
  }
}
