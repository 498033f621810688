/** The volume cascade for one pool: every operation leaves the pool's bound and registered sources at the
    pool volume times the master volume, muted when either is muted, and changes the output of no source that
    another pool could own. */
module CascadeProofs {
  import opened AudioTypes
  import Device
  import opened AudioPool

  predicate SameOutput(a: Source, b: Source) {
    a.volume == b.volume && a.mute == b.mute
  }

  /** No source's volume or mute changed. */
  ghost predicate OutputsKept(sh: Shared, sh2: Shared) {
    forall s :: SameOutput(Lookup(sh2.sources, s), Lookup(sh.sources, s))
  }

  /** The step changed the output only of sources the pool owns before or after it, and of sources that are
      neither a caller's nor hold a clip (the idle or new source a load takes). Another pool's sources are
      callers' or hold a clip, so their output is untouched. */
  ghost predicate OutputFramed(p: Pool, sh: Shared, p2: Pool, sh2: Shared) {
    forall s :: s !in Owned(p) && s !in Owned(p2) && (s.External? || Lookup(sh.sources, s).clip.Some?) ==>
      SameOutput(Lookup(sh2.sources, s), Lookup(sh.sources, s))
  }

  /** The cascade invariant survives the step, and the step touched no other pool's output. */
  ghost predicate Cascades(p: Pool, sh: Shared, r: Step, master: Settings) {
    && (Configured(p, sh, master) ==> Configured(r.pool, r.shared, master))
    && OutputFramed(p, sh, r.pool, r.shared)
  }

  lemma OnlySourceLookup(sh: Shared, sh2: Shared, s: SourceId, x: SourceId)
    requires OnlySource(sh, sh2, s)
    requires x != s
    ensures Lookup(sh2.sources, x) == Lookup(sh.sources, x)
  {
    if x in sh.sources {
      assert x in sh.sources - {s};
    }
    if x in sh2.sources {
      assert x in sh2.sources - {s};
    }
  }

  /** A step that kept every output, the settings, and owns no new source keeps the cascade. */
  lemma KeptOutputsCascade(p: Pool, sh: Shared, p2: Pool, sh2: Shared, master: Settings)
    requires OutputsKept(sh, sh2)
    requires p2.settings == p.settings
    requires Owned(p2) <= Owned(p)
    ensures Configured(p, sh, master) ==> Configured(p2, sh2, master)
    ensures OutputFramed(p, sh, p2, sh2)
  {
    if Configured(p, sh, master) {
      forall s | s in Owned(p2)
        ensures Device.HasOutput(Lookup(sh2.sources, s), p2.settings, master)
      {
        assert SameOutput(Lookup(sh2.sources, s), Lookup(sh.sources, s));
      }
    }
  }

  /** Changing one source without touching its volume or mute keeps every output. */
  lemma OnlySourceKeepsOutputs(sh: Shared, sh2: Shared, s: SourceId)
    requires OnlySource(sh, sh2, s)
    requires SameOutput(Lookup(sh2.sources, s), Lookup(sh.sources, s))
    ensures OutputsKept(sh, sh2)
  {
    forall x
      ensures SameOutput(Lookup(sh2.sources, x), Lookup(sh.sources, x))
    {
      if x != s {
        OnlySourceLookup(sh, sh2, s, x);
      }
    }
  }

  lemma TransportCascade(p: Pool, sh: Shared, clip: Clip, cmd: Command)
    ensures var r := Transport(p, sh, clip, cmd); OutputsKept(sh, r.shared)
  {
    var r := Transport(p, sh, clip, cmd);
    if clip in p.bindings {
      OnlySourceKeepsOutputs(sh, r.shared, p.bindings[clip]);
    }
  }

  lemma TransportAllCascade(p: Pool, sh: Shared, cmd: Command)
    ensures var r := TransportAll(p, sh, cmd); OutputsKept(sh, r.shared)
  {
    var r := TransportAll(p, sh, cmd);
    forall x
      ensures SameOutput(Lookup(r.shared.sources, x), Lookup(sh.sources, x))
    {
      if x in p.bindings.Values {
        var c :| c in p.bindings && p.bindings[c] == x;
      }
    }
  }

  lemma UnloadCascade(p: Pool, sh: Shared, clip: Clip)
    ensures var r := Unload(p, sh, clip); OutputsKept(sh, r.shared) && Owned(r.pool) <= Owned(p)
  {
    var r := Unload(p, sh, clip);
    if clip in p.bindings {
      var s := p.bindings[clip];
      forall x
        ensures SameOutput(Lookup(r.shared.sources, x), Lookup(sh.sources, x))
      {
        if x != s {
          if x in sh.sources {
            assert x in sh.sources - {s};
          }
          if x in r.shared.sources {
            assert x in r.shared.sources - {s};
          }
        }
      }
    }
  }

  lemma UnloadNameCascade(p: Pool, sh: Shared, name: string)
    ensures var r := UnloadName(p, sh, name); OutputsKept(sh, r.shared) && Owned(r.pool) <= Owned(p)
  {
    if name in p.names {
      UnloadCascade(p, sh, p.names[name]);
    }
  }

  /** Loading keeps the cascade: the newly bound source is configured on the way in, and the source it takes
      is idle or new, so it belongs to no other pool. */
  lemma LoadCascade(p: Pool, sh: Shared, master: Settings, clip: Clip)
    requires SharedValid(sh)
    ensures Cascades(p, sh, Load(p, sh, master, clip), master)
  {
    var r := Load(p, sh, master, clip);
    if clip !in p.bindings {
      var s := if |sh.free| > 0 then sh.free[0] else SourceId.Created(sh.nextId);
      assert r.pool.bindings.Values == p.bindings.Values + {s} by {
        forall x | x in r.pool.bindings.Values
          ensures x in p.bindings.Values + {s}
        {
          var c :| c in r.pool.bindings && r.pool.bindings[c] == x;
          if c != clip {
            assert p.bindings[c] == x;
          }
        }
        forall x | x in p.bindings.Values + {s}
          ensures x in r.pool.bindings.Values
        {
          if x == s {
            assert r.pool.bindings[clip] == s;
          } else {
            var c :| c in p.bindings && p.bindings[c] == x;
            assert r.pool.bindings[c] == x;
          }
        }
      }
      forall x | x != s
        ensures Lookup(r.shared.sources, x) == Lookup(sh.sources, x)
      {
        if x in sh.sources {
          assert x in sh.sources - {s};
        }
        if x in r.shared.sources {
          assert x in r.shared.sources - {s};
        }
      }
      assert s.Created? && Lookup(sh.sources, s).clip.None?;
    }
  }

  lemma CacheNameCascade(p: Pool, sh: Shared, catalog: string -> Clip, name: string)
    ensures var r := CacheName(p, sh, catalog, name);
      r.shared.sources == sh.sources && Owned(r.pool) == Owned(p) && r.pool.settings == p.settings
  {
  }

  /** Loading, playing and one-shots (by clip or by name) keep the cascade. */
  lemma PlayCascade(p: Pool, sh: Shared, master: Settings, clip: Clip, loop: bool, force: bool)
    requires SharedValid(sh)
    ensures Cascades(p, sh, Play(p, sh, master, clip, loop, force), master)
  {
    var l := Load(p, sh, master, clip);
    var r := Play(p, sh, master, clip, loop, force);
    LoadCascade(p, sh, master, clip);
    OnlySourceKeepsOutputs(l.shared, r.shared, r.pool.bindings[clip]);
    KeptOutputsCascade(l.pool, l.shared, r.pool, r.shared, master);
  }

  lemma LoadNameCascade(p: Pool, sh: Shared, master: Settings, catalog: string -> Clip, name: string)
    requires SharedValid(sh)
    ensures Cascades(p, sh, LoadName(p, sh, master, catalog, name), master)
  {
    var cn := CacheName(p, sh, catalog, name);
    LoadCascade(cn.pool, cn.shared, master, cn.pool.names[name]);
  }

  lemma PlayOneShotCascade(p: Pool, sh: Shared, master: Settings, clip: Clip)
    requires SharedValid(sh)
    ensures Cascades(p, sh, PlayOneShot(p, sh, master, clip), master)
  {
    LoadCascade(p, sh, master, clip);
  }

  lemma PlayOneShotNameCascade(p: Pool, sh: Shared, master: Settings, catalog: string -> Clip, name: string)
    requires SharedValid(sh)
    ensures Cascades(p, sh, PlayOneShotName(p, sh, master, catalog, name), master)
  {
    var cn := CacheName(p, sh, catalog, name);
    LoadCascade(cn.pool, cn.shared, master, cn.pool.names[name]);
  }

  lemma PlayNameCascade(p: Pool, sh: Shared, master: Settings, catalog: string -> Clip, name: string, loop: bool, force: bool)
    requires SharedValid(sh)
    ensures Cascades(p, sh, PlayName(p, sh, master, catalog, name, loop, force), master)
  {
    var cn := CacheName(p, sh, catalog, name);
    PlayCascade(cn.pool, cn.shared, master, cn.pool.names[name], loop, force);
  }

  lemma TransportNameCascade(p: Pool, sh: Shared, name: string, cmd: Command)
    ensures OutputsKept(sh, TransportName(p, sh, name, cmd).shared)
  {
    if name in p.names {
      TransportCascade(p, sh, p.names[name], cmd);
    }
  }

  lemma RegisterCascade(p: Pool, sh: Shared, master: Settings, s: SourceId)
    ensures Cascades(p, sh, Register(p, sh, master, s), master)
  {
    var r := Register(p, sh, master, s);
    forall x | x != s
      ensures Lookup(r.shared.sources, x) == Lookup(sh.sources, x)
    {
      OnlySourceLookup(sh, r.shared, s, x);
    }
  }

  /** Every operation the manager forwards keeps the cascade of its pool and leaves the other pool's output
      alone; the mute setter and ConfigureAll establish the cascade whatever held before. */
  lemma ApplyCascade(p: Pool, sh: Shared, master: Settings, catalog: string -> Clip, op: Op)
    requires SharedValid(sh)
    ensures Cascades(p, sh, Apply(p, sh, master, catalog, op), master)
    ensures op.SetMuteOp? || op.ConfigureAllOp? ==>
      var r := Apply(p, sh, master, catalog, op); Configured(r.pool, r.shared, master)
  {
    var r := Apply(p, sh, master, catalog, op);
    match op
    case LoadOp(c) => LoadCascade(p, sh, master, c);
    case LoadNameOp(n) => LoadNameCascade(p, sh, master, catalog, n);
    case PlayOneShotOp(c) => PlayOneShotCascade(p, sh, master, c);
    case PlayOneShotNameOp(n) => PlayOneShotNameCascade(p, sh, master, catalog, n);
    case PlayOp(c, loop, force) => PlayCascade(p, sh, master, c, loop, force);
    case PlayNameOp(n, loop, force) => PlayNameCascade(p, sh, master, catalog, n, loop, force);
    case TransportOp(c, cmd) =>
      TransportCascade(p, sh, c, cmd);
      KeptOutputsCascade(p, sh, r.pool, r.shared, master);
    case TransportNameOp(n, cmd) =>
      TransportNameCascade(p, sh, n, cmd);
      KeptOutputsCascade(p, sh, r.pool, r.shared, master);
    case TransportAllOp(cmd) =>
      TransportAllCascade(p, sh, cmd);
      KeptOutputsCascade(p, sh, r.pool, r.shared, master);
    case UnloadOp(c) =>
      UnloadCascade(p, sh, c);
      KeptOutputsCascade(p, sh, r.pool, r.shared, master);
    case UnloadNameOp(n) =>
      UnloadNameCascade(p, sh, n);
      KeptOutputsCascade(p, sh, r.pool, r.shared, master);
    case SetMuteOp(mute) =>
    case RegisterOp(s) => RegisterCascade(p, sh, master, s);
    case UnregisterOp(s) => KeptOutputsCascade(p, sh, r.pool, r.shared, master);
    case ConfigureAllOp =>
  }

  /** The volume setter, when it succeeds, leaves the pool configured with the new volume and touches no
      source outside the pool. */
  lemma SetVolumeCascade(p: Pool, sh: Shared, master: Settings, v: real)
    ensures var r := SetVolume(p, sh, master, v);
      r.Success? ==> Configured(r.value.pool, r.value.shared, master) && OutputFramed(p, sh, r.value.pool, r.value.shared)
  {
  }

  lemma {:induction false} UnloadNamesCascade(p: Pool, sh: Shared, keys: set<string>)
    ensures var r := UnloadNames(p, sh, keys); OutputsKept(sh, r.shared) && Owned(r.pool) <= Owned(p)
    decreases keys
  {
    if keys != {} {
      var n := Pick(keys);
      var st := UnloadName(p, sh, n);
      assert UnloadNames(p, sh, keys) == UnloadNames(st.pool, st.shared, keys - {n});
      UnloadNameCascade(p, sh, n);
      UnloadNamesCascade(st.pool, st.shared, keys - {n});
    }
  }

  lemma {:induction false} UnloadClipsCascade(p: Pool, sh: Shared, keys: set<Clip>)
    ensures var r := UnloadClips(p, sh, keys); OutputsKept(sh, r.shared) && Owned(r.pool) <= Owned(p)
    decreases keys
  {
    if keys != {} {
      var c := Pick(keys);
      var st := Unload(p, sh, c);
      assert UnloadClips(p, sh, keys) == UnloadClips(st.pool, st.shared, keys - {c});
      UnloadCascade(p, sh, c);
      UnloadClipsCascade(st.pool, st.shared, keys - {c});
    }
  }

  /** UnloadAll keeps the cascade and touches no output at all. */
  lemma UnloadAllCascade(p: Pool, sh: Shared, master: Settings)
    ensures var r := UnloadAll(p, sh);
      && (Configured(p, sh, master) ==> Configured(r.pool, r.shared, master))
      && OutputFramed(p, sh, r.pool, r.shared)
  {
    var st := UnloadNames(p, sh, p.names.Keys);
    UnloadNamesCascade(p, sh, p.names.Keys);
    UnloadClipsCascade(st.pool, st.shared, st.pool.bindings.Keys);
    var r := UnloadAll(p, sh);
    KeptOutputsCascade(p, sh, r.pool, r.shared, master);
  }
}
