/** Source conservation for one pool: every operation keeps the pool valid and is a `Conserves` step, so that
    the manager can keep the other pool, which shares the free queue, valid as well. */
module PoolProofs {
  import opened AudioTypes
  import Device
  import opened AudioPool

  /** A bound source holds a clip. */
  lemma BoundHoldsClip(p: Pool, sh: Shared, s: SourceId)
    requires PoolValid(p, sh)
    ensures s in p.bindings.Values ==> Lookup(sh.sources, s).clip.Some?
  {
    if s in p.bindings.Values {
      var c :| c in p.bindings && p.bindings[c] == s;
    }
  }

  /** A source bound by a conservation step that was not bound before held no clip before. */
  lemma NewlyBoundWasIdle(p: Pool, sh: Shared, p2: Pool, sh2: Shared, s: SourceId)
    requires Conserves(p, sh, p2, sh2)
    ensures s in p2.bindings.Values && s !in p.bindings.Values ==> Lookup(sh.sources, s).clip.None?
  {
    if s in p2.bindings.Values {
      var c :| c in p2.bindings && p2.bindings[c] == s;
    }
  }

  /** Conservation steps compose. */
  lemma ConservesTrans(p1: Pool, sh1: Shared, p2: Pool, sh2: Shared, p3: Pool, sh3: Shared)
    requires Conserves(p1, sh1, p2, sh2)
    requires Conserves(p2, sh2, p3, sh3)
    ensures Conserves(p1, sh1, p3, sh3)
  {
    forall s | Lookup(sh1.sources, s).clip.Some? && s !in p1.bindings.Values
      ensures Lookup(sh3.sources, s).clip == Lookup(sh1.sources, s).clip
    {
      NewlyBoundWasIdle(p1, sh1, p2, sh2, s);
    }
    forall c | c in p3.bindings && p3.bindings[c] !in p1.bindings.Values
      ensures Lookup(sh1.sources, p3.bindings[c]).clip.None?
    {
      var s := p3.bindings[c];
      NewlyBoundWasIdle(p1, sh1, p2, sh2, s);
    }
    forall n
      ensures Calls(sh3.loads, n) + Calls(sh1.unloads, n) + Ind(n in p1.names) ==
              Calls(sh1.loads, n) + Calls(sh3.unloads, n) + Ind(n in p3.names)
    {
      assert Calls(sh2.loads, n) + Calls(sh1.unloads, n) + Ind(n in p1.names) ==
             Calls(sh1.loads, n) + Calls(sh2.unloads, n) + Ind(n in p2.names);
      assert Calls(sh3.loads, n) + Calls(sh2.unloads, n) + Ind(n in p2.names) ==
             Calls(sh2.loads, n) + Calls(sh3.unloads, n) + Ind(n in p3.names);
    }
  }

  /** A valid pool is a conservation step to itself. */
  lemma ConservesRefl(p: Pool, sh: Shared)
    requires Valid(p, sh)
    ensures Conserves(p, sh, p, sh)
  {
  }

  /** A step that changes only attributes keeps the pool valid. */
  lemma AttributesOnlyConserves(p: Pool, sh: Shared, sh2: Shared)
    requires Valid(p, sh)
    requires AttributesOnly(p, sh, sh2)
    ensures Conserves(p, sh, p, sh2)
  {
    forall i | 0 <= i < |sh2.free|
      ensures sh2.sources[sh2.free[i]].playback == Stopped
    {
      BoundHoldsClip(p, sh, sh.free[i]);
    }
    forall s | Lookup(sh.sources, s).clip.Some? && s !in p.bindings.Values
      ensures Lookup(sh2.sources, s).clip == Lookup(sh.sources, s).clip
    {
    }
  }

  /** Loading a clip keeps the pool valid: the source it binds held no clip (it was idle or is new). */
  lemma LoadConserves(p: Pool, sh: Shared, master: Settings, clip: Clip)
    requires Valid(p, sh)
    ensures var r := Load(p, sh, master, clip); Conserves(p, sh, r.pool, r.shared)
  {
    var r := Load(p, sh, master, clip);
    if clip !in p.bindings {
      var s := if |sh.free| > 0 then sh.free[0] else SourceId.Created(sh.nextId);
      assert Lookup(sh.sources, s).clip.None?;
      BoundHoldsClip(p, sh, s);
      forall i | 0 <= i < |r.shared.free|
        ensures r.shared.free[i] != s
      {
        if |sh.free| > 0 {
          assert r.shared.free[i] == sh.free[i + 1];
        }
      }
      assert PoolValid(r.pool, r.shared);
      forall n
        ensures Calls(r.shared.loads, n) + Calls(sh.unloads, n) + Ind(n in p.names) ==
                Calls(sh.loads, n) + Calls(r.shared.unloads, n) + Ind(n in r.pool.names)
      {
      }
    }
  }

  /** Caching a name only adds the name and the loader call that produced it. */
  lemma CacheNameConserves(p: Pool, sh: Shared, catalog: string -> Clip, name: string)
    requires Valid(p, sh)
    ensures var r := CacheName(p, sh, catalog, name); Conserves(p, sh, r.pool, r.shared)
  {
    var r := CacheName(p, sh, catalog, name);
    if name !in p.names {
      forall n
        ensures Calls(r.shared.loads, n) + Calls(sh.unloads, n) + Ind(n in p.names) ==
                Calls(sh.loads, n) + Calls(r.shared.unloads, n) + Ind(n in r.pool.names)
      {
        assert multiset(r.shared.loads) == multiset(sh.loads) + multiset{name};
      }
    }
  }

  lemma LoadNameConserves(p: Pool, sh: Shared, master: Settings, catalog: string -> Clip, name: string)
    requires Valid(p, sh)
    ensures var r := LoadName(p, sh, master, catalog, name); Conserves(p, sh, r.pool, r.shared)
  {
    var c := CacheName(p, sh, catalog, name);
    CacheNameConserves(p, sh, catalog, name);
    LoadConserves(c.pool, c.shared, master, c.pool.names[name]);
    var r := Load(c.pool, c.shared, master, c.pool.names[name]);
    ConservesTrans(p, sh, c.pool, c.shared, r.pool, r.shared);
  }

  lemma PlayOneShotConserves(p: Pool, sh: Shared, master: Settings, clip: Clip)
    requires Valid(p, sh)
    ensures var r := PlayOneShot(p, sh, master, clip); Conserves(p, sh, r.pool, r.shared)
  {
    LoadConserves(p, sh, master, clip);
  }

  lemma PlayOneShotNameConserves(p: Pool, sh: Shared, master: Settings, catalog: string -> Clip, name: string)
    requires Valid(p, sh)
    ensures var r := PlayOneShotName(p, sh, master, catalog, name); Conserves(p, sh, r.pool, r.shared)
  {
    var c := CacheName(p, sh, catalog, name);
    CacheNameConserves(p, sh, catalog, name);
    PlayOneShotConserves(c.pool, c.shared, master, c.pool.names[name]);
    var r := PlayOneShot(c.pool, c.shared, master, c.pool.names[name]);
    ConservesTrans(p, sh, c.pool, c.shared, r.pool, r.shared);
  }

  /** Changing one bound source's attributes without touching its clip is an attribute-only step. */
  lemma BoundAttributesOnly(p: Pool, sh: Shared, sh2: Shared, c: Clip)
    requires Valid(p, sh)
    requires c in p.bindings
    requires OnlySource(sh, sh2, p.bindings[c])
    requires Lookup(sh2.sources, p.bindings[c]).clip == Lookup(sh.sources, p.bindings[c]).clip
    ensures AttributesOnly(p, sh, sh2)
  {
    var s := p.bindings[c];
    assert s in p.bindings.Values;
    forall x | x in sh.sources
      ensures x in sh2.sources && sh2.sources[x].clip == sh.sources[x].clip
      ensures sh2.sources[x].playback == sh.sources[x].playback || x in p.bindings.Values
    {
      if x == s {
        assert Lookup(sh2.sources, s) == sh2.sources[s];
      } else {
        assert x in sh.sources - {s};
        assert (sh2.sources - {s})[x] == (sh.sources - {s})[x];
      }
    }
    forall x | x in sh2.sources
      ensures x in sh.sources
    {
      if x != s {
        assert x in sh2.sources - {s};
      }
    }
  }

  lemma PlayConserves(p: Pool, sh: Shared, master: Settings, clip: Clip, loop: bool, force: bool)
    requires Valid(p, sh)
    ensures var r := Play(p, sh, master, clip, loop, force); Conserves(p, sh, r.pool, r.shared)
  {
    var l := Load(p, sh, master, clip);
    var r := Play(p, sh, master, clip, loop, force);
    LoadConserves(p, sh, master, clip);
    BoundAttributesOnly(l.pool, l.shared, r.shared, clip);
    AttributesOnlyConserves(l.pool, l.shared, r.shared);
    ConservesTrans(p, sh, l.pool, l.shared, r.pool, r.shared);
  }

  lemma PlayNameConserves(p: Pool, sh: Shared, master: Settings, catalog: string -> Clip, name: string, loop: bool, force: bool)
    requires Valid(p, sh)
    ensures var r := PlayName(p, sh, master, catalog, name, loop, force); Conserves(p, sh, r.pool, r.shared)
  {
    var c := CacheName(p, sh, catalog, name);
    CacheNameConserves(p, sh, catalog, name);
    PlayConserves(c.pool, c.shared, master, c.pool.names[name], loop, force);
    var r := Play(c.pool, c.shared, master, c.pool.names[name], loop, force);
    ConservesTrans(p, sh, c.pool, c.shared, r.pool, r.shared);
  }

  /** Seeking, pausing, resuming and stopping one clip keep the pool valid. */
  lemma TransportConserves(p: Pool, sh: Shared, clip: Clip, cmd: Command)
    requires Valid(p, sh)
    ensures var r := Transport(p, sh, clip, cmd); Conserves(p, sh, r.pool, r.shared)
  {
    var r := Transport(p, sh, clip, cmd);
    if clip in p.bindings {
      BoundAttributesOnly(p, sh, r.shared, clip);
      AttributesOnlyConserves(p, sh, r.shared);
    }
  }

  lemma TransportNameConserves(p: Pool, sh: Shared, name: string, cmd: Command)
    requires Valid(p, sh)
    ensures var r := TransportName(p, sh, name, cmd); Conserves(p, sh, r.pool, r.shared)
  {
    if name in p.names {
      TransportConserves(p, sh, p.names[name], cmd);
    }
  }

  /** The `All` forms keep the pool valid. */
  lemma TransportAllConserves(p: Pool, sh: Shared, cmd: Command)
    requires Valid(p, sh)
    ensures var r := TransportAll(p, sh, cmd); Conserves(p, sh, r.pool, r.shared)
  {
    var r := TransportAll(p, sh, cmd);
    assert p.bindings.Values <= sh.sources.Keys;
    forall x | x in sh.sources
      ensures r.shared.sources[x].clip == sh.sources[x].clip
    {
      assert Lookup(r.shared.sources, x).clip == Lookup(sh.sources, x).clip;
    }
    AttributesOnlyConserves(p, sh, r.shared);
  }

  /** Pushing volume and mute keeps the pool valid. */
  lemma ConfigureAllConserves(p: Pool, sh: Shared, master: Settings)
    requires Valid(p, sh)
    ensures var r := ConfigureAll(p, sh, master); Conserves(p, sh, r.pool, r.shared)
  {
    var r := ConfigureAll(p, sh, master);
    AttributesOnlyConserves(p, sh, r.shared);
  }

  lemma SetVolumeConserves(p: Pool, sh: Shared, master: Settings, v: real)
    requires Valid(p, sh)
    ensures var r := SetVolume(p, sh, master, v); r.Success? ==> Conserves(p, sh, r.value.pool, r.value.shared)
  {
    var r := SetVolume(p, sh, master, v);
    if r.Success? {
      AttributesOnlyConserves(p, sh, r.value.shared);
    }
  }

  lemma SetMuteConserves(p: Pool, sh: Shared, master: Settings, mute: bool)
    requires Valid(p, sh)
    ensures var r := SetMute(p, sh, master, mute); Conserves(p, sh, r.pool, r.shared)
  {
    var r := SetMute(p, sh, master, mute);
    AttributesOnlyConserves(p, sh, r.shared);
  }

  lemma RegisterConserves(p: Pool, sh: Shared, master: Settings, s: SourceId)
    requires Valid(p, sh)
    ensures var r := Register(p, sh, master, s); Conserves(p, sh, r.pool, r.shared)
  {
    var r := Register(p, sh, master, s);
    forall x | x in sh.sources
      ensures r.shared.sources[x].clip == sh.sources[x].clip
    {
      if x != s {
        assert x in r.shared.sources - {s};
        assert (r.shared.sources - {s})[x] == (sh.sources - {s})[x];
      }
    }
    assert AttributesOnly(p, sh, r.shared);
    AttributesOnlyConserves(p, sh, r.shared);
  }

  /** Releasing a clip's source keeps the pool valid: the source leaves the bindings exactly when it joins the
      free queue, stopped and without a clip. */
  lemma UnloadConserves(p: Pool, sh: Shared, clip: Clip)
    requires Valid(p, sh)
    ensures var r := Unload(p, sh, clip); Conserves(p, sh, r.pool, r.shared)
  {
    var r := Unload(p, sh, clip);
    if clip in p.bindings {
      var s := p.bindings[clip];
      assert forall i :: 0 <= i < |sh.free| ==> sh.free[i] != s by {
        forall i | 0 <= i < |sh.free|
          ensures sh.free[i] != s
        {
          assert sh.sources[sh.free[i]].clip.None?;
        }
      }
      forall c | c in r.pool.bindings
        ensures r.pool.bindings[c] != s
      {
        assert sh.sources[p.bindings[c]].clip == Some(c);
      }
      forall x | Lookup(sh.sources, x).clip.Some? && x !in p.bindings.Values
        ensures Lookup(r.shared.sources, x).clip == Lookup(sh.sources, x).clip
      {
        assert x != s;
        assert x in sh.sources;
        assert x in sh.sources - {s};
      }
      forall c | c in r.pool.bindings
        ensures r.pool.bindings[c] in r.shared.sources && r.shared.sources[r.pool.bindings[c]].clip == Some(c)
      {
        var x := r.pool.bindings[c];
        assert x in sh.sources - {s};
      }
      forall x | x in r.shared.sources && r.shared.sources[x].clip.Some?
        ensures Allocated(x, r.shared.nextId)
      {
        assert x != s;
        assert x in r.shared.sources - {s};
      }
      forall i | 0 <= i < |r.shared.free|
        ensures r.shared.free[i] in r.shared.sources && r.shared.sources[r.shared.free[i]].clip.None?
          && r.shared.sources[r.shared.free[i]].playback == Stopped
      {
        if i < |sh.free| {
          assert r.shared.free[i] == sh.free[i];
          assert sh.free[i] in r.shared.sources - {s};
        }
      }
    }
  }

  /** Unloading a name keeps the pool valid and balances the loader: the one unload call matches the name that
      leaves the cache. */
  lemma UnloadNameConserves(p: Pool, sh: Shared, name: string)
    requires Valid(p, sh)
    ensures var r := UnloadName(p, sh, name); Conserves(p, sh, r.pool, r.shared)
  {
    if name in p.names {
      var u := Unload(p, sh, p.names[name]);
      var r := UnloadName(p, sh, name);
      UnloadConserves(p, sh, p.names[name]);
      forall n
        ensures Calls(r.shared.loads, n) + Calls(sh.unloads, n) + Ind(n in p.names) ==
                Calls(sh.loads, n) + Calls(r.shared.unloads, n) + Ind(n in r.pool.names)
      {
        assert multiset(r.shared.unloads) == multiset(sh.unloads) + multiset{name};
      }
      assert Valid(r.pool, r.shared);
    }
  }

  lemma {:induction false} UnloadNamesConserves(p: Pool, sh: Shared, keys: set<string>)
    requires Valid(p, sh)
    ensures var r := UnloadNames(p, sh, keys); Conserves(p, sh, r.pool, r.shared)
    decreases keys
  {
    if keys == {} {
      ConservesRefl(p, sh);
    } else {
      var n := Pick(keys);
      var st := UnloadName(p, sh, n);
      assert UnloadNames(p, sh, keys) == UnloadNames(st.pool, st.shared, keys - {n});
      UnloadNameConserves(p, sh, n);
      UnloadNamesConserves(st.pool, st.shared, keys - {n});
      var r := UnloadNames(st.pool, st.shared, keys - {n});
      ConservesTrans(p, sh, st.pool, st.shared, r.pool, r.shared);
    }
  }

  lemma {:induction false} UnloadClipsConserves(p: Pool, sh: Shared, keys: set<Clip>)
    requires Valid(p, sh)
    ensures var r := UnloadClips(p, sh, keys); Conserves(p, sh, r.pool, r.shared)
    decreases keys
  {
    if keys == {} {
      ConservesRefl(p, sh);
    } else {
      var c := Pick(keys);
      var st := Unload(p, sh, c);
      assert UnloadClips(p, sh, keys) == UnloadClips(st.pool, st.shared, keys - {c});
      UnloadConserves(p, sh, c);
      UnloadClipsConserves(st.pool, st.shared, keys - {c});
      var r := UnloadClips(st.pool, st.shared, keys - {c});
      ConservesTrans(p, sh, st.pool, st.shared, r.pool, r.shared);
    }
  }

  lemma UnloadAllConserves(p: Pool, sh: Shared)
    requires Valid(p, sh)
    ensures var r := UnloadAll(p, sh); Conserves(p, sh, r.pool, r.shared)
  {
    var st := UnloadNames(p, sh, p.names.Keys);
    UnloadNamesConserves(p, sh, p.names.Keys);
    UnloadClipsConserves(st.pool, st.shared, st.pool.bindings.Keys);
    var r := UnloadClips(st.pool, st.shared, st.pool.bindings.Keys);
    ConservesTrans(p, sh, st.pool, st.shared, r.pool, r.shared);
  }

  /** Every operation the manager forwards keeps the pool valid. */
  lemma ApplyConserves(p: Pool, sh: Shared, master: Settings, catalog: string -> Clip, op: Op)
    requires Valid(p, sh)
    ensures var r := Apply(p, sh, master, catalog, op); Conserves(p, sh, r.pool, r.shared)
  {
    match op
    case LoadOp(c) => LoadConserves(p, sh, master, c);
    case LoadNameOp(n) => LoadNameConserves(p, sh, master, catalog, n);
    case PlayOneShotOp(c) => PlayOneShotConserves(p, sh, master, c);
    case PlayOneShotNameOp(n) => PlayOneShotNameConserves(p, sh, master, catalog, n);
    case PlayOp(c, loop, force) => PlayConserves(p, sh, master, c, loop, force);
    case PlayNameOp(n, loop, force) => PlayNameConserves(p, sh, master, catalog, n, loop, force);
    case TransportOp(c, cmd) => TransportConserves(p, sh, c, cmd);
    case TransportNameOp(n, cmd) => TransportNameConserves(p, sh, n, cmd);
    case TransportAllOp(cmd) => TransportAllConserves(p, sh, cmd);
    case UnloadOp(c) => UnloadConserves(p, sh, c);
    case UnloadNameOp(n) => UnloadNameConserves(p, sh, n);
    case SetMuteOp(mute) => SetMuteConserves(p, sh, master, mute);
    case RegisterOp(s) => RegisterConserves(p, sh, master, s);
    case UnregisterOp(s) => ConservesRefl(p, sh);
    case ConfigureAllOp => ConfigureAllConserves(p, sh, master);
  }

  /** Source conservation in a valid pool: no idle source is bound, and no two clips share a source. */
  lemma SourcesConserved(p: Pool, sh: Shared)
    requires Valid(p, sh)
    ensures forall i, c :: 0 <= i < |sh.free| && c in p.bindings ==> sh.free[i] != p.bindings[c]
    ensures forall c1, c2 :: c1 in p.bindings && c2 in p.bindings && c1 != c2 ==> p.bindings[c1] != p.bindings[c2]
  {
  }
}
