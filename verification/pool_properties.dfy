/** Behavioural properties of one pool that relate several calls: load-once caching, source reuse through the
    free queue, the `force` rule of play, and the no-op behaviour on names and clips that are not loaded. */
module PoolProperties {
  import opened AudioTypes
  import Device
  import opened AudioPool
  import opened CascadeProofs

  /** Loading a clip twice is the same as loading it once. */
  lemma LoadIdempotent(p: Pool, sh: Shared, master: Settings, clip: Clip)
    ensures var once := Load(p, sh, master, clip);
      Load(once.pool, once.shared, master, clip) == once
  {
  }

  /** Loading a name twice is the same as loading it once, and the asset loader is called at most once for
      it, and not at all when it was cached already. */
  lemma LoadNameIdempotent(p: Pool, sh: Shared, master: Settings, catalog: string -> Clip, name: string)
    ensures var once := LoadName(p, sh, master, catalog, name);
      var twice := LoadName(once.pool, once.shared, master, catalog, name);
      && twice == once
      && Calls(twice.shared.loads, name) == Calls(sh.loads, name) + Ind(name !in p.names)
      && |twice.shared.loads| <= |sh.loads| + 1
  {
    var once := LoadName(p, sh, master, catalog, name);
    if name !in p.names {
      assert multiset(once.shared.loads) == multiset(sh.loads) + multiset{name};
    }
  }

  /** A clip loaded into a pool that has idle sources takes the head of the queue and creates nothing; with
      no idle source it creates exactly one. */
  lemma LoadAllocation(p: Pool, sh: Shared, master: Settings, clip: Clip)
    requires clip !in p.bindings
    ensures var r := Load(p, sh, master, clip);
      && (|sh.free| > 0 ==> r.shared.nextId == sh.nextId && r.pool.bindings[clip] == sh.free[0] && |r.shared.free| == |sh.free| - 1)
      && (|sh.free| == 0 ==> r.shared.nextId == sh.nextId + 1 && r.pool.bindings[clip] == SourceId.Created(sh.nextId))
  {
  }

  /** Unload followed by load reuses the released source: starting with no idle source, loading "x" creates
      one source, unloading "x" returns it to the queue, and loading "y" binds that same source without
      creating another. */
  lemma ReuseAfterUnload(p: Pool, sh: Shared, master: Settings, catalog: string -> Clip, x: string, y: string)
    requires |sh.free| == 0
    requires x !in p.names && y !in p.names && x != y
    requires catalog(x) !in p.bindings && catalog(y) !in p.bindings
    ensures
      var a := LoadName(p, sh, master, catalog, x);
      var b := UnloadName(a.pool, a.shared, x);
      var c := LoadName(b.pool, b.shared, master, catalog, y);
      && a.shared.nextId == sh.nextId + 1
      && b.shared.free == [SourceId.Created(sh.nextId)]
      && c.shared.nextId == sh.nextId + 1
      && c.shared.free == []
      && c.pool.bindings[catalog(y)] == SourceId.Created(sh.nextId)
  {
    var a := LoadName(p, sh, master, catalog, x);
    var cx := CacheName(p, sh, catalog, x);
    assert a == Load(cx.pool, cx.shared, master, catalog(x));
    assert a.pool.bindings[catalog(x)] == SourceId.Created(sh.nextId);
    var b := UnloadName(a.pool, a.shared, x);
    assert b.pool.bindings == p.bindings;
    var cy := CacheName(b.pool, b.shared, catalog, y);
    assert cy.shared.free == [SourceId.Created(sh.nextId)];
  }

  /** Playing without `force` while the clip is already playing changes nothing: the position is kept. */
  lemma PlayAgainKeepsPosition(p: Pool, sh: Shared, master: Settings, clip: Clip, loop: bool, force: bool)
    ensures var once := Play(p, sh, master, clip, loop, force);
      Play(once.pool, once.shared, master, clip, loop, false) == once
  {
    var once := Play(p, sh, master, clip, loop, force);
    var s := once.pool.bindings[clip];
    assert once.shared.sources[s := Lookup(once.shared.sources, s)] == once.shared.sources;
  }

  /** Playing with `force` always restarts the clip from the beginning. */
  lemma ForcedPlayRestarts(p: Pool, sh: Shared, master: Settings, clip: Clip, loop: bool)
    ensures var r := Play(p, sh, master, clip, loop, true);
      && GetTime(r.pool, r.shared, clip) == 0.0
      && Device.IsPlaying(Lookup(r.shared.sources, r.pool.bindings[clip]))
  {
  }

  /** After a name is unloaded, every command on it is a no-op and its time reads 0, as if it had never been
      loaded. */
  lemma UnloadedNameIsInert(p: Pool, sh: Shared, name: string, cmd: Command)
    ensures var u := UnloadName(p, sh, name);
      && TransportName(u.pool, u.shared, name, cmd) == u
      && GetTimeName(u.pool, u.shared, name) == 0.0
      && UnloadName(u.pool, u.shared, name) == u
  {
  }

  /** After a clip is unloaded, every command on it is a no-op and its time reads 0. */
  lemma UnloadedClipIsInert(p: Pool, sh: Shared, clip: Clip, cmd: Command)
    ensures var u := Unload(p, sh, clip);
      && Transport(u.pool, u.shared, clip, cmd) == u
      && GetTime(u.pool, u.shared, clip) == 0.0
      && Unload(u.pool, u.shared, clip) == u
  {
  }

  /** After UnloadAll, loading a clip reuses a released source rather than creating one, whenever anything was
      bound before. */
  lemma UnloadAllThenReuse(p: Pool, sh: Shared, master: Settings, clip: Clip)
    requires p.bindings != map[]
    ensures var u := UnloadAll(p, sh);
      var r := Load(u.pool, u.shared, master, clip);
      r.shared.nextId == sh.nextId && r.pool.bindings[clip] == u.shared.free[0]
  {
    var u := UnloadAll(p, sh);
    var c :| c in p.bindings;
    assert p.bindings[c] in u.shared.free;
  }

  /** Unload after load gives the source back: the source the load took is at the back of the queue, stopped
      and without a clip, and the clip is no longer bound. */
  lemma LoadUnloadReleases(p: Pool, sh: Shared, master: Settings, clip: Clip)
    requires clip !in p.bindings
    ensures var l := Load(p, sh, master, clip);
      var u := Unload(l.pool, l.shared, clip);
      var s := l.pool.bindings[clip];
      && u.pool.bindings == p.bindings
      && u.shared.free[|u.shared.free| - 1] == s
      && Lookup(u.shared.sources, s).clip == None
      && Lookup(u.shared.sources, s).playback == Stopped
  {
    var l := Load(p, sh, master, clip);
    assert l.pool.bindings - {clip} == p.bindings;
  }

  /** Playing a clip leaves every other bound clip alone: its binding and its source's attributes are kept. A
      newly loaded clip takes an idle or a brand-new source, neither of which can be bound already. */
  lemma PlayLeavesOthers(p: Pool, sh: Shared, master: Settings, clip: Clip, loop: bool, force: bool, other: Clip)
    requires Valid(p, sh)
    requires other in p.bindings && other != clip
    ensures var r := Play(p, sh, master, clip, loop, force);
      && other in r.pool.bindings
      && r.pool.bindings[other] == p.bindings[other]
      && Lookup(r.shared.sources, p.bindings[other]) == Lookup(sh.sources, p.bindings[other])
  {
    var s0 := p.bindings[other];
    var l := Load(p, sh, master, clip);
    var r := Play(p, sh, master, clip, loop, force);
    var s := r.pool.bindings[clip];
    if clip !in p.bindings {
      if |sh.free| > 0 {
        assert sh.sources[sh.free[0]].clip.None?;
      } else {
        assert Allocated(s0, sh.nextId);
      }
      assert s0 in sh.sources - {s};
    }
    assert s != s0;
    OnlySourceLookup(l.shared, r.shared, s, s0);
  }

  /** Pause then resume of a playing clip gives back exactly the state before the pause. */
  lemma PauseThenResume(p: Pool, sh: Shared, clip: Clip)
    requires Valid(p, sh)
    requires clip in p.bindings && Lookup(sh.sources, p.bindings[clip]).playback == Playing
    ensures var paused := Pause(p, sh, clip);
      && Lookup(paused.shared.sources, p.bindings[clip]).playback == Paused
      && Resume(paused.pool, paused.shared, clip) == Step(p, sh)
  {
    var s := p.bindings[clip];
    var paused := Pause(p, sh, clip);
    assert paused.shared.sources[s := sh.sources[s]] == sh.sources;
  }

  /** Reading the time of a clip after setting it gives the value set when the clip is loaded, and 0 when it is
      not; the name form reads back through the name cache in the same way. */
  lemma SetTimeThenGetTime(p: Pool, sh: Shared, clip: Clip, name: string, t: real)
    ensures var r := SetTime(p, sh, clip, t);
      GetTime(r.pool, r.shared, clip) == if clip in p.bindings then t else 0.0
    ensures var r := SetTimeName(p, sh, name, t);
      GetTimeName(r.pool, r.shared, name) == if name in p.names && p.names[name] in p.bindings then t else 0.0
  {
  }

  /** Unregistering a source just registered gives back the registered set as it was, when the source was not
      registered before; the source keeps the output it was configured with. */
  lemma RegisterThenUnregister(p: Pool, sh: Shared, master: Settings, s: SourceId)
    requires s !in p.registered
    ensures var reg := Register(p, sh, master, s);
      var r := Unregister(reg.pool, reg.shared, s);
      && r.pool == p
      && Device.HasOutput(Lookup(r.shared.sources, s), p.settings, master)
  {
    var reg := Register(p, sh, master, s);
    assert reg.pool.registered - {s} == p.registered;
  }
}
