/** One audio pool (the sound pool or the music pool): a cache from names to clips, a binding from clips to
    the sources that play them, and a set of caller-owned sources that only follow the pool's volume and mute.
    The free queue of idle sources, the attributes of every source and the asset loader are shared by both
    pools and live in `Shared`. Each operation maps a pool and the shared state to a new `Step`. */
module AudioPool {
  import opened AudioTypes
  import Device

  datatype Pool = Pool(settings: Settings, registered: set<SourceId>, names: map<string, Clip>, bindings: map<Clip, SourceId>)

  /** `free` is the queue of idle sources (head first), `nextId` numbers the next source added to the container,
      `sources` holds the attributes of every source seen, `loads` and `unloads` log the calls made to the asset
      loader, and `oneShots` logs the sources that fired a one-shot. */
  datatype Shared = Shared(
    free: seq<SourceId>,
    nextId: nat,
    sources: map<SourceId, Source>,
    loads: seq<string>,
    unloads: seq<string>,
    oneShots: seq<SourceId>)

  datatype Step = Step(pool: Pool, shared: Shared)

  /** A pool as constructed: volume 1, unmuted, nothing cached, bound or registered. */
  const NewPool: Pool := Pool(Settings(1.0, false), {}, map[], map[])

  /** No source created yet and no loader call made. */
  const NewShared: Shared := Shared([], 0, map[], [], [], [])

  /** The attributes of a source; a caller-owned source the model has not seen yet has the defaults. */
  function Lookup(sources: map<SourceId, Source>, s: SourceId): Source {
    if s in sources then sources[s] else Device.Fresh
  }

  /** How many times `name` occurs in a loader call log. */
  function Calls(log: seq<string>, name: string): nat {
    multiset(log)[name]
  }

  function Ind(b: bool): nat {
    if b then 1 else 0
  }

  /** Every source that follows this pool's volume and mute: the bound ones and the registered ones. */
  function Owned(p: Pool): set<SourceId> {
    p.bindings.Values + p.registered
  }

  predicate Allocated(s: SourceId, nextId: nat) {
    s.Created? && s.n < nextId
  }

  /** Every owned source has the output `p.settings` combined with `master` asks for. */
  predicate Configured(p: Pool, sh: Shared, master: Settings) {
    forall s :: s in Owned(p) ==> Device.HasOutput(Lookup(sh.sources, s), p.settings, master)
  }

  /** The shared state is consistent: idle sources were created by the container, are stopped, hold no clip and
      are queued once; and only container-created sources ever hold a clip. */
  predicate SharedValid(sh: Shared) {
    && (forall i :: 0 <= i < |sh.free| ==>
          && Allocated(sh.free[i], sh.nextId)
          && sh.free[i] in sh.sources
          && sh.sources[sh.free[i]].clip.None?
          && sh.sources[sh.free[i]].playback == Stopped)
    && (forall i, j :: 0 <= i < j < |sh.free| ==> sh.free[i] != sh.free[j])
    && (forall s :: s in sh.sources && sh.sources[s].clip.Some? ==> Allocated(s, sh.nextId))
  }

  /** Every bound source holds exactly the clip it is bound to. Since a source holds one clip, no two clips
      share a source, and since idle sources hold none, no bound source is idle. */
  predicate PoolValid(p: Pool, sh: Shared) {
    forall c :: c in p.bindings ==> p.bindings[c] in sh.sources && sh.sources[p.bindings[c]].clip == Some(c)
  }

  predicate Valid(p: Pool, sh: Shared) {
    SharedValid(sh) && PoolValid(p, sh)
  }

  /** The step from (p, sh) to (p2, sh2) keeps the pool valid, never recycles a source number, touches the clip
      of no source the pool did not own, binds only sources that held no clip, and changes the loader call
      balance of each name exactly as it changes that name's presence in the cache. This is what the manager
      needs to know of a step on one pool to keep the other pool valid. */
  ghost predicate Conserves(p: Pool, sh: Shared, p2: Pool, sh2: Shared) {
    && Valid(p2, sh2)
    && sh.nextId <= sh2.nextId
    && (forall s :: Lookup(sh.sources, s).clip.Some? && s !in p.bindings.Values ==>
          Lookup(sh2.sources, s).clip == Lookup(sh.sources, s).clip)
    && (forall c :: c in p2.bindings && p2.bindings[c] !in p.bindings.Values ==>
          Lookup(sh.sources, p2.bindings[c]).clip.None?)
    && (forall n :: Calls(sh2.loads, n) + Calls(sh.unloads, n) + Ind(n in p.names) ==
                    Calls(sh.loads, n) + Calls(sh2.unloads, n) + Ind(n in p2.names))
  }

  /** A step that only changes attributes: the queue, the counter and the logs stay, no source gains or loses a
      clip, and playback changes only on sources the pool has bound. */
  predicate AttributesOnly(p: Pool, sh: Shared, sh2: Shared) {
    && sh2.free == sh.free
    && sh2.nextId == sh.nextId
    && sh2.loads == sh.loads
    && sh2.unloads == sh.unloads
    && sh.sources.Keys <= sh2.sources.Keys
    && (forall s :: s in sh.sources ==>
          && sh2.sources[s].clip == sh.sources[s].clip
          && (sh2.sources[s].playback == sh.sources[s].playback || s in p.bindings.Values))
    && (forall s :: s in sh2.sources && s !in sh.sources ==> sh2.sources[s].clip.None?)
  }

  /** `sh2` differs from `sh` only in the attributes of source `s`. */
  predicate OnlySource(sh: Shared, sh2: Shared, s: SourceId) {
    && sh2 == sh.(sources := sh2.sources)
    && s in sh2.sources
    && sh2.sources - {s} == sh.sources - {s}
  }

  // ---------------------------------------------------------------------------------------------------------
  // Settings

  /** The pool volume setter: a value outside [0, 1] is rejected and nothing changes; any other value is
      stored and pushed, combined with the master volume, to every owned source. */
  function SetVolume(p: Pool, sh: Shared, master: Settings, v: real): (r: Result<Step>)
    ensures r.Failure? <==> v < 0.0 || v > 1.0
    ensures r.Failure? ==> r.error == ArgumentOutOfRange
    ensures r.Success? ==>
      && r.value.pool == p.(settings := Settings(v, p.settings.mute))
      && Configured(r.value.pool, r.value.shared, master)
      && AttributesOnly(p, sh, r.value.shared)
      && r.value.shared.oneShots == sh.oneShots
      && (forall s :: s in r.value.shared.sources ==>
            Lookup(r.value.shared.sources, s).(volume := Lookup(sh.sources, s).volume, mute := Lookup(sh.sources, s).mute)
              == Lookup(sh.sources, s))
      && (forall s :: s !in Owned(p) ==> Lookup(r.value.shared.sources, s) == Lookup(sh.sources, s))
  {
    if v < 0.0 || v > 1.0 then Failure(ArgumentOutOfRange)
    else Success(ConfigureAll(p.(settings := p.settings.(volume := v)), sh, master))
  }

  /** The pool mute setter: stores the flag and pushes the new output to every owned source. */
  function SetMute(p: Pool, sh: Shared, master: Settings, mute: bool): (r: Step)
    ensures r.pool == p.(settings := Settings(p.settings.volume, mute))
    ensures Configured(r.pool, r.shared, master)
    ensures AttributesOnly(p, sh, r.shared)
    ensures r.shared.oneShots == sh.oneShots
    ensures forall s :: s in r.shared.sources ==>
      Lookup(r.shared.sources, s).(volume := Lookup(sh.sources, s).volume, mute := Lookup(sh.sources, s).mute)
        == Lookup(sh.sources, s)
    ensures forall s :: s !in Owned(p) ==> Lookup(r.shared.sources, s) == Lookup(sh.sources, s)
  {
    ConfigureAll(p.(settings := p.settings.(mute := mute)), sh, master)
  }

  /** Pushes the pool's effective output to every bound and every registered source, and to nothing else. */
  function ConfigureAll(p: Pool, sh: Shared, master: Settings): (r: Step)
    ensures r.pool == p
    ensures Configured(p, r.shared, master)
    ensures AttributesOnly(p, sh, r.shared)
    ensures r.shared.oneShots == sh.oneShots
    ensures forall s :: s in r.shared.sources ==>
      Lookup(r.shared.sources, s).(volume := Lookup(sh.sources, s).volume, mute := Lookup(sh.sources, s).mute)
        == Lookup(sh.sources, s)
    ensures forall s :: s !in Owned(p) ==> Lookup(r.shared.sources, s) == Lookup(sh.sources, s)
  {
    var owned := Owned(p);
    var sources := map s | s in sh.sources.Keys + owned ::
      if s in owned then Device.Configure(Lookup(sh.sources, s), p.settings, master) else sh.sources[s];
    Step(p, sh.(sources := sources))
  }

  /** Configures a caller-owned source and adds it to the registered set. */
  function Register(p: Pool, sh: Shared, master: Settings, s: SourceId): (r: Step)
    ensures r.pool == p.(registered := p.registered + {s})
    ensures Device.HasOutput(Lookup(r.shared.sources, s), p.settings, master)
    ensures OnlySource(sh, r.shared, s)
    ensures Lookup(r.shared.sources, s).(volume := Lookup(sh.sources, s).volume, mute := Lookup(sh.sources, s).mute)
      == Lookup(sh.sources, s)
    ensures Configured(p, sh, master) ==> Configured(r.pool, r.shared, master)
  {
    var sources := sh.sources[s := Device.Configure(Lookup(sh.sources, s), p.settings, master)];
    assert forall x :: x != s ==> Lookup(sources, x) == Lookup(sh.sources, x);
    Step(p.(registered := p.registered + {s}), sh.(sources := sources))
  }

  /** Removes a source from the registered set; its attributes are left as they are. */
  function Unregister(p: Pool, sh: Shared, s: SourceId): (r: Step)
    ensures s !in r.pool.registered
    ensures r.pool == p.(registered := p.registered - {s})
    ensures r.shared == sh
    ensures forall master :: Configured(p, sh, master) ==> Configured(r.pool, r.shared, master)
  {
    Step(p.(registered := p.registered - {s}), sh)
  }

  // ---------------------------------------------------------------------------------------------------------
  // Loading

  /** Takes the source a new binding gets: the head of the free queue, or a new source added to the container. */
  function Acquire(sh: Shared): (r: (SourceId, Shared))
    ensures |sh.free| > 0 ==> r.0 == sh.free[0] && r.1 == sh.(free := sh.free[1..])
    ensures |sh.free| == 0 ==>
      && r.0 == SourceId.Created(sh.nextId)
      && r.1 == sh.(nextId := sh.nextId + 1, sources := sh.sources[r.0 := Device.Fresh])
      && Lookup(r.1.sources, r.0) == Device.Fresh
  {
    if |sh.free| > 0 then (sh.free[0], sh.(free := sh.free[1..]))
    else (SourceId.Created(sh.nextId), sh.(nextId := sh.nextId + 1, sources := sh.sources[SourceId.Created(sh.nextId) := Device.Fresh]))
  }

  /** Loads a clip: nothing happens when it is bound already; otherwise it is bound to the head of the free
      queue, or to a new source when the queue is empty, and that source is configured and given the clip. */
  function Load(p: Pool, sh: Shared, master: Settings, clip: Clip): (r: Step)
    ensures clip in r.pool.bindings
    ensures clip in p.bindings ==> r == Step(p, sh)
    ensures clip !in p.bindings ==>
      var s := if |sh.free| > 0 then sh.free[0] else SourceId.Created(sh.nextId);
      var before := if |sh.free| > 0 then Lookup(sh.sources, s) else Device.Fresh;
      && r.pool == p.(bindings := p.bindings[clip := s])
      && r.shared.free == (if |sh.free| > 0 then sh.free[1..] else [])
      && r.shared.nextId == (if |sh.free| > 0 then sh.nextId else sh.nextId + 1)
      && Lookup(r.shared.sources, s).clip == Some(clip)
      && Device.HasOutput(Lookup(r.shared.sources, s), p.settings, master)
      && Lookup(r.shared.sources, s).(volume := before.volume, mute := before.mute, clip := before.clip) == before
      && r.shared.sources - {s} == sh.sources - {s}
      && r.shared == sh.(free := r.shared.free, nextId := r.shared.nextId, sources := r.shared.sources)
  {
    if clip in p.bindings then Step(p, sh)
    else
      var (s, sh1) := Acquire(sh);
      var attrs := Device.Configure(Lookup(sh1.sources, s), p.settings, master).(clip := Some(clip));
      Step(p.(bindings := p.bindings[clip := s]), sh1.(sources := sh1.sources[s := attrs]))
  }

  /** Caches the clip the loader gives for `name` unless the name is cached already (so the loader is called
      only on a miss), then loads that clip. */
  function LoadName(p: Pool, sh: Shared, master: Settings, catalog: string -> Clip, name: string): (r: Step)
    ensures name in r.pool.names && r.pool.names[name] in r.pool.bindings
    ensures name in p.names ==> r.pool.names == p.names && r.shared.loads == sh.loads
    ensures name !in p.names ==> r.pool.names == p.names[name := catalog(name)] && r.shared.loads == sh.loads + [name]
    ensures r.shared.unloads == sh.unloads && r.shared.oneShots == sh.oneShots
    ensures r.pool.registered == p.registered && r.pool.settings == p.settings
    ensures name in p.names ==> r == Load(p, sh, master, p.names[name])
    ensures name !in p.names ==>
      r == Load(p.(names := p.names[name := catalog(name)]), sh.(loads := sh.loads + [name]), master, catalog(name))
  {
    var c := CacheName(p, sh, catalog, name);
    Load(c.pool, c.shared, master, c.pool.names[name])
  }

  /** The `GetOrAdd`/`TryAdd` on the name cache: calls the loader only when the name is absent. */
  function CacheName(p: Pool, sh: Shared, catalog: string -> Clip, name: string): (r: Step)
    ensures name in r.pool.names
    ensures name in p.names ==> r == Step(p, sh)
    ensures name !in p.names ==>
      r == Step(p.(names := p.names[name := catalog(name)]), sh.(loads := sh.loads + [name]))
  {
    if name in p.names then Step(p, sh)
    else Step(p.(names := p.names[name := catalog(name)]), sh.(loads := sh.loads + [name]))
  }

  /** The source bound to `clip`, loading the clip first when it is not bound. */
  function GetOrLoadSource(p: Pool, sh: Shared, master: Settings, clip: Clip): (r: (SourceId, Step))
    ensures r.1 == Load(p, sh, master, clip)
    ensures clip in r.1.pool.bindings && r.1.pool.bindings[clip] == r.0
    ensures clip in p.bindings ==> r.0 == p.bindings[clip]
  {
    var st := Load(p, sh, master, clip);
    (st.pool.bindings[clip], st)
  }

  /** The source bound to `clip`, if the clip is loaded. */
  function TryGetSource(p: Pool, clip: Clip): (r: Option<SourceId>)
    ensures r.Some? <==> clip in p.bindings
    ensures r.Some? ==> r.value == p.bindings[clip]
  {
    if clip in p.bindings then Some(p.bindings[clip]) else None
  }

  /** The clip cached under `name`, if any. */
  function TryGetClip(p: Pool, name: string): (r: Option<Clip>)
    ensures r.Some? <==> name in p.names
    ensures r.Some? ==> r.value == p.names[name]
  {
    if name in p.names then Some(p.names[name]) else None
  }

  // ---------------------------------------------------------------------------------------------------------
  // Playback

  /** Fires a one-shot on the clip's source (loading it first if needed); the tracked playback state of the
      source is not touched, only the one-shot log grows. */
  function PlayOneShot(p: Pool, sh: Shared, master: Settings, clip: Clip): (r: Step)
    ensures clip in r.pool.bindings
    ensures r.pool == Load(p, sh, master, clip).pool
    ensures r.shared == Load(p, sh, master, clip).shared.(oneShots := sh.oneShots + [r.pool.bindings[clip]])
  {
    var (s, st) := GetOrLoadSource(p, sh, master, clip);
    Step(st.pool, st.shared.(oneShots := st.shared.oneShots + [s]))
  }

  function PlayOneShotName(p: Pool, sh: Shared, master: Settings, catalog: string -> Clip, name: string): (r: Step)
    ensures name in r.pool.names && r.pool.names[name] in r.pool.bindings
    ensures |r.shared.oneShots| == |sh.oneShots| + 1
    ensures r.shared.oneShots[|sh.oneShots|] == r.pool.bindings[r.pool.names[name]]
    ensures name in p.names ==> r.shared.loads == sh.loads
    ensures r.pool.registered == p.registered && r.pool.settings == p.settings
    ensures name in p.names ==> r == PlayOneShot(p, sh, master, p.names[name])
    ensures name !in p.names ==>
      r == PlayOneShot(p.(names := p.names[name := catalog(name)]), sh.(loads := sh.loads + [name]), master, catalog(name))
  {
    var c := CacheName(p, sh, catalog, name);
    PlayOneShot(c.pool, c.shared, master, c.pool.names[name])
  }

  /** Plays a clip (loading it first if needed): the loop flag is always set; a source that is already playing
      keeps playing undisturbed unless `force` is set; otherwise playback restarts from the beginning.
      Either way the clip's source is playing afterwards. */
  function Play(p: Pool, sh: Shared, master: Settings, clip: Clip, loop: bool, force: bool): (r: Step)
    ensures clip in r.pool.bindings
    ensures r.pool == Load(p, sh, master, clip).pool
    ensures
      var loaded := Load(p, sh, master, clip).shared;
      var s := r.pool.bindings[clip];
      var before, after := Lookup(loaded.sources, s), Lookup(r.shared.sources, s);
      && OnlySource(loaded, r.shared, s)
      && after.loop == loop
      && after.playback == Playing
      && (!force && before.playback == Playing ==> after == before.(loop := loop))
      && (force || before.playback != Playing ==> after == before.(loop := loop, playback := Playing, time := 0.0))
  {
    var (s, st) := GetOrLoadSource(p, sh, master, clip);
    var attrs := Lookup(st.shared.sources, s).(loop := loop);
    var attrs' := if !force && Device.IsPlaying(attrs) then attrs else Device.Play(attrs);
    Step(st.pool, st.shared.(sources := st.shared.sources[s := attrs']))
  }

  function PlayName(p: Pool, sh: Shared, master: Settings, catalog: string -> Clip, name: string, loop: bool, force: bool): (r: Step)
    ensures name in r.pool.names && r.pool.names[name] in r.pool.bindings
    ensures Lookup(r.shared.sources, r.pool.bindings[r.pool.names[name]]).playback == Playing
    ensures Lookup(r.shared.sources, r.pool.bindings[r.pool.names[name]]).loop == loop
    ensures name in p.names ==> r == Play(p, sh, master, p.names[name], loop, force)
    ensures name !in p.names ==> r.shared.loads == sh.loads + [name] && r.pool.names[name] == catalog(name)
    ensures r.pool.registered == p.registered && r.pool.settings == p.settings
    ensures name !in p.names ==>
      r == Play(p.(names := p.names[name := catalog(name)]), sh.(loads := sh.loads + [name]), master, catalog(name), loop, force)
  {
    var c := CacheName(p, sh, catalog, name);
    Play(c.pool, c.shared, master, c.pool.names[name], loop, force)
  }

  /** The playback position of the clip's source, or 0 when the clip is not bound. */
  function GetTime(p: Pool, sh: Shared, clip: Clip): (r: real)
    ensures clip !in p.bindings ==> r == 0.0
    ensures clip in p.bindings ==> r == Lookup(sh.sources, p.bindings[clip]).time
  {
    match TryGetSource(p, clip)
    case None => 0.0
    case Some(s) => Lookup(sh.sources, s).time
  }

  function GetTimeName(p: Pool, sh: Shared, name: string): (r: real)
    ensures name !in p.names ==> r == 0.0
    ensures name in p.names ==> r == GetTime(p, sh, p.names[name])
  {
    match TryGetClip(p, name)
    case None => 0.0
    case Some(c) => GetTime(p, sh, c)
  }

  /** Applies a transport command to the source bound to `clip`, or does nothing when the clip is not bound. */
  function Transport(p: Pool, sh: Shared, clip: Clip, cmd: Command): (r: Step)
    ensures r.pool == p
    ensures clip !in p.bindings ==> r.shared == sh
    ensures clip in p.bindings ==>
      var s := p.bindings[clip];
      && OnlySource(sh, r.shared, s)
      && Lookup(r.shared.sources, s) == Perform(cmd, Lookup(sh.sources, s))
  {
    match TryGetSource(p, clip)
    case None => Step(p, sh)
    case Some(s) => Step(p, sh.(sources := sh.sources[s := Perform(cmd, Lookup(sh.sources, s))]))
  }

  /** The commands the pool issues to one bound source. */
  datatype Command = SetTimeTo(t: real) | PauseIt | ResumeIt | StopIt

  function Perform(cmd: Command, s: Source): Source {
    match cmd
    case SetTimeTo(t) => s.(time := t)
    case PauseIt => Device.Pause(s)
    case ResumeIt => Device.UnPause(s)
    case StopIt => Device.Stop(s)
  }

  function SetTime(p: Pool, sh: Shared, clip: Clip, t: real): (r: Step)
    ensures r.pool == p
    ensures clip !in p.bindings ==> r.shared == sh
    ensures clip in p.bindings ==>
      && OnlySource(sh, r.shared, p.bindings[clip])
      && Lookup(r.shared.sources, p.bindings[clip]) == Lookup(sh.sources, p.bindings[clip]).(time := t)
  {
    Transport(p, sh, clip, SetTimeTo(t))
  }

  function Pause(p: Pool, sh: Shared, clip: Clip): (r: Step)
    ensures r.pool == p
    ensures clip !in p.bindings ==> r.shared == sh
    ensures clip in p.bindings ==>
      var before, after := Lookup(sh.sources, p.bindings[clip]), Lookup(r.shared.sources, p.bindings[clip]);
      && OnlySource(sh, r.shared, p.bindings[clip])
      && after.time == before.time
      && !Device.IsPlaying(after)
      && (before.playback == Playing ==> after == before.(playback := Paused))
      && (before.playback != Playing ==> after == before)
  {
    Transport(p, sh, clip, PauseIt)
  }

  function Resume(p: Pool, sh: Shared, clip: Clip): (r: Step)
    ensures r.pool == p
    ensures clip !in p.bindings ==> r.shared == sh
    ensures clip in p.bindings ==>
      var before, after := Lookup(sh.sources, p.bindings[clip]), Lookup(r.shared.sources, p.bindings[clip]);
      && OnlySource(sh, r.shared, p.bindings[clip])
      && after.time == before.time
      && (before.playback == Paused ==> after == before.(playback := Playing))
      && (before.playback != Paused ==> after == before)
  {
    Transport(p, sh, clip, ResumeIt)
  }

  function Stop(p: Pool, sh: Shared, clip: Clip): (r: Step)
    ensures r.pool == p
    ensures clip !in p.bindings ==> r.shared == sh
    ensures clip in p.bindings ==>
      var before, after := Lookup(sh.sources, p.bindings[clip]), Lookup(r.shared.sources, p.bindings[clip]);
      && OnlySource(sh, r.shared, p.bindings[clip])
      && after == before.(playback := Stopped, time := 0.0)
  {
    Transport(p, sh, clip, StopIt)
  }

  /** The name forms: do nothing at all when the name is not cached, and act on the cached clip otherwise. */
  function TransportName(p: Pool, sh: Shared, name: string, cmd: Command): (r: Step)
    ensures name !in p.names ==> r == Step(p, sh)
    ensures name in p.names ==> r == Transport(p, sh, p.names[name], cmd)
  {
    match TryGetClip(p, name)
    case None => Step(p, sh)
    case Some(c) => Transport(p, sh, c, cmd)
  }

  function SetTimeName(p: Pool, sh: Shared, name: string, t: real): (r: Step)
    ensures name !in p.names ==> r == Step(p, sh)
    ensures name in p.names ==> r == SetTime(p, sh, p.names[name], t)
  {
    TransportName(p, sh, name, SetTimeTo(t))
  }

  function PauseName(p: Pool, sh: Shared, name: string): (r: Step)
    ensures name !in p.names ==> r == Step(p, sh)
    ensures name in p.names ==> r == Pause(p, sh, p.names[name])
  {
    TransportName(p, sh, name, PauseIt)
  }

  function ResumeName(p: Pool, sh: Shared, name: string): (r: Step)
    ensures name !in p.names ==> r == Step(p, sh)
    ensures name in p.names ==> r == Resume(p, sh, p.names[name])
  {
    TransportName(p, sh, name, ResumeIt)
  }

  function StopName(p: Pool, sh: Shared, name: string): (r: Step)
    ensures name !in p.names ==> r == Step(p, sh)
    ensures name in p.names ==> r == Stop(p, sh, p.names[name])
  {
    TransportName(p, sh, name, StopIt)
  }

  /** Applies a command to every bound source and to nothing else. */
  function TransportAll(p: Pool, sh: Shared, cmd: Command): (r: Step)
    ensures r.pool == p
    ensures r.shared == sh.(sources := r.shared.sources)
    ensures forall c :: c in p.bindings ==>
      Lookup(r.shared.sources, p.bindings[c]) == Perform(cmd, Lookup(sh.sources, p.bindings[c]))
    ensures forall s :: s !in p.bindings.Values ==> Lookup(r.shared.sources, s) == Lookup(sh.sources, s)
    ensures r.shared.sources.Keys == sh.sources.Keys + p.bindings.Values
  {
    var bound := p.bindings.Values;
    var sources := map s | s in sh.sources.Keys + bound ::
      if s in bound then Perform(cmd, Lookup(sh.sources, s)) else sh.sources[s];
    Step(p, sh.(sources := sources))
  }

  function PauseAll(p: Pool, sh: Shared): (r: Step)
    ensures r.pool == p && r.shared == sh.(sources := r.shared.sources)
    ensures forall c :: c in p.bindings ==> Lookup(r.shared.sources, p.bindings[c]) == Device.Pause(Lookup(sh.sources, p.bindings[c]))
    ensures forall s :: s !in p.bindings.Values ==> Lookup(r.shared.sources, s) == Lookup(sh.sources, s)
  {
    TransportAll(p, sh, PauseIt)
  }

  function ResumeAll(p: Pool, sh: Shared): (r: Step)
    ensures r.pool == p && r.shared == sh.(sources := r.shared.sources)
    ensures forall c :: c in p.bindings ==> Lookup(r.shared.sources, p.bindings[c]) == Device.UnPause(Lookup(sh.sources, p.bindings[c]))
    ensures forall s :: s !in p.bindings.Values ==> Lookup(r.shared.sources, s) == Lookup(sh.sources, s)
  {
    TransportAll(p, sh, ResumeIt)
  }

  function StopAll(p: Pool, sh: Shared): (r: Step)
    ensures r.pool == p && r.shared == sh.(sources := r.shared.sources)
    ensures forall c :: c in p.bindings ==> Lookup(r.shared.sources, p.bindings[c]) == Device.Stop(Lookup(sh.sources, p.bindings[c]))
    ensures forall s :: s !in p.bindings.Values ==> Lookup(r.shared.sources, s) == Lookup(sh.sources, s)
  {
    TransportAll(p, sh, StopIt)
  }

  // ---------------------------------------------------------------------------------------------------------
  // Unloading

  /** Releases the clip's source: it is stopped, loses its clip, goes to the back of the free queue and the
      binding is removed. Nothing happens when the clip is not bound. */
  function Unload(p: Pool, sh: Shared, clip: Clip): (r: Step)
    ensures clip !in r.pool.bindings
    ensures clip !in p.bindings ==> r == Step(p, sh)
    ensures clip in p.bindings ==>
      var s := p.bindings[clip];
      && r.pool == p.(bindings := p.bindings - {clip})
      && r.shared.free == sh.free + [s]
      && Lookup(r.shared.sources, s) == Lookup(sh.sources, s).(clip := None, playback := Stopped, time := 0.0)
      && r.shared == sh.(free := r.shared.free, sources := r.shared.sources)
      && r.shared.sources - {s} == sh.sources - {s}
  {
    match TryGetSource(p, clip)
    case None => Step(p, sh)
    case Some(s) =>
      var attrs := Device.Stop(Lookup(sh.sources, s)).(clip := None);
      Step(p.(bindings := p.bindings - {clip}), sh.(free := sh.free + [s], sources := sh.sources[s := attrs]))
  }

  /** Unloads a cached name: releases its clip's source (when bound), tells the loader to unload the name and
      forgets the name. Nothing happens when the name is not cached. */
  function UnloadName(p: Pool, sh: Shared, name: string): (r: Step)
    ensures name !in r.pool.names
    ensures name !in p.names ==> r == Step(p, sh)
    ensures name in p.names ==>
      var u := Unload(p, sh, p.names[name]);
      && p.names[name] !in r.pool.bindings
      && r.pool == u.pool.(names := p.names - {name})
      && r.shared == u.shared.(unloads := sh.unloads + [name])
  {
    match TryGetClip(p, name)
    case None => Step(p, sh)
    case Some(c) =>
      var u := Unload(p, sh, c);
      Step(u.pool.(names := u.pool.names - {name}), u.shared.(unloads := u.shared.unloads + [name]))
  }
  // ---------------------------------------------------------------------------------------------------------
  // The operations as data

  /** The pool operations the manager forwards to a pool, except the volume setter (which can fail) and
      UnloadAll (whose enumeration order is unspecified). */
  datatype Op =
    | LoadOp(clip: Clip)
    | LoadNameOp(name: string)
    | PlayOneShotOp(clip: Clip)
    | PlayOneShotNameOp(name: string)
    | PlayOp(clip: Clip, loop: bool, force: bool)
    | PlayNameOp(name: string, loop: bool, force: bool)
    | TransportOp(clip: Clip, cmd: Command)
    | TransportNameOp(name: string, cmd: Command)
    | TransportAllOp(cmd: Command)
    | UnloadOp(clip: Clip)
    | UnloadNameOp(name: string)
    | SetMuteOp(mute: bool)
    | RegisterOp(source: SourceId)
    | UnregisterOp(source: SourceId)
    | ConfigureAllOp

  function Apply(p: Pool, sh: Shared, master: Settings, catalog: string -> Clip, op: Op): Step {
    match op
    case LoadOp(c) => Load(p, sh, master, c)
    case LoadNameOp(n) => LoadName(p, sh, master, catalog, n)
    case PlayOneShotOp(c) => PlayOneShot(p, sh, master, c)
    case PlayOneShotNameOp(n) => PlayOneShotName(p, sh, master, catalog, n)
    case PlayOp(c, loop, force) => Play(p, sh, master, c, loop, force)
    case PlayNameOp(n, loop, force) => PlayName(p, sh, master, catalog, n, loop, force)
    case TransportOp(c, cmd) => Transport(p, sh, c, cmd)
    case TransportNameOp(n, cmd) => TransportName(p, sh, n, cmd)
    case TransportAllOp(cmd) => TransportAll(p, sh, cmd)
    case UnloadOp(c) => Unload(p, sh, c)
    case UnloadNameOp(n) => UnloadName(p, sh, n)
    case SetMuteOp(mute) => SetMute(p, sh, master, mute)
    case RegisterOp(s) => Register(p, sh, master, s)
    case UnregisterOp(s) => Unregister(p, sh, s)
    case ConfigureAllOp => ConfigureAll(p, sh, master)
  }

  /** Unloads every cached name and then every clip still bound, each over a snapshot of the keys taken before
      its loop. The dictionaries enumerate in an unspecified order, so the model picks keys in an unspecified
      order as well. Afterwards nothing is cached or bound, every source that was bound is back in the free
      queue behind the sources already there, and no source was created. */
  ghost function UnloadAll(p: Pool, sh: Shared): (r: Step)
    ensures r.pool == p.(names := map[], bindings := map[])
    ensures r.shared.nextId == sh.nextId && r.shared.loads == sh.loads
    ensures sh.free <= r.shared.free
    ensures forall c :: c in p.bindings ==> p.bindings[c] in r.shared.free
    ensures r.shared.oneShots == sh.oneShots
    ensures forall c :: c in p.bindings ==>
      Lookup(r.shared.sources, p.bindings[c]) == Lookup(sh.sources, p.bindings[c]).(clip := None, playback := Stopped, time := 0.0)
    ensures forall s :: s !in p.bindings.Values ==> Lookup(r.shared.sources, s) == Lookup(sh.sources, s)
  {
    var st := UnloadNames(p, sh, p.names.Keys);
    var r := UnloadClips(st.pool, st.shared, st.pool.bindings.Keys);
    ReleaseCompose(p.bindings, st.pool.bindings, r.pool.bindings, sh.sources, st.shared.sources, r.shared.sources);
    assert p.bindings - r.pool.bindings.Keys == p.bindings;
    r
  }

  /** `Unload(name)` for every name of `keys`, in an unspecified order. */
  ghost function UnloadNames(p: Pool, sh: Shared, keys: set<string>): (r: Step)
    ensures r.pool == p.(names := p.names - keys, bindings := r.pool.bindings)
    ensures r.pool.bindings.Keys <= p.bindings.Keys
    ensures forall c :: c in r.pool.bindings ==> r.pool.bindings[c] == p.bindings[c]
    ensures forall c :: c in p.bindings && c !in r.pool.bindings ==> p.bindings[c] in r.shared.free
    ensures r.shared.nextId == sh.nextId && r.shared.loads == sh.loads
    ensures sh.free <= r.shared.free
    ensures r.shared.oneShots == sh.oneShots
    ensures forall c :: c in p.bindings && c !in r.pool.bindings ==>
      Lookup(r.shared.sources, p.bindings[c]) == Lookup(sh.sources, p.bindings[c]).(clip := None, playback := Stopped, time := 0.0)
    ensures forall s :: s !in (p.bindings - r.pool.bindings.Keys).Values ==> Lookup(r.shared.sources, s) == Lookup(sh.sources, s)
    decreases keys
  {
    if keys == {} then Step(p, sh)
    else
      var n := Pick(keys);
      var st := UnloadName(p, sh, n);
      var r := UnloadNames(st.pool, st.shared, keys - {n});
      PrefixKeeps(st.shared.free, r.shared.free);
      UnloadNameReleases(p, sh, n);
      ReleaseCompose(p.bindings, st.pool.bindings, r.pool.bindings, sh.sources, st.shared.sources, r.shared.sources);
      r
  }

  /** `Unload(clip)` for every clip of `keys`, in an unspecified order. */
  ghost function UnloadClips(p: Pool, sh: Shared, keys: set<Clip>): (r: Step)
    ensures r.pool == p.(bindings := p.bindings - keys)
    ensures forall c :: c in p.bindings && c in keys ==> p.bindings[c] in r.shared.free
    ensures r.shared.nextId == sh.nextId && r.shared.loads == sh.loads
    ensures sh.free <= r.shared.free
    ensures r.shared.oneShots == sh.oneShots
    ensures forall c :: c in p.bindings && c in keys ==>
      Lookup(r.shared.sources, p.bindings[c]) == Lookup(sh.sources, p.bindings[c]).(clip := None, playback := Stopped, time := 0.0)
    ensures forall s :: s !in (p.bindings - r.pool.bindings.Keys).Values ==> Lookup(r.shared.sources, s) == Lookup(sh.sources, s)
    decreases keys
  {
    if keys == {} then Step(p, sh)
    else
      var c := Pick(keys);
      var st := Unload(p, sh, c);
      var r := UnloadClips(st.pool, st.shared, keys - {c});
      PrefixKeeps(st.shared.free, r.shared.free);
      UnloadReleases(p, sh, c);
      ReleaseCompose(p.bindings, st.pool.bindings, r.pool.bindings, sh.sources, st.shared.sources, r.shared.sources);
      r
  }

  /** Some element of a non-empty set; which one is left unspecified. */
  ghost function Pick<T>(keys: set<T>): (r: T)
    requires keys != {}
    ensures r in keys
  {
    var k :| k in keys; k
  }

  /** Two rounds of releases make one: a source released by either round ends up released once (releasing is
      idempotent), and a source neither round released keeps its attributes. */
  lemma ReleaseCompose(b0: map<Clip, SourceId>, b1: map<Clip, SourceId>, b2: map<Clip, SourceId>,
                       s0: map<SourceId, Source>, s1: map<SourceId, Source>, s2: map<SourceId, Source>)
    requires b1.Keys <= b0.Keys && forall c :: c in b1 ==> b1[c] == b0[c]
    requires b2.Keys <= b1.Keys && forall c :: c in b2 ==> b2[c] == b1[c]
    requires forall c :: c in b0 && c !in b1 ==>
      Lookup(s1, b0[c]) == Lookup(s0, b0[c]).(clip := None, playback := Stopped, time := 0.0)
    requires forall s :: s !in (b0 - b1.Keys).Values ==> Lookup(s1, s) == Lookup(s0, s)
    requires forall c :: c in b1 && c !in b2 ==>
      Lookup(s2, b1[c]) == Lookup(s1, b1[c]).(clip := None, playback := Stopped, time := 0.0)
    requires forall s :: s !in (b1 - b2.Keys).Values ==> Lookup(s2, s) == Lookup(s1, s)
    ensures forall c :: c in b0 && c !in b2 ==>
      Lookup(s2, b0[c]) == Lookup(s0, b0[c]).(clip := None, playback := Stopped, time := 0.0)
    ensures forall s :: s !in (b0 - b2.Keys).Values ==> Lookup(s2, s) == Lookup(s0, s)
  {
    forall c | c in b0 && c !in b2
      ensures Lookup(s2, b0[c]) == Lookup(s0, b0[c]).(clip := None, playback := Stopped, time := 0.0)
    {
      var s := b0[c];
      if c in b1 {
        assert s == b1[c];
        if s in (b0 - b1.Keys).Values {
          var c' :| c' in (b0 - b1.Keys) && (b0 - b1.Keys)[c'] == s;
          assert c' in b0 && c' !in b1;
        }
      } else {
        assert s in (b0 - b1.Keys).Values by { assert (b0 - b1.Keys)[c] == s; }
        if s in (b1 - b2.Keys).Values {
          var c' :| c' in (b1 - b2.Keys) && (b1 - b2.Keys)[c'] == s;
          assert c' in b1 && c' !in b2;
        }
      }
    }
    forall s | s !in (b0 - b2.Keys).Values
      ensures Lookup(s2, s) == Lookup(s0, s)
    {
      forall c | c in (b0 - b1.Keys)
        ensures (b0 - b1.Keys)[c] != s
      {
        assert (b0 - b2.Keys)[c] == b0[c];
      }
      forall c | c in (b1 - b2.Keys)
        ensures (b1 - b2.Keys)[c] != s
      {
        assert (b0 - b2.Keys)[c] == b1[c];
      }
    }
  }

  /** One `Unload(clip)` in the form `ReleaseCompose` takes. */
  lemma UnloadReleases(p: Pool, sh: Shared, clip: Clip)
    ensures var u := Unload(p, sh, clip);
      && (forall c :: c in p.bindings && c !in u.pool.bindings ==>
            Lookup(u.shared.sources, p.bindings[c]) == Lookup(sh.sources, p.bindings[c]).(clip := None, playback := Stopped, time := 0.0))
      && (forall s :: s !in (p.bindings - u.pool.bindings.Keys).Values ==> Lookup(u.shared.sources, s) == Lookup(sh.sources, s))
  {
    if clip in p.bindings {
      var u := Unload(p, sh, clip);
      assert (p.bindings - u.pool.bindings.Keys)[clip] == p.bindings[clip];
    }
  }

  /** One `Unload(name)` in the form `ReleaseCompose` takes. */
  lemma UnloadNameReleases(p: Pool, sh: Shared, name: string)
    ensures var u := UnloadName(p, sh, name);
      && (forall c :: c in p.bindings && c !in u.pool.bindings ==>
            Lookup(u.shared.sources, p.bindings[c]) == Lookup(sh.sources, p.bindings[c]).(clip := None, playback := Stopped, time := 0.0))
      && (forall s :: s !in (p.bindings - u.pool.bindings.Keys).Values ==> Lookup(u.shared.sources, s) == Lookup(sh.sources, s))
  {
    if name in p.names {
      UnloadReleases(p, sh, p.names[name]);
    }
  }

  lemma PrefixKeeps<T>(a: seq<T>, b: seq<T>)
    requires a <= b
    ensures forall x :: x in a ==> x in b
  {
    forall x | x in a
      ensures x in b
    {
      var i :| 0 <= i < |a| && a[i] == x;
      assert b[i] == x;
    }
  }
}
