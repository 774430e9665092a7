/**
 * AudioManager.cs: plays one-shot clips on a pool of audio sources kept in
 * ascending order of the time their clip ends, and looping clips on a pair of
 * sources per slot that cross-fade when a new clip is started in the slot.
 *
 * Time is a `real` number of seconds passed in as `now`. A `Transform` is an
 * id; the scene maps the ids of the live transforms to their positions, so an
 * id missing from the scene is a destroyed object, which Unity compares equal
 * to null.
 */
module Audio {
  import opened Numerics
  import opened Wrappers
  import opened PoolOrder

  datatype Vec3 = Vec3(x: real, y: real, z: real) {
    function Plus(v: Vec3): Vec3 {
      Vec3(x + v.x, y + v.y, z + v.z)
    }
  }

  const Zero := Vec3(0.0, 0.0, 0.0)

  /** An audio clip, known by its identity and its length in seconds. */
  datatype Clip = Clip(id: nat, length: real)

  /** ClipSpecs.cs: a clip with the pitch and volume to play it at. */
  datatype ClipSpecs = ClipSpecs(clip: Clip, pitch: real, volume: real)

  type TransformId = nat
  type Scene = map<TransformId, Vec3>

  /** `origin != null`: the transform is set and has not been destroyed. */
  predicate Live(origin: Option<TransformId>, scene: Scene) {
    origin.Some? && origin.value in scene
  }

  /** The Unity component that plays a clip; `position` is that of its transform. */
  class AudioSource {
    var clip: Option<Clip>
    var volume: real
    var pitch: real
    var spatialBlend: real
    var position: Vec3
    var loop: bool
    var playing: bool

    /** `AddComponent<AudioSource>()`: a component with Unity's default settings. */
    constructor ()
      ensures clip == None && volume == 1.0 && pitch == 1.0 && spatialBlend == 0.0
      ensures position == Zero && !loop && !playing
    {
      clip, volume, pitch, spatialBlend := None, 1.0, 1.0, 0.0;
      position, loop, playing := Zero, false, false;
    }

    /** `AudioSource.Play`: only the playing flag is modelled. */
    method Play()
      modifies this`playing
      ensures playing
    {
      playing := true;
    }
  }

  /**
   * Where `Setup` places the source: at its origin plus the offset, and at the
   * world origin, without the offset, when the origin is null.
   */
  function StartPosition(origin: Option<TransformId>, offset: Vec3, scene: Scene): Vec3 {
    if Live(origin, scene) then scene[origin.value].Plus(offset) else Zero
  }

  /**
   * Where the comment of `UpdatePosition` places a source: a null origin
   * counts as `(0, 0, 0)`, so the offset, which for a positional clip is its
   * position, is kept.
   */
  function StartPositionIntended(origin: Option<TransformId>, offset: Vec3, scene: Scene): (r: Vec3)
    ensures !Live(origin, scene) ==> r == offset
    ensures Live(origin, scene) ==> r == StartPosition(origin, offset, scene)
  {
    (if Live(origin, scene) then scene[origin.value] else Zero).Plus(offset)
  }

  /** The one-shot settings `Setup` gives an entry of the pool. */
  ghost predicate SetUpFor(e: PooledAudioSource, specs: ClipSpecs, spatialBlend: real,
                           origin: Option<TransformId>, offset: Vec3, now: real, scene: Scene)
    reads e, e.source
  {
    && e.source.clip == Some(specs.clip)
    && e.source.volume == specs.volume
    && e.source.pitch == specs.pitch
    && e.source.spatialBlend == spatialBlend
    && e.origin == origin
    && e.offset == offset
    && e.source.position == StartPosition(origin, offset, scene)
    && e.endTime == specs.clip.length + now
  }

  /** `AudioManager.PooledAudioSource`: a source of the pool with what it follows and when it ends. */
  class PooledAudioSource {
    const source: AudioSource
    var origin: Option<TransformId>
    var offset: Vec3
    var endTime: real

    constructor (source: AudioSource)
      ensures this.source == source
      ensures origin == None && offset == Zero && endTime == 0.0
    {
      this.source := source;
      origin, offset, endTime := None, Zero, 0.0;
    }

    /**
     * `Setup`: copies clip, volume and pitch from `specs`, takes the spatial
     * blend, remembers origin and offset, places the source at the origin plus
     * the offset (at the world origin when the origin is null), and ends the
     * entry one clip length after `now`. Whether the source loops or plays is
     * left as it was.
     */
    method Setup(specs: ClipSpecs, spatialBlend: real, origin: Option<TransformId>, offset: Vec3,
                 now: real, scene: Scene)
      modifies this, source
      ensures SetUpFor(this, specs, spatialBlend, origin, offset, now, scene)
      ensures source.loop == old(source.loop) && source.playing == old(source.playing)
    {
      source.clip := Some(specs.clip);
      source.volume := specs.volume;
      source.pitch := specs.pitch;
      source.spatialBlend := spatialBlend;
      this.origin := origin;
      this.offset := offset;
      source.position := StartPosition(origin, offset, scene);
      endTime := specs.clip.length + now;
    }

    method Play()
      modifies source`playing
      ensures source.playing
    {
      source.Play();
    }

    /** `IsActive`: despite its name, true once the clip has ended, strictly after `endTime`. */
    predicate IsActive(now: real)
      reads this
    {
      now > endTime
    }

    /** `UpdatePosition`: follows a live origin; with a null origin the source stays where it is. */
    method UpdatePosition(scene: Scene)
      modifies source`position
      ensures Live(origin, scene) ==> source.position == scene[origin.value].Plus(offset)
      ensures !Live(origin, scene) ==> source.position == old(source.position)
    {
      if !Live(origin, scene) {
        return;
      }
      source.position := scene[origin.value].Plus(offset);
    }
  }

  /** An entry set up at `now` is free, by `IsActive`, exactly once its clip's length has passed. */
  lemma FreeOnceClipEnds(e: PooledAudioSource, specs: ClipSpecs, spatialBlend: real, origin: Option<TransformId>,
                         offset: Vec3, now: real, scene: Scene, later: real)
    requires SetUpFor(e, specs, spatialBlend, origin, offset, now, scene)
    ensures e.IsActive(later) <==> later > now + specs.clip.length
  {
  }

  /** The end times of the entries of a pool, in pool order. */
  function EndTimes(pool: seq<PooledAudioSource>): (r: seq<real>)
    reads pool
    ensures |r| == |pool|
    ensures forall i :: 0 <= i < |pool| ==> r[i] == pool[i].endTime
  {
    seq(|pool|, i reads pool requires 0 <= i < |pool| => pool[i].endTime)
  }

  /** Inserting an entry at the insertion point of its end time keeps the end times in order. */
  lemma ReinsertSorted(rest: seq<PooledAudioSource>, e: PooledAudioSource)
    ensures Sorted(EndTimes(rest)) ==>
      Sorted(EndTimes(InsertAt(rest, InsertionPoint(EndTimes(rest), e.endTime), e)))
  {
    var keys := EndTimes(rest);
    EndTimesInsert(rest, InsertionPoint(keys, e.endTime), e);
    if Sorted(keys) {
      InsertKeepsSorted(keys, e.endTime);
    }
  }

  /** The end times after an insertion are the old end times with the new one inserted. */
  lemma EndTimesInsert(pool: seq<PooledAudioSource>, i: nat, e: PooledAudioSource)
    requires i <= |pool|
    ensures EndTimes(InsertAt(pool, i, e)) == InsertAt(EndTimes(pool), i, e.endTime)
  {
  }

  /** The two sources of a looping slot; `item1` is the one most recently faded in. */
  datatype SourcePair = SourcePair(item1: AudioSource, item2: AudioSource)

  /** A `FadeVolume` coroutine that was started. */
  datatype Fade = Fade(target: AudioSource, from: real, to: real, duration: real)

  /** What a play callback does once it runs. */
  datatype Request =
    | OneShot(specs: ClipSpecs, spatialBlend: real, parent: Option<TransformId>, offset: Vec3)
    | Looping(specs: ClipSpecs, fadeDuration: real, slot: UInt32)

  /** A callback waiting in an `ExecuteCallbackCoroutine` for its delay to pass. */
  datatype Deferred = Deferred(request: Request, delay: real)

  /** Reading `pool[0]` of an empty pool. */
  datatype AudioError = IndexOutOfRange(index: int)

  /** What a call did: deferred its callback, played a one-shot on an entry, threw, or played a loop. */
  datatype Outcome =
    | Scheduled
    | Started(entry: PooledAudioSource)
    | Failed(error: AudioError)
    | LoopStarted

  class AudioManager {
    /** How many pooled sources may exist; it does not bound the looping sources. */
    const poolSize: int
    /** The pool, in ascending order of end time. */
    var pool: seq<PooledAudioSource>
    var loopingPool: map<UInt32, SourcePair>
    /** Every fade coroutine started so far, in order. */
    var fades: seq<Fade>
    /** The callbacks still waiting for their delay. */
    var deferred: seq<Deferred>

    constructor (poolSize: int)
      ensures this.poolSize == poolSize
      ensures pool == [] && loopingPool == map[] && fades == [] && deferred == []
      ensures Valid()
    {
      this.poolSize := poolSize;
      pool, loopingPool, fades, deferred := [], map[], [], [];
    }

    /** The most entries the pool can reach: it only grows while it is smaller than `poolSize`. */
    function Capacity(): nat {
      if poolSize < 0 then 0 else poolSize
    }

    function Sources(): set<AudioSource>
      reads this
    {
      set e | e in pool :: e.source
    }

    function LoopSources(): set<AudioSource>
      reads this
    {
      (set s | s in loopingPool :: loopingPool[s].item1) + (set s | s in loopingPool :: loopingPool[s].item2)
    }

    /** The sources of one slot, none before the slot is first used. */
    function SlotSources(slot: UInt32): set<AudioSource>
      reads this
    {
      if slot in loopingPool then {loopingPool[slot].item1, loopingPool[slot].item2} else {}
    }

    /** The entry a one-shot play may change: the head, none when the pool is empty. */
    function HeadEntry(): set<PooledAudioSource>
      reads this
    {
      if |pool| == 0 then {} else {pool[0]}
    }

    /** The source a one-shot play may change: the head's. */
    function HeadSource(): set<AudioSource>
      reads this
    {
      if |pool| == 0 then {} else {pool[0].source}
    }

    /** The entries running `request` may change. */
    function TouchedEntries(request: Request): set<PooledAudioSource>
      reads this
    {
      if request.OneShot? then HeadEntry() else {}
    }

    /** The sources running `request` may change. */
    function TouchedSources(request: Request): set<AudioSource>
      reads this
    {
      match request
      case OneShot(_, _, _, _) => HeadSource()
      case Looping(_, _, slot) => SlotSources(slot)
    }

    /** The entries have distinct sources, ascending end times, and fit the capacity. */
    ghost predicate PoolValid()
      reads this, pool
    {
      && DistinctSources(pool)
      && Sorted(EndTimes(pool))
      && |pool| <= Capacity()
    }

    /** Every slot has two distinct sources. */
    ghost predicate LoopsValid()
      reads this
    {
      forall s :: s in loopingPool ==> loopingPool[s].item1 != loopingPool[s].item2
    }

    ghost predicate Valid()
      reads this, pool
    {
      PoolValid() && LoopsValid()
    }

    /** `pool[0].IsActive`: the oldest entry has finished (see `HeadFinishesFirst`). */
    predicate HeadFinished(now: real)
      reads this, pool
    {
      |pool| != 0 && pool[0].IsActive(now)
    }

    /**
     * In a pool sorted by end time the head finishes first, so it has finished
     * exactly when some entry has.
     */
    lemma HeadFinishesFirst(now: real)
      requires Sorted(EndTimes(pool))
      ensures HeadFinished(now) <==> exists i :: 0 <= i < |pool| && pool[i].IsActive(now)
    {
      if exists i :: 0 <= i < |pool| && pool[i].IsActive(now) {
        var i :| 0 <= i < |pool| && pool[i].IsActive(now);
        assert EndTimes(pool)[0] <= EndTimes(pool)[i];
      }
    }

    /**
     * `GetAudioSource`: the head when it has finished; otherwise the head even
     * though it still plays when the pool has reached `poolSize`, which throws
     * when the pool is empty; otherwise a new source, not yet in the pool.
     */
    method GetAudioSource(now: real) returns (r: Result<PooledAudioSource, AudioError>)
      ensures HeadFinished(now) ==> r == Success(pool[0])
      ensures !HeadFinished(now) && |pool| >= poolSize && |pool| > 0 ==> r == Success(pool[0])
      ensures !HeadFinished(now) && |pool| >= poolSize && |pool| == 0 ==> r == Failure(IndexOutOfRange(0))
      ensures !HeadFinished(now) && |pool| < poolSize ==>
        && r.Success? && fresh(r.value) && fresh(r.value.source)
        && r.value.origin == None && r.value.offset == Zero && r.value.endTime == 0.0
        && !r.value.source.loop && !r.value.source.playing
    {
      if |pool| != 0 && pool[0].IsActive(now) {
        r := Success(pool[0]);
      } else if |pool| >= poolSize {
        if |pool| == 0 {
          return Failure(IndexOutOfRange(0));
        }
        r := Success(pool[0]);
      } else {
        var audioSource := new AudioSource();
        var entry := new PooledAudioSource(audioSource);
        r := Success(entry);
      }
    }

    /**
     * `Sort`: takes `toInsert` out of the pool and puts it back before the first
     * entry whose end time is strictly later. When the rest of the pool is in
     * order, the whole pool is; the other entries keep their order, and
     * `toInsert` comes after every entry with the same end time.
     */
    method Sort(toInsert: PooledAudioSource)
      modifies this`pool
      ensures pool == InsertAt(RemoveFirst(old(pool), toInsert),
                               InsertionPoint(EndTimes(RemoveFirst(old(pool), toInsert)), toInsert.endTime),
                               toInsert)
      ensures Sorted(EndTimes(RemoveFirst(old(pool), toInsert))) ==> Sorted(EndTimes(pool))
      ensures toInsert !in RemoveFirst(old(pool), toInsert) ==>
        RemoveFirst(pool, toInsert) == RemoveFirst(old(pool), toInsert)
    {
      var rest := RemoveFirst(pool, toInsert);
      var i := 0;
      while i < |rest|
        invariant 0 <= i <= |rest|
        invariant forall j :: 0 <= j < i ==> rest[j].endTime <= toInsert.endTime
      {
        if rest[i].endTime > toInsert.endTime {
          break;
        }
        i := i + 1;
      }
      ghost var keys := EndTimes(rest);
      InsertionPointUnique(keys, toInsert.endTime, i);
      pool := InsertAt(rest, i, toInsert);
      assert EndTimes(rest) == keys;
      ReinsertSorted(rest, toInsert);
      if toInsert !in rest {
        ReinsertKeepsOthers(old(pool), toInsert, i);
      }
    }

    /**
     * The effect of one `PlayClip(specs, spatialBlend, parent, offset)` that
     * played on entry `e`: `e` is the old head when the head had finished or the
     * pool was full, and a new entry otherwise; it is set up and playing; and
     * the pool is the old pool with `e` moved (or added) to its sorted place.
     */
    twostate predicate ClipPlayed(specs: ClipSpecs, spatialBlend: real, parent: Option<TransformId>,
                                  offset: Vec3, now: real, scene: Scene, new e: PooledAudioSource)
      reads *
    {
      var before := old(pool);
      var finished := old(HeadFinished(now));
      && ((finished || |before| >= poolSize) ==> |before| > 0 && e == before[0])
      && (!finished && |before| < poolSize ==> fresh(e) && fresh(e.source))
      && SetUpFor(e, specs, spatialBlend, parent, offset, now, scene)
      && e.source.playing
      && pool == InsertAt(RemoveFirst(before, e),
                          InsertionPoint(EndTimes(RemoveFirst(before, e)), e.endTime), e)
      && loopingPool == old(loopingPool) && fades == old(fades)
    }

    /** The only way `PlayClip` fails: the pool is empty and may not grow, so `pool[0]` throws. */
    twostate predicate ClipFailed()
      reads this
    {
      && old(|pool|) == 0 && poolSize <= 0
      && pool == old(pool) && loopingPool == old(loopingPool) && fades == old(fades)
    }

    /**
     * `PlayClip(specs, spatialBlend, parent, pos)`: takes a source, sets it up,
     * plays it and sorts it into the pool. The pool grows by at most one entry
     * and never beyond `poolSize`, and stays in order. The configured entry is
     * returned so that callers can state the effect.
     */
    method PlayClip(specs: ClipSpecs, spatialBlend: real, parent: Option<TransformId>, offset: Vec3,
                    now: real, scene: Scene) returns (r: Result<PooledAudioSource, AudioError>)
      requires Valid()
      modifies this`pool, HeadEntry(), HeadSource()
      ensures Valid()
      ensures r.Success? ==> ClipPlayed(specs, spatialBlend, parent, offset, now, scene, r.value)
      ensures r.Failure? ==> r == Failure(IndexOutOfRange(0)) && ClipFailed()
      ensures |pool| <= |old(pool)| + 1
    {
      r := GetAudioSource(now);
      if r.Failure? {
        return;
      }
      PlayOn(r.value, specs, spatialBlend, parent, offset, now, scene);
    }

    /**
     * The steps of `PlayClip` after the source is chosen: set it up, play it
     * and sort it into the pool. The chosen entry is the head, or a new entry
     * whose source no entry of the pool has.
     */
    method PlayOn(e: PooledAudioSource, specs: ClipSpecs, spatialBlend: real, parent: Option<TransformId>,
                  offset: Vec3, now: real, scene: Scene)
      requires Valid()
      requires (|pool| > 0 && e == pool[0]) || (e !in pool && e.source !in Sources() && |pool| < poolSize)
      modifies this`pool, e, e.source
      ensures Valid()
      ensures SetUpFor(e, specs, spatialBlend, parent, offset, now, scene) && e.source.playing
      ensures pool == InsertAt(RemoveFirst(old(pool), e),
                               InsertionPoint(EndTimes(RemoveFirst(old(pool), e)), e.endTime), e)
    {
      ghost var rest := RemoveFirst(pool, e);
      RestOfPool(pool, e);
      ghost var keys := EndTimes(rest);
      assert Sorted(keys) by {
        SuffixSorted(EndTimes(pool), |pool| - |rest|);
        assert keys == EndTimes(pool)[|pool| - |rest|..];
      }
      Configure(e, specs, spatialBlend, parent, offset, now, scene);
      assert EndTimes(rest) == keys;
      Reinsert(e);
    }

    /**
     * `Sort` on the entry just set up: the head, or a new entry whose source
     * no entry has, while every other entry is still in order. The pool is
     * valid again afterwards.
     */
    method Reinsert(e: PooledAudioSource)
      requires LoopsValid() && |pool| <= Capacity()
      requires DistinctSources(pool)
      requires (|pool| > 0 && e == pool[0]) || (e !in pool && e.source !in Sources() && |pool| < poolSize)
      requires Sorted(EndTimes(RemoveFirst(pool, e)))
      modifies this`pool
      ensures Valid()
      ensures pool == InsertAt(RemoveFirst(old(pool), e),
                               InsertionPoint(EndTimes(RemoveFirst(old(pool), e)), e.endTime), e)
    {
      ghost var before := pool;
      ghost var rest := RemoveFirst(pool, e);
      RestOfPool(before, e);
      assert e !in before ==> forall a :: 0 <= a < |before| ==> before[a].source != e.source;
      ghost var keys := EndTimes(rest);
      Sort(e);
      assert EndTimes(rest) == keys;
      SortedSourcesDistinct(before, rest, e, InsertionPoint(keys, e.endTime));
    }

    /**
     * `Update`: every pooled source with a live origin moves to that origin
     * plus its offset; the others stay where they are, and nothing else changes.
     */
    method Update(scene: Scene)
      requires Valid()
      modifies Sources()`position
      ensures Valid()
      ensures forall e :: e in pool ==>
        (Live(e.origin, scene) ==> e.source.position == scene[e.origin.value].Plus(e.offset))
      ensures forall e :: e in pool ==>
        (!Live(e.origin, scene) ==> e.source.position == old(e.source.position))
    {
      for i := 0 to |pool|
        invariant forall j :: 0 <= j < i ==>
          (Live(pool[j].origin, scene) ==> pool[j].source.position == scene[pool[j].origin.value].Plus(pool[j].offset))
        invariant forall j :: 0 <= j < i ==>
          (!Live(pool[j].origin, scene) ==> pool[j].source.position == old(pool[j].source.position))
        invariant forall j :: i <= j < |pool| ==> pool[j].source.position == old(pool[j].source.position)
        invariant Valid()
      {
        assert forall j :: 0 <= j < |pool| && j != i ==> pool[j].source != pool[i].source;
        pool[i].UpdatePosition(scene);
      }
    }

    /**
     * The effect of one `PlayClipLooping(specs, fadeDuration, slot)`: the slot
     * has a pair (two new looping sources on first use), the pair is swapped so
     * that `item1` is the source that was `item2`, now holding the new clip and
     * pitch, both play, the other slots are as they were, and two fades were
     * started, both on that same source: from its old volume down to 0, and
     * from 0 up to the clip's volume.
     */
    twostate predicate LoopPlayed(specs: ClipSpecs, fadeDuration: real, slot: UInt32)
      reads *
    {
      var before := old(loopingPool);
      && loopingPool.Keys == before.Keys + {slot}
      && (forall s :: s in before && s != slot ==> loopingPool[s] == before[s])
      && var p := loopingPool[slot];
      && (slot in before ==> p == SourcePair(before[slot].item2, before[slot].item1))
      && (slot !in before ==> fresh(p.item1) && fresh(p.item2))
      && (slot !in before ==> p.item1.loop && p.item2.loop)
      && p.item1.clip == Some(specs.clip) && p.item1.pitch == specs.pitch
      && (fadeDuration > 0.0 ==> p.item1.volume == 0.0)
      && (fadeDuration < 0.0 ==> p.item1.volume == specs.volume)
      && p.item1.playing && p.item2.playing
      && fades == old(fades) + [Fade(p.item1, if slot in before then old(before[slot].item2.volume) else 1.0, 0.0, fadeDuration),
                                Fade(p.item1, 0.0, specs.volume, fadeDuration)]
      && (slot in before ==>
            p.item2.clip == old(p.item2.clip) && p.item2.volume == old(p.item2.volume)
            && p.item2.pitch == old(p.item2.pitch)
            && p.item1.loop == old(p.item1.loop) && p.item2.loop == old(p.item2.loop))
      && pool == old(pool)
    }

    /**
     * `PlayClipLooping(specs, fadeDuration, slot)`. Each fade coroutine runs its
     * first step within the call: a positive duration leaves the faded-in source
     * at volume 0, a negative one finishes both fades at once.
     */
    method PlayClipLooping(specs: ClipSpecs, fadeDuration: real, slot: UInt32)
      requires Valid()
      modifies this`loopingPool, this`fades, SlotSources(slot)
      ensures Valid()
      ensures LoopPlayed(specs, fadeDuration, slot)
    {
      EnsurePair(slot);
      CrossFade(specs, fadeDuration, slot);
      assert pool == old(pool) && EndTimes(pool) == old(EndTimes(pool));
    }

    /** The lazy creation of a slot's pair: two new looping sources at their default settings. */
    method EnsurePair(slot: UInt32)
      requires LoopsValid()
      modifies this`loopingPool
      ensures LoopsValid()
      ensures slot in loopingPool
      ensures old(slot in loopingPool) ==> loopingPool == old(loopingPool)
      ensures old(slot !in loopingPool) ==>
        && loopingPool == old(loopingPool)[slot := loopingPool[slot]]
        && fresh(loopingPool[slot].item1) && fresh(loopingPool[slot].item2)
        && loopingPool[slot].item1.loop && loopingPool[slot].item2.loop
        && loopingPool[slot].item2.volume == 1.0
    {
      if slot !in loopingPool {
        var first := new AudioSource();
        var second := new AudioSource();
        first.loop := true;
        second.loop := true;
        loopingPool := loopingPool[slot := SourcePair(first, second)];
      }
    }

    /**
     * The rest of `PlayClipLooping` on an existing slot: two fades are started
     * on `item2`, which takes the new clip and pitch, the pair is swapped and
     * both sources play.
     */
    method CrossFade(specs: ClipSpecs, fadeDuration: real, slot: UInt32)
      requires LoopsValid() && slot in loopingPool
      modifies this`loopingPool, this`fades, SlotSources(slot)
      ensures LoopsValid()
      ensures loopingPool == old(loopingPool)[slot := SourcePair(old(loopingPool[slot].item2), old(loopingPool[slot].item1))]
      ensures var p := loopingPool[slot];
        && p.item1.clip == Some(specs.clip) && p.item1.pitch == specs.pitch
        && (fadeDuration > 0.0 ==> p.item1.volume == 0.0)
        && (fadeDuration < 0.0 ==> p.item1.volume == specs.volume)
        && p.item1.playing && p.item2.playing
        && fades == old(fades) + [Fade(p.item1, old(p.item1.volume), 0.0, fadeDuration),
                                  Fade(p.item1, 0.0, specs.volume, fadeDuration)]
        && p.item2.clip == old(p.item2.clip) && p.item2.volume == old(p.item2.volume)
        && p.item2.pitch == old(p.item2.pitch)
        && p.item1.loop == old(p.item1.loop) && p.item2.loop == old(p.item2.loop)
    {
      var p := loopingPool[slot];
      var fadedIn := p.item2;
      var startVolume := fadedIn.volume;
      fades := fades + [Fade(fadedIn, startVolume, 0.0, fadeDuration), Fade(fadedIn, 0.0, specs.volume, fadeDuration)];
      var volume := if fadeDuration > 0.0 then 0.0 else if fadeDuration < 0.0 then specs.volume else startVolume;
      fadedIn.clip, fadedIn.pitch, fadedIn.volume := Some(specs.clip), specs.pitch, volume;
      loopingPool := loopingPool[slot := SourcePair(p.item2, p.item1)];
      p.item2.Play();
      p.item1.Play();
    }

    /** What running `request` does, with `o` its outcome. */
    twostate predicate Ran(request: Request, now: real, scene: Scene, new o: Outcome)
      reads *
    {
      match request
      case OneShot(specs, spatialBlend, parent, offset) =>
        || (o.Started? && ClipPlayed(specs, spatialBlend, parent, offset, now, scene, o.entry))
        || (o == Failed(IndexOutOfRange(0)) && ClipFailed())
      case Looping(specs, fadeDuration, slot) =>
        o == LoopStarted && LoopPlayed(specs, fadeDuration, slot)
    }

    /** Runs the callback a request stands for. */
    method Run(request: Request, now: real, scene: Scene) returns (o: Outcome)
      requires Valid()
      modifies this`pool, this`loopingPool, this`fades, TouchedEntries(request), TouchedSources(request)
      ensures Valid()
      ensures Ran(request, now, scene, o)
    {
      match request
      case OneShot(specs, spatialBlend, parent, offset) =>
        var r := PlayClip(specs, spatialBlend, parent, offset, now, scene);
        o := if r.Success? then Started(r.value) else Failed(r.error);
      case Looping(specs, fadeDuration, slot) =>
        PlayClipLooping(specs, fadeDuration, slot);
        o := LoopStarted;
    }

    /**
     * What `ExecuteCallback(request, delay)` does with a positive delay: it only
     * starts the waiting coroutine, which holds the request; nothing else changes.
     */
    twostate predicate Postponed(request: Request, delay: real, new o: Outcome)
      reads this, TouchedEntries(request), TouchedSources(request)
    {
      && o == Scheduled
      && deferred == old(deferred) + [Deferred(request, delay)]
      && pool == old(pool) && loopingPool == old(loopingPool) && fades == old(fades)
      && unchanged(TouchedEntries(request), TouchedSources(request))
    }

    method ExecuteCallback(request: Request, delay: real, now: real, scene: Scene) returns (o: Outcome)
      requires Valid()
      modifies this`pool, this`loopingPool, this`fades, this`deferred, TouchedEntries(request), TouchedSources(request)
      ensures Valid()
      ensures delay > 0.0 ==> Postponed(request, delay, o)
      ensures delay <= 0.0 ==> Ran(request, now, scene, o)
      ensures delay <= 0.0 ==> deferred == old(deferred)
    {
      if delay > 0.0 {
        o := Defer(request, delay);
      } else {
        o := Run(request, now, scene);
      }
    }

    /** The start of `ExecuteCallbackCoroutine` when there is a wait: the callback joins the waiting list. */
    method Defer(request: Request, delay: real) returns (o: Outcome)
      modifies this`deferred
      ensures Postponed(request, delay, o)
    {
      deferred := deferred + [Deferred(request, delay)];
      o := Scheduled;
    }

    /**
     * `ExecuteCallbackCoroutine` once its wait is over: the waiting callback
     * leaves the list and runs at the time `now` it resumes.
     */
    method ResumeDeferred(index: nat, now: real, scene: Scene) returns (o: Outcome)
      requires Valid()
      requires index < |deferred|
      modifies this`pool, this`loopingPool, this`fades, this`deferred, TouchedEntries(deferred[index].request), TouchedSources(deferred[index].request)
      ensures Valid()
      ensures deferred == old(deferred[..index] + deferred[index + 1..])
      ensures Ran(old(deferred[index].request), now, scene, o)
    {
      var request := deferred[index].request;
      deferred := deferred[..index] + deferred[index + 1..];
      o := Run(request, now, scene);
    }

    /** The `Play(specs, delay)` event: a non-spatial one-shot with no origin. */
    method Play(specs: ClipSpecs, delay: real, now: real, scene: Scene) returns (o: Outcome)
      requires Valid()
      modifies this`pool, this`loopingPool, this`fades, this`deferred, HeadEntry(), HeadSource()
      ensures Valid()
      ensures delay > 0.0 ==> Postponed(OneShot(specs, 0.0, None, Zero), delay, o)
      ensures delay <= 0.0 ==> Ran(OneShot(specs, 0.0, None, Zero), now, scene, o)
      ensures delay <= 0.0 ==> deferred == old(deferred)
    {
      o := ExecuteCallback(OneShot(specs, 0.0, None, Zero), delay, now, scene);
    }

    /**
     * The `PlayPositional(specs, position, delay)` event: a fully spatial
     * one-shot with a null origin and `position` as its offset. `Setup`
     * drops the offset of a null origin, so the clip plays at the world origin
     * whatever `position` is.
     */
    method PlayPositional(specs: ClipSpecs, position: Vec3, delay: real, now: real, scene: Scene)
      returns (o: Outcome)
      requires Valid()
      modifies this`pool, this`loopingPool, this`fades, this`deferred, HeadEntry(), HeadSource()
      ensures Valid()
      ensures delay > 0.0 ==> Postponed(OneShot(specs, 1.0, None, position), delay, o)
      ensures delay <= 0.0 ==> Ran(OneShot(specs, 1.0, None, position), now, scene, o)
      ensures delay <= 0.0 ==> deferred == old(deferred)
      ensures delay <= 0.0 && o.Started? ==> o.entry.source.position == Zero
    {
      o := ExecuteCallback(OneShot(specs, 1.0, None, position), delay, now, scene);
    }

    /** The `PlayParented(specs, parent, offset, delay)` event: a fully spatial one-shot following `parent`. */
    method PlayParented(specs: ClipSpecs, parent: Option<TransformId>, offset: Vec3, delay: real,
                        now: real, scene: Scene) returns (o: Outcome)
      requires Valid()
      modifies this`pool, this`loopingPool, this`fades, this`deferred, HeadEntry(), HeadSource()
      ensures Valid()
      ensures delay > 0.0 ==> Postponed(OneShot(specs, 1.0, parent, offset), delay, o)
      ensures delay <= 0.0 ==> Ran(OneShot(specs, 1.0, parent, offset), now, scene, o)
      ensures delay <= 0.0 ==> deferred == old(deferred)
    {
      o := ExecuteCallback(OneShot(specs, 1.0, parent, offset), delay, now, scene);
    }

    /** The `PlayLooping(specs, fadeInTime, slot, delay)` event. */
    method PlayLooping(specs: ClipSpecs, fadeInTime: real, slot: UInt32, delay: real, now: real, scene: Scene)
      returns (o: Outcome)
      requires Valid()
      modifies this`pool, this`loopingPool, this`fades, this`deferred, SlotSources(slot)
      ensures Valid()
      ensures delay > 0.0 ==> Postponed(Looping(specs, fadeInTime, slot), delay, o)
      ensures delay <= 0.0 ==> Ran(Looping(specs, fadeInTime, slot), now, scene, o)
      ensures delay <= 0.0 ==> deferred == old(deferred)
    {
      o := ExecuteCallback(Looping(specs, fadeInTime, slot), delay, now, scene);
    }
  }

  /** `Setup` followed by `Play`, the two steps `PlayClip` takes on the chosen entry. */
  method Configure(e: PooledAudioSource, specs: ClipSpecs, spatialBlend: real, origin: Option<TransformId>,
                   offset: Vec3, now: real, scene: Scene)
    modifies e, e.source
    ensures SetUpFor(e, specs, spatialBlend, origin, offset, now, scene) && e.source.playing
  {
    e.Setup(specs, spatialBlend, origin, offset, now, scene);
    e.Play();
  }

  /**
   * The chosen entry is the head or not in the pool at all, so removing it
   * leaves the pool without its head, or the pool itself.
   */
  lemma RestOfPool(before: seq<PooledAudioSource>, e: PooledAudioSource)
    requires DistinctSources(before)
    requires e in before ==> e == before[0]
    ensures e in before ==> RemoveFirst(before, e) == before[1..]
    ensures e !in before ==> RemoveFirst(before, e) == before
    ensures e !in RemoveFirst(before, e)
  {
    if e in before {
      assert forall a :: 1 <= a < |before| ==> before[a] != e;
    }
  }

  /** A suffix of a sorted list is sorted. */
  lemma SuffixSorted(keys: seq<real>, k: nat)
    requires Sorted(keys) && k <= |keys|
    ensures Sorted(keys[k..])
  {
  }

  /** No two entries of `entries` share a source. */
  predicate DistinctSources(entries: seq<PooledAudioSource>) {
    forall i, j :: 0 <= i < j < |entries| ==> entries[i].source != entries[j].source
  }

  /** Putting an entry whose source is new back into entries with distinct sources keeps them distinct. */
  lemma InsertDistinctSources(rest: seq<PooledAudioSource>, p: nat, e: PooledAudioSource)
    requires DistinctSources(rest) && p <= |rest|
    requires forall k :: 0 <= k < |rest| ==> rest[k].source != e.source
    ensures DistinctSources(InsertAt(rest, p, e))
  {
    var pool := InsertAt(rest, p, e);
    forall i, j | 0 <= i < j < |pool|
      ensures pool[i].source != pool[j].source
    {
      if j < p {
        assert pool[i] == rest[i] && pool[j] == rest[j];
      } else if i > p {
        assert pool[i] == rest[i - 1] && pool[j] == rest[j - 1];
      } else if i == p {
        assert pool[j] == rest[j - 1];
      } else if j == p {
        assert pool[i] == rest[i];
      } else {
        assert pool[i] == rest[i] && pool[j] == rest[j - 1];
      }
    }
  }

  /**
   * The chosen entry, put back into the rest of the pool, leaves the sources
   * of the pool distinct: the rest is the pool or the pool without its head,
   * and the chosen entry's source is not among the rest's.
   */
  lemma SortedSourcesDistinct(before: seq<PooledAudioSource>, rest: seq<PooledAudioSource>,
                              e: PooledAudioSource, p: nat)
    requires DistinctSources(before)
    requires |before| > 0 && e == before[0] ==> rest == before[1..]
    requires e !in before ==> rest == before && forall a :: 0 <= a < |before| ==> before[a].source != e.source
    requires e in before ==> e == before[0]
    requires p <= |rest|
    ensures DistinctSources(InsertAt(rest, p, e))
  {
    var off := |before| - |rest|;
    assert forall a :: 0 <= a < |rest| ==> rest[a] == before[a + off];
    assert off == 1 ==> e == before[0];
    InsertDistinctSources(rest, p, e);
  }

}
