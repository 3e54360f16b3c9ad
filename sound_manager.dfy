/** The sound manager: a pool of AudioSource channels shared between one-shot
    sound effects and two music slots that crossfade between queued tracks. */
module Sound {
  import opened AudioDevice
  import opened Fades
  import opened MusicTasks
  import opened ChannelLists
  import opened Crossfade

  /** One music slot: its AudioSource and the progress of its fade. */
  class MusicChannelState {
    const source: AudioSource
    var fadeFactor: real
    var fadeTime: real

    constructor (source: AudioSource)
      ensures this.source == source && FadeState() == Steady
    {
      this.source := source;
      fadeFactor := 1.0;
      fadeTime := 0.0;
    }

    ghost function FadeState(): Fade
      reads this
    {
      Fade(fadeFactor, fadeTime)
    }

    ghost function Snapshot(): Slot
      reads this, source
    {
      Slot(FadeState(), source.State())
    }

    /** The fade-out update of the previous slot for a frame of `dt` seconds. */
    method FadeOut(dt: real, cfg: Config)
      requires ValidConfig(cfg) && dt >= 0.0 && FadingOut(FadeState(), cfg)
      modifies this, source
      ensures Snapshot() == FadeOutPrevious(old(Snapshot()), dt, cfg)
    {
      if fadeFactor > 0.0 && source.isPlaying {
        fadeTime := fadeTime + dt;
        fadeFactor := 1.0 - Clamp01(fadeTime / cfg.fadeOutTime);
        source.volume := cfg.musicVol * fadeFactor;
        if fadeFactor <= 0.0 {
          source.Stop();
          source.enabled := false;
        }
      }
    }

    /** The fade-in update of the current slot for a frame of `dt` seconds. */
    method FadeIn(dt: real, cfg: Config)
      requires ValidConfig(cfg) && dt >= 0.0 && FadingIn(FadeState(), cfg)
      modifies this, source
      ensures Snapshot() == FadeInCurrent(old(Snapshot()), dt, cfg)
    {
      if fadeFactor < 1.0 && source.isPlaying {
        fadeTime := fadeTime + dt;
        fadeFactor := Clamp01(fadeTime / cfg.fadeInTime);
        source.volume := cfg.musicVol * fadeFactor;
        if fadeFactor >= 1.0 {
          fadeTime := 0.0;
        }
      }
    }

    /** Binds the task's clip to this slot and starts it from silence,
        through `PlayScheduled(time)` when `scheduled` and through `Play`
        otherwise. */
    method Start(task: MusicTask, scheduled: bool, time: real)
      modifies this, source
      ensures Snapshot() == StartSlot(old(Snapshot()), task, scheduled, time)
    {
      source.clip := task.clip;
      source.loop := task.loop;
      fadeTime := 0.0;
      fadeFactor := 0.0;
      source.enabled := true;
      if scheduled {
        source.PlayScheduled(time);
      } else {
        source.Play();
      }
    }
  }

  class SoundManager {
    const maxSFXChannelPoolSize: nat
    const musicFadeOutTime: real
    const musicFadeInTime: real
    const musicVol: real
    /** The two music slots; Awake fills them and nothing replaces them. */
    const musicChannels: seq<MusicChannelState>
    /** Every channel Awake created, in the order it created them. */
    ghost const seeded: seq<AudioSource>

    var currentMusicChannel: nat
    var musicTaskQueue: seq<MusicTask>
    var workingChannels: seq<AudioSource>
    var channelPool: seq<AudioSource>
    var isMusicPlaying: bool

    function Settings(): Config {
      Config(musicFadeOutTime, musicFadeInTime, musicVol)
    }

    ghost function MusicSources(): seq<AudioSource>
      requires |musicChannels| == MAX_MUSIC_CHANNELS
    {
      [musicChannels[0].source, musicChannels[1].source]
    }

    ghost function MusicObjects(): set<object> {
      if |musicChannels| == MAX_MUSIC_CHANNELS then
        {musicChannels[0], musicChannels[1], musicChannels[0].source, musicChannels[1].source}
      else {}
    }

    /** Every channel handle, wherever it is held. */
    ghost function Handles(): seq<AudioSource>
      reads this`channelPool, this`workingChannels
      requires |musicChannels| == MAX_MUSIC_CHANNELS
    {
      channelPool + workingChannels + MusicSources()
    }

    /** The channels Awake created are all still held, each exactly once, and
        the effect channels number maxSFXChannelPoolSize. */
    ghost predicate Owned()
      reads this`channelPool, this`workingChannels
    {
      && |musicChannels| == MAX_MUSIC_CHANNELS
      && musicChannels[0] != musicChannels[1]
      && NoDuplicates(seeded)
      && multiset(channelPool) + multiset(workingChannels) + multiset(MusicSources()) == multiset(seeded)
      && |channelPool| + |workingChannels| == maxSFXChannelPoolSize
    }

    /** The crossfade invariant on the music slots. */
    ghost predicate MusicValid()
      reads this`currentMusicChannel, this`musicTaskQueue, this`isMusicPlaying, MusicObjects()
    {
      && |musicChannels| == MAX_MUSIC_CHANNELS
      && ValidConfig(Settings())
      && Inv(MusicView(), Settings())
    }

    ghost predicate Valid()
      reads this, MusicObjects()
    {
      Owned() && MusicValid()
    }

    /** The music half of the state, as a value. */
    ghost function MusicView(): MusicState
      reads this`currentMusicChannel, this`musicTaskQueue, this`isMusicPlaying, MusicObjects()
      requires |musicChannels| == MAX_MUSIC_CHANNELS
    {
      MusicState([musicChannels[0].Snapshot(), musicChannels[1].Snapshot()],
                 currentMusicChannel, musicTaskQueue, isMusicPlaying)
    }

    /** The working channels the device reports as playing. */
    ghost function PlayingWorking(): set<AudioSource>
      reads this`workingChannels, workingChannels
    {
      set c | c in workingChannels && c.isPlaying
    }

    /** The channel PlaySFX would take, if any. */
    ghost function Front(): set<AudioSource>
      reads this`channelPool
    {
      if channelPool == [] then {} else {channelPool[0]}
    }

    lemma Ownership()
      requires Owned()
      ensures musicChannels[0].source != musicChannels[1].source
      ensures forall c :: c in workingChannels ==> c !in MusicSources() && c !in channelPool
      ensures forall c :: c in channelPool ==> c !in MusicSources()
      ensures forall c :: c in seeded <==> c in channelPool || c in workingChannels || c in MusicSources()
    {
      assert multiset(Handles()) == multiset(seeded);
      NoDuplicatesPermutation(Handles(), seeded);
      NoDuplicatesSplit(channelPool + workingChannels, MusicSources());
      NoDuplicatesSplit(channelPool, workingChannels);
      assert multiset(MusicSources())[musicChannels[0].source] <= 1;
    }

    /** The two music slots play on different channels. */
    lemma MusicSourcesDistinct()
      requires Owned()
      ensures musicChannels[0].source != musicChannels[1].source
    {
      Ownership();
    }

    /** The channel at the front of the pool is not a music channel. */
    lemma FrontNotMusic()
      requires Owned() && channelPool != []
      ensures channelPool[0] != musicChannels[0].source && channelPool[0] != musicChannels[1].source
    {
      Ownership();
      assert channelPool[0] in channelPool;
    }

    /** No working channel is a music channel. */
    lemma WorkingNotMusic()
      requires Owned()
      ensures musicChannels[0].source !in workingChannels
      ensures musicChannels[1].source !in workingChannels
    {
      Ownership();
    }

    /** Awake: fills the pool with maxSFX + 2 fresh channels, then moves the
        first two into the music slots, each at full factor with no fade time. */
    constructor (maxSFXChannelPoolSize: nat, musicFadeOutTime: real, musicFadeInTime: real,
                 musicVol: real)
      requires musicFadeOutTime > 0.0 && musicFadeInTime > 0.0
      requires 0.0 <= musicVol <= 1.0
      ensures Valid()
      ensures this.maxSFXChannelPoolSize == maxSFXChannelPoolSize
      ensures Settings() == Config(musicFadeOutTime, musicFadeInTime, musicVol)
      ensures |seeded| == maxSFXChannelPoolSize + MAX_MUSIC_CHANNELS
      ensures seeded == MusicSources() + channelPool
      ensures workingChannels == []
      ensures MusicView() == Initial()
      ensures forall c :: c in seeded ==> fresh(c) && c.State() == FreshSource
    {
      var pool := SeedPool(maxSFXChannelPoolSize + MAX_MUSIC_CHANNELS);
      ghost var all := pool;
      var slots;
      slots, pool := TakeMusicSlots(pool);
      this.maxSFXChannelPoolSize := maxSFXChannelPoolSize;
      this.musicFadeOutTime := musicFadeOutTime;
      this.musicFadeInTime := musicFadeInTime;
      this.musicVol := musicVol;
      musicChannels := slots;
      seeded := all;
      currentMusicChannel := 0;
      musicTaskQueue := [];
      workingChannels := [];
      channelPool := pool;
      isMusicPlaying := false;
      new;
      assert all == MusicSources() + pool;
      assert FadeOutFactor(0.0, musicFadeOutTime) == 1.0;
    }

    /** The seeding loop of Awake: `count` fresh channels, in creation order. */
    static method SeedPool(count: nat) returns (pool: seq<AudioSource>)
      ensures |pool| == count && NoDuplicates(pool)
      ensures forall c :: c in pool ==> fresh(c) && c.State() == FreshSource
    {
      pool := [];
      for i := 0 to count
        invariant |pool| == i && NoDuplicates(pool)
        invariant forall c :: c in pool ==> fresh(c) && c.State() == FreshSource
      {
        var channel := new AudioSource();
        assert multiset(pool + [channel]) == multiset(pool) + multiset{channel};
        pool := pool + [channel];
      }
    }

    /** The slot loop of Awake: the first two channels leave the front of the
        pool, each wrapped in a fresh slot at full factor with no fade time. */
    static method TakeMusicSlots(pool: seq<AudioSource>)
      returns (slots: seq<MusicChannelState>, rest: seq<AudioSource>)
      requires |pool| >= MAX_MUSIC_CHANNELS
      ensures |slots| == MAX_MUSIC_CHANNELS && rest == pool[MAX_MUSIC_CHANNELS..]
      ensures slots[0].source == pool[0] && slots[1].source == pool[1]
      ensures slots[0] != slots[1] && fresh(slots[0]) && fresh(slots[1])
      ensures slots[0].FadeState() == Steady && slots[1].FadeState() == Steady
    {
      rest := pool;
      slots := [];
      for i := 0 to MAX_MUSIC_CHANNELS
        invariant |slots| == i && rest == pool[i..]
        invariant forall j :: 0 <= j < i ==> slots[j].source == pool[j] && fresh(slots[j])
        invariant forall j :: 0 <= j < i ==> slots[j].FadeState() == Steady
        invariant i == 2 ==> slots[0] != slots[1]
      {
        var channel := rest[0];
        rest := rest[1..];
        var slot := new MusicChannelState(channel);
        slots := slots + [slot];
      }
    }

    /** Takes the channel at the front of the pool, or null when none is free. */
    method GetChannel() returns (channel: AudioSource?)
      modifies this`channelPool
      ensures old(channelPool) == [] ==> channel == null && channelPool == []
      ensures old(channelPool) != [] ==>
                channel == old(channelPool[0]) && channelPool == old(channelPool[1..])
    {
      if |channelPool| > 0 {
        channel := channelPool[0];
        channelPool := channelPool[1..];
        return;
      }
      return null;
    }

    /** Plays a one-shot effect on a free channel, which joins the working set
        non-looping and enabled; with no free channel the effect is dropped and
        nothing changes. The music slots are never touched. */
    method PlaySFX(sfx: Clip)
      requires Valid()
      modifies this`channelPool, this`workingChannels, Front()
      ensures Valid()
      ensures old(channelPool) == [] ==>
                channelPool == [] && workingChannels == old(workingChannels)
      ensures old(channelPool) != [] ==>
                && channelPool == old(channelPool[1..])
                && workingChannels == old(workingChannels) + [old(channelPool[0])]
                && workingChannels[|workingChannels| - 1].State()
                   == old(channelPool[0].State()).(loop := false, enabled := true).PlayOneShot(sfx)
      ensures MusicView() == old(MusicView())
    {
      if channelPool != [] {
        FrontNotMusic();
        MoveFront(channelPool, workingChannels);
      }
      var channel := GetChannel();
      if channel != null {
        workingChannels := workingChannels + [channel];
        StartEffect(channel, sfx);
      }
    }

    /** The device calls of PlaySFX: a one-shot on a non-looping, enabled
        effect channel; the rest of the manager is untouched. */
    method StartEffect(channel: AudioSource, sfx: Clip)
      requires Valid()
      requires channel != musicChannels[0].source && channel != musicChannels[1].source
      modifies channel
      ensures Valid() && MusicView() == old(MusicView())
      ensures channel.State() == old(channel.State()).(loop := false, enabled := true).PlayOneShot(sfx)
    {
      channel.loop := false;
      channel.enabled := true;
      channel.PlayOneShot(sfx);
    }

    /** Queues a music request at the tail, or drops it when the queue is full. */
    method PlayMusic(music: Clip, loop: bool := true, fadeIn: bool := false)
      requires Valid()
      modifies this`musicTaskQueue
      ensures Valid()
      ensures musicTaskQueue == Offer(old(musicTaskQueue), MusicTask(loop, fadeIn, music))
      ensures MusicView() == old(MusicView()).(queue := musicTaskQueue)
    {
      var task := MusicTask(loop, fadeIn, music);
      if |musicTaskQueue| < MAX_MUSIC_TASK_QUEUE_LENGTH {
        musicTaskQueue := musicTaskQueue + [task];
      }
    }

    /** Returns every working channel the device no longer reports as playing
        to the tail of the pool, disabled and in working-set order; the rest
        stay in the working set in their order. */
    method UpdateFSXChannel()
      requires Valid()
      modifies this`workingChannels, this`channelPool, (set c | c in workingChannels && !c.isPlaying)`enabled
      ensures Valid()
      ensures workingChannels == Kept(old(workingChannels), old(PlayingWorking()))
      ensures channelPool
              == old(channelPool) + Reclaimed(old(workingChannels), old(PlayingWorking()))
      ensures forall c :: c in workingChannels ==> c.isPlaying
      ensures forall c :: c in old(workingChannels) ==> c.enabled == (old(c.enabled) && old(c.isPlaying))
      ensures MusicView() == old(MusicView())
    {
      WorkingNotMusic();
      ghost var work := workingChannels;
      ghost var playing := PlayingWorking();
      ReclaimStopped();
      ReclaimKeeps(old(channelPool), work, playing);
      KeptIffPlaying(work, playing);
    }

    /** The loop of UpdateFSXChannel: an index walks the working set; a channel
        that has stopped is removed where it stands, disabled and appended to
        the pool, and the index only moves past channels that still play. */
    method ReclaimStopped()
      modifies this`workingChannels, this`channelPool, (set c | c in workingChannels && !c.isPlaying)`enabled
      ensures workingChannels == Kept(old(workingChannels), old(PlayingWorking()))
      ensures channelPool
              == old(channelPool) + Reclaimed(old(workingChannels), old(PlayingWorking()))
      ensures forall c | c in old(workingChannels) && !c.isPlaying :: !c.enabled
    {
      ghost var work, pool := workingChannels, channelPool;
      ghost var playing := PlayingWorking();
      var i: nat := 0;
      ghost var k: nat := 0;
      while i < |workingChannels|
        invariant Scanned(work, pool, playing, k, i)
        invariant forall j | k <= j < |work| :: work[j] in playing <==> work[j].isPlaying
        invariant forall j | 0 <= j < k :: work[j].isPlaying || !work[j].enabled
        decreases |workingChannels| - i
      {
        i := ReclaimNext(work, pool, playing, k, i);
        k := k + 1;
      }
      assert work[..k] == work;
    }

    /** The loop invariant of ReclaimStopped: the first `k` channels of `work`
        have been scanned; the playing ones among them sit before index `i`,
        the stopped ones have joined the pool, and the rest are untouched. */
    ghost predicate Scanned(work: seq<AudioSource>, pool: seq<AudioSource>, playing: set<AudioSource>,
                            k: nat, i: nat)
      reads this`workingChannels, this`channelPool
    {
      && k <= |work|
      && i == |Kept(work[..k], playing)|
      && workingChannels == Kept(work[..k], playing) + work[k..]
      && channelPool == pool + Reclaimed(work[..k], playing)
    }

    /** One iteration of the loop of ReclaimStopped, at index `i` on the
        channel `work[k]`. */
    method ReclaimNext(ghost work: seq<AudioSource>, ghost pool: seq<AudioSource>,
                       ghost playing: set<AudioSource>, ghost k: nat, i: nat) returns (next: nat)
      requires Scanned(work, pool, playing, k, i) && i < |workingChannels|
      requires work[k] in playing <==> work[k].isPlaying
      modifies this`workingChannels, this`channelPool, (set c | c == work[k] && !c.isPlaying)`enabled
      ensures Scanned(work, pool, playing, k + 1, next)
      ensures work[k].isPlaying || !work[k].enabled
    {
      if !workingChannels[i].isPlaying {
        DropStep(workingChannels, work, playing, k);
        var channel := workingChannels[i];
        workingChannels := workingChannels[..i] + workingChannels[i + 1..];
        channel.enabled := false;
        channelPool := channelPool + [channel];
        next := i;
      } else {
        KeepStep(workingChannels, work, playing, k);
        next := i + 1;
      }
    }

    /** The fade-out step of UpdateMusicChannel, on the previous slot. */
    method FadeOutPreviousChannel(dt: real)
      requires Valid() && dt >= 0.0
      modifies MusicObjects()
      ensures Valid()
      ensures MusicView() == StepPrevious(old(MusicView()), dt, Settings())
    {
      MusicSourcesDistinct();
      ghost var before := MusicView();
      var pre := (currentMusicChannel + 1) % MAX_MUSIC_CHANNELS;
      musicChannels[pre].FadeOut(dt, Settings());
      assert MusicView().slots == before.slots[pre := musicChannels[pre].Snapshot()];
    }

    /** The fade-in step of UpdateMusicChannel, on the current slot. */
    method FadeInCurrentChannel(dt: real)
      requires Valid() && dt >= 0.0
      modifies MusicObjects()
      ensures Valid()
      ensures MusicView() == StepCurrent(old(MusicView()), dt, Settings())
    {
      MusicSourcesDistinct();
      ghost var before := MusicView();
      musicChannels[currentMusicChannel].FadeIn(dt, Settings());
      assert MusicView().slots
             == before.slots[currentMusicChannel := musicChannels[currentMusicChannel].Snapshot()];
    }

    /** The admission step of UpdateMusicChannel, under the given gate. */
    method AdmitNextTask(gate: Gate)
      requires Valid()
      modifies this`currentMusicChannel, this`musicTaskQueue, this`isMusicPlaying, MusicObjects()
      ensures Valid()
      ensures MusicView() == Admit(old(MusicView()), Settings(), gate)
    {
      ghost var before := MusicView();
      var preMusicChannel := (currentMusicChannel + 1) % MAX_MUSIC_CHANNELS;
      var fadeOutDone := musicChannels[preMusicChannel].fadeFactor <= 0.0;
      var fadeInDone := musicChannels[currentMusicChannel].fadeFactor >= 1.0;
      var open := match gate
        case AsWritten => fadeInDone && fadeInDone
        case TwoSided => fadeOutDone && fadeInDone;
      assert open == GateOpen(before, gate);
      if open {
        if |musicTaskQueue| > 0 {
          StartNextTask();
        } else {
          var music := musicChannels[currentMusicChannel];
          if !music.source.isPlaying && music.source.enabled {
            isMusicPlaying := false;
          }
        }
      }
    }

    /** The admitted branch of the admission step: dequeue the oldest task,
        swap the slot roles and start the task on the new current slot. */
    method StartNextTask()
      requires Valid() && musicTaskQueue != []
      requires musicChannels[currentMusicChannel].FadeState() == Steady
      modifies this`currentMusicChannel, this`musicTaskQueue, this`isMusicPlaying, MusicObjects()
      ensures Valid()
      ensures MusicView() == StartNext(old(MusicView()), Settings())
    {
      MusicSourcesDistinct();
      ghost var before := MusicView();
      var task := musicTaskQueue[0];
      musicTaskQueue := musicTaskQueue[1..];
      currentMusicChannel := (currentMusicChannel + 1) % MAX_MUSIC_CHANNELS;
      var preMusicChannel := (currentMusicChannel + 1) % MAX_MUSIC_CHANNELS;
      assert preMusicChannel == old(currentMusicChannel);
      var music := musicChannels[currentMusicChannel];
      var previous := musicChannels[preMusicChannel];
      assert previous != music && previous.source != music.source;
      ghost var started :=
        StartSlot(before.slots[currentMusicChannel], task, previous.source.enabled, musicFadeOutTime);
      music.Start(task, previous.source.enabled, musicFadeOutTime);
      isMusicPlaying := true;
      assert music.Snapshot() == started;
      assert previous.Snapshot() == before.slots[preMusicChannel];
      assert MusicView().slots == before.slots[currentMusicChannel := started];
      assert FadeOutFactor(0.0, musicFadeOutTime) == 1.0;
    }

    /** One frame of music: fade out the previous slot, fade in the current
        one, then admit the next task through the gate as written. */
    method UpdateMusicChannel(dt: real)
      requires Valid() && dt >= 0.0
      modifies this`currentMusicChannel, this`musicTaskQueue, this`isMusicPlaying, MusicObjects()
      ensures Valid()
      ensures MusicView() == MusicStep(old(MusicView()), dt, Settings(), AsWritten)
      ensures workingChannels == old(workingChannels) && channelPool == old(channelPool)
    {
      FadeOutPreviousChannel(dt);
      FadeInCurrentChannel(dt);
      AdmitNextTask(AsWritten);
    }

    /** The same frame with the two-sided gate (fade-out and fade-in both
        complete); see TwoSidedGateNeverStarts for what that changes. */
    method UpdateMusicChannelTwoSided(dt: real)
      requires Valid() && dt >= 0.0
      modifies this`currentMusicChannel, this`musicTaskQueue, this`isMusicPlaying, MusicObjects()
      ensures Valid()
      ensures MusicView() == MusicStep(old(MusicView()), dt, Settings(), TwoSided)
    {
      FadeOutPreviousChannel(dt);
      FadeInCurrentChannel(dt);
      AdmitNextTask(TwoSided);
    }

    /** Update: reclaim finished effects, then advance the music. */
    method Tick(dt: real)
      requires Valid() && dt >= 0.0
      modifies this`workingChannels, this`channelPool, (set c | c in workingChannels && !c.isPlaying)`enabled
      modifies this`currentMusicChannel, this`musicTaskQueue, this`isMusicPlaying, MusicObjects()
      ensures Valid()
      ensures workingChannels == Kept(old(workingChannels), old(PlayingWorking()))
      ensures channelPool
              == old(channelPool) + Reclaimed(old(workingChannels), old(PlayingWorking()))
      ensures forall c :: c in workingChannels ==> c.isPlaying
      ensures forall c :: c in old(workingChannels) ==> c.enabled == (old(c.enabled) && old(c.isPlaying))
      ensures MusicView() == MusicStep(old(MusicView()), dt, Settings(), AsWritten)
    {
      WorkingNotMusic();
      ghost var work := workingChannels;
      UpdateFSXChannel();
      WorkingNotMusic();
      label Reclaimed:
      UpdateMusicChannel(dt);
      forall c | c in work ensures c.enabled == old@Reclaimed(c.enabled) {
        assert c !in MusicObjects();
      }
      forall c | c in workingChannels ensures c.isPlaying == old@Reclaimed(c.isPlaying) {
        assert c !in MusicObjects();
      }
    }

    method IsMusicPlaying() returns (playing: bool)
      ensures playing == isMusicPlaying
    {
      playing := isMusicPlaying;
    }
  }
}
