/** The music half of the sound manager as values: two slots that take turns
    as "current" (fading in, then steady) and "previous" (fading out), the
    task queue, and the step one frame makes. The SoundManager class is
    proved to make exactly these steps on its objects. */
module Crossfade {
  import opened AudioDevice
  import opened Fades
  import opened MusicTasks

  const MAX_MUSIC_CHANNELS: nat := 2

  /** The fade part of a MusicChannelState. */
  datatype Fade = Fade(factor: real, time: real)

  /** A music slot: its fade and the state of its AudioSource. */
  datatype Slot = Slot(fade: Fade, source: SourceState)

  datatype MusicState = MusicState(
    slots: seq<Slot>,
    current: nat,
    queue: seq<MusicTask>,
    isMusicPlaying: bool)

  datatype Config = Config(fadeOutTime: real, fadeInTime: real, musicVol: real)

  /** Which admission test a step uses: the one written in the source
      (`fadeInDone && fadeInDone`) or the two-sided one its variables suggest
      (`fadeOutDone && fadeInDone`). */
  datatype Gate = AsWritten | TwoSided

  /** A slot that holds its track at full volume after fading in. */
  const Steady := Fade(1.0, 0.0)

  predicate ValidConfig(cfg: Config) {
    cfg.fadeOutTime > 0.0 && cfg.fadeInTime > 0.0
  }

  /** The slot that is not `channel`. */
  function Other(channel: nat): nat {
    (channel + 1) % MAX_MUSIC_CHANNELS
  }

  /** The previous slot's factor is the fade-out curve at its fade time. */
  predicate FadingOut(f: Fade, cfg: Config)
    requires ValidConfig(cfg)
  {
    0.0 <= f.time && f.factor == FadeOutFactor(f.time, cfg.fadeOutTime)
  }

  /** The current slot is either steady or part-way up the fade-in curve. */
  predicate FadingIn(f: Fade, cfg: Config)
    requires ValidConfig(cfg)
  {
    f == Steady
    || (0.0 <= f.time && f.factor == FadeInFactor(f.time, cfg.fadeInTime) && f.factor < 1.0)
  }

  /** What every frame keeps: two slots, a current index among them, a bounded
      queue, one slot fading out and the other fading in or steady. */
  predicate Inv(m: MusicState, cfg: Config)
    requires ValidConfig(cfg)
  {
    && |m.slots| == MAX_MUSIC_CHANNELS
    && m.current < MAX_MUSIC_CHANNELS
    && |m.queue| <= MAX_MUSIC_TASK_QUEUE_LENGTH
    && FadingOut(m.slots[Other(m.current)].fade, cfg)
    && FadingIn(m.slots[m.current].fade, cfg)
  }

  /** The state right after Awake: both slots steady on fresh sources. */
  function Initial(): MusicState {
    MusicState([Slot(Steady, FreshSource), Slot(Steady, FreshSource)], 0, [], false)
  }

  lemma InitialInv(cfg: Config)
    requires ValidConfig(cfg)
    ensures Inv(Initial(), cfg)
  {
  }

  /** One frame of fade-out on the previous slot. It only moves while the
      slot is audible and playing; its factor then follows the fade-out curve
      and never rises, the volume follows the factor, and the source is
      stopped and disabled once the factor reaches zero. */
  function FadeOutPrevious(s: Slot, dt: real, cfg: Config): (r: Slot)
    requires ValidConfig(cfg) && dt >= 0.0 && FadingOut(s.fade, cfg)
    ensures FadingOut(r.fade, cfg)
    ensures 0.0 <= r.fade.factor <= s.fade.factor <= 1.0
    ensures !(s.fade.factor > 0.0 && s.source.isPlaying) ==> r == s
    ensures s.fade.factor > 0.0 && s.source.isPlaying ==>
              && r.fade.time == s.fade.time + dt
              && r.source.volume == cfg.musicVol * r.fade.factor
              && (r.fade.factor <= 0.0 <==> r.fade.time >= cfg.fadeOutTime)
              && (r.fade.factor <= 0.0 ==>
                    r.source == s.source.(volume := r.source.volume).Stop().(enabled := false))
              && (r.fade.factor > 0.0 ==> r.source == s.source.(volume := r.source.volume))
    ensures dt == 0.0 ==> r.fade == s.fade && r.source == s.source.(volume := r.source.volume)
  {
    if s.fade.factor > 0.0 && s.source.isPlaying then
      var time := s.fade.time + dt;
      var factor := FadeOutFactor(time, cfg.fadeOutTime);
      FadeOutNonIncreasing(s.fade.time, time, cfg.fadeOutTime);
      var source := s.source.(volume := cfg.musicVol * factor);
      Slot(Fade(factor, time), if factor <= 0.0 then source.Stop().(enabled := false) else source)
    else
      s
  }

  /** One frame of fade-in on the current slot. It only moves while the slot
      is below full volume and playing; its factor then follows the fade-in
      curve and never falls, and once it reaches full volume the fade time is
      reset and the slot holds steady with no further updates. */
  function FadeInCurrent(s: Slot, dt: real, cfg: Config): (r: Slot)
    requires ValidConfig(cfg) && dt >= 0.0 && FadingIn(s.fade, cfg)
    ensures FadingIn(r.fade, cfg)
    ensures s.fade.factor <= r.fade.factor <= 1.0
    ensures r.fade.factor >= 1.0 ==> r.fade == Steady
    ensures !(s.fade.factor < 1.0 && s.source.isPlaying) ==> r == s
    ensures s.fade.factor < 1.0 && s.source.isPlaying ==>
              && r.source == s.source.(volume := cfg.musicVol * r.fade.factor)
              && (r.fade.factor >= 1.0 <==> s.fade.time + dt >= cfg.fadeInTime)
              && (r.fade.factor < 1.0 ==> r.fade.time == s.fade.time + dt)
    ensures dt == 0.0 ==> r.fade == s.fade && r.source == s.source.(volume := r.source.volume)
  {
    if s.fade.factor < 1.0 && s.source.isPlaying then
      var time := s.fade.time + dt;
      var factor := FadeInFactor(time, cfg.fadeInTime);
      FadeInNonDecreasing(s.fade.time, time, cfg.fadeInTime);
      Slot(Fade(factor, if factor >= 1.0 then 0.0 else time),
           s.source.(volume := cfg.musicVol * factor))
    else
      s
  }

  /** The fade-out step of a frame, on the whole state. */
  function StepPrevious(m: MusicState, dt: real, cfg: Config): (r: MusicState)
    requires ValidConfig(cfg) && dt >= 0.0 && Inv(m, cfg)
    ensures Inv(r, cfg)
    ensures r.current == m.current && r.queue == m.queue && r.isMusicPlaying == m.isMusicPlaying
    ensures r.slots[m.current] == m.slots[m.current]
    ensures r.slots[Other(m.current)] == FadeOutPrevious(m.slots[Other(m.current)], dt, cfg)
  {
    var prev := Other(m.current);
    m.(slots := m.slots[prev := FadeOutPrevious(m.slots[prev], dt, cfg)])
  }

  /** The fade-in step of a frame, on the whole state. */
  function StepCurrent(m: MusicState, dt: real, cfg: Config): (r: MusicState)
    requires ValidConfig(cfg) && dt >= 0.0 && Inv(m, cfg)
    ensures Inv(r, cfg)
    ensures r.current == m.current && r.queue == m.queue && r.isMusicPlaying == m.isMusicPlaying
    ensures r.slots[Other(m.current)] == m.slots[Other(m.current)]
    ensures r.slots[m.current] == FadeInCurrent(m.slots[m.current], dt, cfg)
  {
    m.(slots := m.slots[m.current := FadeInCurrent(m.slots[m.current], dt, cfg)])
  }

  /** The admission test, as written or two-sided. */
  function GateOpen(m: MusicState, gate: Gate): (open: bool)
    requires |m.slots| == MAX_MUSIC_CHANNELS && m.current < MAX_MUSIC_CHANNELS
    ensures gate == AsWritten ==> (open <==> m.slots[m.current].fade.factor >= 1.0)
    ensures gate == TwoSided ==>
              (open <==> m.slots[Other(m.current)].fade.factor <= 0.0
                         && m.slots[m.current].fade.factor >= 1.0)
  {
    var fadeOutDone := m.slots[Other(m.current)].fade.factor <= 0.0;
    var fadeInDone := m.slots[m.current].fade.factor >= 1.0;
    match gate
    case AsWritten => fadeInDone && fadeInDone
    case TwoSided => fadeOutDone && fadeInDone
  }

  /** Whether a frame in state `m` (after its fade steps) starts the next track. */
  predicate Admits(m: MusicState, gate: Gate)
    requires |m.slots| == MAX_MUSIC_CHANNELS && m.current < MAX_MUSIC_CHANNELS
  {
    GateOpen(m, gate) && |m.queue| > 0
  }

  /** A slot bound to `task` and started from silence: through
      `PlayScheduled(time)` when `scheduled`, through `Play` otherwise. Its
      volume is left for the fade-in. */
  function StartSlot(slot: Slot, task: MusicTask, scheduled: bool, time: real): (r: Slot)
    ensures r.fade == Fade(0.0, 0.0)
    ensures r.source.enabled && r.source.clip == task.clip && r.source.loop == task.loop
    ensures r.source.volume == slot.source.volume
    ensures r.source.isPlaying <==> task.clip != NoClip
    ensures r.source.lastCall == if scheduled then PlayScheduledCall(time) else PlayCall
  {
    var bound := slot.source.(clip := task.clip, loop := task.loop, enabled := true);
    Slot(Fade(0.0, 0.0), if scheduled then bound.PlayScheduled(time) else bound.Play())
  }

  /** Starting the next track. The oldest task leaves the queue, the roles
      of the slots swap, the new current slot takes the task's clip and loop
      flag from silence with its source enabled, playback goes through
      `PlayScheduled(fadeOutTime)` exactly when the other slot's source is
      enabled (through `Play` otherwise), the old current slot is left as it
      was, and music counts as playing. */
  function StartNext(m: MusicState, cfg: Config): (r: MusicState)
    requires ValidConfig(cfg) && Inv(m, cfg) && m.queue != []
    requires m.slots[m.current].fade == Steady
    ensures Inv(r, cfg)
    ensures r.current == Other(m.current)
    ensures r.queue == m.queue[1..] && r.isMusicPlaying
    ensures r.slots[m.current] == m.slots[m.current]
    ensures r.slots[r.current].fade == Fade(0.0, 0.0)
    ensures r.slots[r.current].source.enabled
    ensures r.slots[r.current].source.clip == m.queue[0].clip
    ensures r.slots[r.current].source.loop == m.queue[0].loop
    ensures r.slots[r.current].source.lastCall == PlayScheduledCall(cfg.fadeOutTime)
            <==> m.slots[m.current].source.enabled
    ensures r.slots[r.current].source.lastCall == PlayCall
            <==> !m.slots[m.current].source.enabled
    ensures r.slots[r.current]
            == StartSlot(m.slots[r.current], m.queue[0], m.slots[m.current].source.enabled, cfg.fadeOutTime)
  {
    var cur := Other(m.current);
    assert FadeOutFactor(0.0, cfg.fadeOutTime) == 1.0;
    MusicState(m.slots[cur := StartSlot(m.slots[cur], m.queue[0], m.slots[m.current].source.enabled,
                                        cfg.fadeOutTime)],
               cur, m.queue[1..], true)
  }

  /** The admission step. When the gate is open and a task waits, the next
      track starts (StartNext). Otherwise nothing but the music-playing flag
      can change, and that only to false, when the gate is open, the queue is
      empty and the current source is enabled but silent. */
  function Admit(m: MusicState, cfg: Config, gate: Gate): (r: MusicState)
    requires ValidConfig(cfg) && Inv(m, cfg)
    ensures Inv(r, cfg)
    ensures Admits(m, gate) ==> m.slots[m.current].fade == Steady && r == StartNext(m, cfg)
    ensures !Admits(m, gate) ==>
              && r.slots == m.slots && r.current == m.current && r.queue == m.queue
              && (r.isMusicPlaying != m.isMusicPlaying ==>
                    && !r.isMusicPlaying && GateOpen(m, gate) && m.queue == []
                    && m.slots[m.current].source.enabled
                    && !m.slots[m.current].source.isPlaying)
    ensures GateOpen(m, gate) && m.queue == []
            && m.slots[m.current].source.enabled && !m.slots[m.current].source.isPlaying
            ==> !r.isMusicPlaying
  {
    if !GateOpen(m, gate) then
      m
    else if |m.queue| > 0 then
      StartNext(m, cfg)
    else
      var source := m.slots[m.current].source;
      if !source.isPlaying && source.enabled then m.(isMusicPlaying := false) else m
  }

  /** One frame of UpdateMusicChannel: fade out, fade in, then admission. */
  function MusicStep(m: MusicState, dt: real, cfg: Config, gate: Gate): (r: MusicState)
    requires ValidConfig(cfg) && dt >= 0.0 && Inv(m, cfg)
    ensures Inv(r, cfg)
  {
    Admit(StepCurrent(StepPrevious(m, dt, cfg), dt, cfg), cfg, gate)
  }

  /** The two-sided gate admits a track only when both fades are complete;
      the gate as written looks at the current slot alone. */
  lemma GateMeaning(m: MusicState, cfg: Config)
    requires ValidConfig(cfg) && Inv(m, cfg)
    ensures GateOpen(m, AsWritten) <==> m.slots[m.current].fade == Steady
    ensures GateOpen(m, TwoSided) <==>
              m.slots[m.current].fade == Steady
              && m.slots[Other(m.current)].fade.time >= cfg.fadeOutTime
    ensures GateOpen(m, TwoSided) ==> GateOpen(m, AsWritten)
  {
  }

  /** The gate as written admits the next track while the previous slot is
      still audibly fading out; that track then restarts from silence on the
      slot being faded, cutting the fade short. The two-sided gate waits. */
  lemma AsWrittenCutsFadeOut(m: MusicState, cfg: Config)
    requires ValidConfig(cfg) && Inv(m, cfg)
    requires m.slots[Other(m.current)].fade.factor > 0.0
    requires m.slots[m.current].fade == Steady && m.queue != []
    ensures Admits(m, AsWritten) && !Admits(m, TwoSided)
    ensures Admit(m, cfg, AsWritten).slots[Other(m.current)].fade.factor == 0.0
  {
  }

  /** Two slots the state differs in only by the source volumes. */
  predicate SameButVolume(a: MusicState, b: MusicState) {
    && a.current == b.current && a.queue == b.queue && a.isMusicPlaying == b.isMusicPlaying
    && |a.slots| == |b.slots|
    && forall i :: 0 <= i < |a.slots| ==>
         a.slots[i].fade == b.slots[i].fade
         && a.slots[i].source == b.slots[i].source.(volume := a.slots[i].source.volume)
  }

  /** A zero-length frame changes no fade, no queue, no current index and no
      music-playing flag beyond what one such frame already did: repeating it
      can only refresh source volumes. */
  lemma ZeroTickIdempotent(m: MusicState, cfg: Config, gate: Gate)
    requires ValidConfig(cfg) && Inv(m, cfg)
    ensures SameButVolume(MusicStep(MusicStep(m, 0.0, cfg, gate), 0.0, cfg, gate),
                          MusicStep(m, 0.0, cfg, gate))
  {
  }

  /** A single zero-length frame is not idle: whenever the current slot is
      steady and a task waits, it starts that task. This is why
      ZeroTickIdempotent only speaks of a repeated zero-length frame. */
  lemma ZeroTickCanAdmit(m: MusicState, cfg: Config)
    requires ValidConfig(cfg) && Inv(m, cfg)
    requires m.slots[m.current].fade == Steady && m.queue != []
    ensures MusicStep(m, 0.0, cfg, AsWritten).queue == m.queue[1..]
    ensures MusicStep(m, 0.0, cfg, AsWritten).current == Other(m.current)
  {
    var faded := StepCurrent(StepPrevious(m, 0.0, cfg), 0.0, cfg);
    assert faded.slots[m.current].fade == Steady;
    assert Admits(faded, AsWritten);
  }

  /** The two slots of a crossfade with equal fade lengths: their factors add
      up to full volume, and while the fade-in runs both have faded for the
      same time. */
  predicate Complementary(m: MusicState)
    requires |m.slots| == MAX_MUSIC_CHANNELS && m.current < MAX_MUSIC_CHANNELS
  {
    var previous, current := m.slots[Other(m.current)].fade, m.slots[m.current].fade;
    && previous.factor + current.factor == 1.0
    && (current.factor < 1.0 ==> previous.time == current.time)
  }

  /** Starting a track from a steady slot begins a complementary crossfade. */
  lemma StartNextComplementary(m: MusicState, cfg: Config)
    requires ValidConfig(cfg) && Inv(m, cfg) && m.queue != []
    requires m.slots[m.current].fade == Steady
    ensures Complementary(StartNext(m, cfg))
  {
    assert Other(Other(m.current)) == m.current;
  }

  /** With equal fade lengths, a frame keeps the crossfade complementary: the
      outgoing and incoming volumes always add up to full volume, as long as
      both sources keep playing while the fade-in runs. A track admitted in
      the frame starts a new complementary crossfade. */
  lemma CrossfadeStaysComplementary(m: MusicState, dt: real, cfg: Config, gate: Gate)
    requires ValidConfig(cfg) && dt >= 0.0 && Inv(m, cfg)
    requires cfg.fadeOutTime == cfg.fadeInTime && Complementary(m)
    requires m.slots[m.current].fade.factor < 1.0 ==>
               m.slots[m.current].source.isPlaying && m.slots[Other(m.current)].source.isPlaying
    ensures Complementary(MusicStep(m, dt, cfg, gate))
  {
    var faded := StepCurrent(StepPrevious(m, dt, cfg), dt, cfg);
    var previous, current := m.slots[Other(m.current)].fade, m.slots[m.current].fade;
    if current.factor < 1.0 {
      CrossfadeSumsToOne(previous.time, cfg.fadeInTime);
      CrossfadeSumsToOne(previous.time + dt, cfg.fadeInTime);
      assert previous.factor > 0.0;
    }
    assert Complementary(faded);
    if Admits(faded, gate) {
      StartNextComplementary(faded, cfg);
    }
  }

  /** A steady, playing slot fades out completely in one second of a
      one-second fade-out. */
  lemma FadeOutOneSecond(s: Slot, cfg: Config)
    requires cfg.fadeOutTime == 1.0 && cfg.fadeInTime > 0.0
    requires s.fade == Steady && s.source.isPlaying
    ensures FadingOut(s.fade, cfg)
    ensures var r := FadeOutPrevious(s, 1.0, cfg);
            r.fade.factor == 0.0 && !r.source.isPlaying && !r.source.enabled
  {
    assert FadeOutFactor(0.0, 1.0) == 1.0;
    var r := FadeOutPrevious(s, 1.0, cfg);
    assert r.fade.time == 1.0;
    assert r.fade.factor <= 0.0;
  }

  /** A silent, playing slot fades in completely in one second of a
      one-second fade-in. */
  lemma FadeInOneSecond(s: Slot, cfg: Config)
    requires cfg.fadeInTime == 1.0 && cfg.fadeOutTime > 0.0
    requires s.fade == Fade(0.0, 0.0) && s.source.isPlaying
    ensures FadingIn(s.fade, cfg)
    ensures var r := FadeInCurrent(s, 1.0, cfg);
            r.fade == Steady && r.source.isPlaying && r.source.clip == s.source.clip
  {
    assert FadeInFactor(0.0, 1.0) == 0.0;
    assert FadeInFactor(1.0, 1.0) == 1.0;
  }

  /** The second that completes a one-second crossfade, as a frame: both
      slots start it together, the outgoing one steady and the incoming one
      silent, and the frame admits nothing and keeps music playing. */
  lemma FinishCrossfadeFrame(m: MusicState, cfg: Config)
    requires cfg.fadeOutTime == 1.0 && cfg.fadeInTime == 1.0 && Inv(m, cfg)
    requires m.slots[m.current].fade == Fade(0.0, 0.0) && m.slots[m.current].source.isPlaying
    requires m.queue == [] && m.isMusicPlaying
    ensures MusicStep(m, 1.0, cfg, AsWritten) == StepCurrent(StepPrevious(m, 1.0, cfg), 1.0, cfg)
    ensures MusicStep(m, 1.0, cfg, AsWritten).isMusicPlaying
  {
    var out := StepPrevious(m, 1.0, cfg);
    FadeInOneSecond(out.slots[m.current], cfg);
  }

  /** The slots after the second that completes a one-second crossfade: the
      outgoing one is silent, stopped and disabled, the incoming one steady. */
  lemma FinishCrossfade(m: MusicState, cfg: Config)
    requires cfg.fadeOutTime == 1.0 && cfg.fadeInTime == 1.0 && Inv(m, cfg)
    requires m.slots[Other(m.current)].fade == Steady && m.slots[Other(m.current)].source.isPlaying
    requires m.slots[m.current].fade == Fade(0.0, 0.0) && m.slots[m.current].source.isPlaying
    requires m.queue == [] && m.isMusicPlaying
    ensures var done := MusicStep(m, 1.0, cfg, AsWritten);
            && done.current == m.current
            && done.slots[Other(m.current)].fade.factor == 0.0
            && !done.slots[Other(m.current)].source.isPlaying
            && !done.slots[Other(m.current)].source.enabled
            && done.slots[m.current].fade == Steady
            && done.slots[m.current].source.clip == m.slots[m.current].source.clip
            && done.isMusicPlaying
  {
    FinishCrossfadeFrame(m, cfg);
    FadeOutOneSecond(m.slots[Other(m.current)], cfg);
    FadeInOneSecond(m.slots[m.current], cfg);
  }

  /** The crossfade from one track to the next with both fades one second
      long. Track one plays steadily on the current slot and track two waits.
      The next frame, of any length, starts track two on the other slot. After
      a further second, with both sources playing throughout, track one's slot
      is silent, stopped and disabled, track two's slot is steady, and music
      counts as playing. */
  lemma SimpleCrossfade(m: MusicState, next: MusicTask, dt: real, cfg: Config)
    requires cfg.fadeOutTime == 1.0 && cfg.fadeInTime == 1.0 && dt >= 0.0 && Inv(m, cfg)
    requires m.slots[m.current].fade == Steady && m.slots[m.current].source.isPlaying
    requires m.queue == [next] && next.clip != NoClip
    ensures var started := MusicStep(m, dt, cfg, AsWritten);
            && started.current == Other(m.current) && started.queue == []
            && started.slots[started.current].source.clip == next.clip
    ensures var done := MusicStep(MusicStep(m, dt, cfg, AsWritten), 1.0, cfg, AsWritten);
            && done.slots[m.current].fade.factor == 0.0
            && !done.slots[m.current].source.isPlaying && !done.slots[m.current].source.enabled
            && done.slots[Other(m.current)].fade == Steady
            && done.slots[Other(m.current)].source.clip == next.clip
            && done.isMusicPlaying
  {
    var faded := StepCurrent(StepPrevious(m, dt, cfg), dt, cfg);
    assert faded.slots[m.current] == m.slots[m.current];
    assert Admits(faded, AsWritten);
    var started := StartNext(faded, cfg);
    assert MusicStep(m, dt, cfg, AsWritten) == started;
    assert Other(started.current) == m.current;
    FinishCrossfade(started, cfg);
  }

  /** What the host does between frames, as far as music is concerned. */
  datatype MusicEvent = Tick(dt: real) | Request(task: MusicTask)

  predicate Forward(events: seq<MusicEvent>) {
    forall i :: 0 <= i < |events| && events[i].Tick? ==> events[i].dt >= 0.0
  }

  function Apply(m: MusicState, e: MusicEvent, cfg: Config, gate: Gate): (r: MusicState)
    requires ValidConfig(cfg) && Inv(m, cfg) && (e.Tick? ==> e.dt >= 0.0)
    ensures Inv(r, cfg)
  {
    match e
    case Tick(dt) => MusicStep(m, dt, cfg, gate)
    case Request(task) => m.(queue := Offer(m.queue, task))
  }

  /** The state after a run of PlayMusic calls and frames. */
  function Run(m: MusicState, events: seq<MusicEvent>, cfg: Config, gate: Gate): (r: MusicState)
    requires ValidConfig(cfg) && Inv(m, cfg) && Forward(events)
    ensures Inv(r, cfg)
    decreases |events|
  {
    if events == [] then m
    else Run(Apply(m, events[0], cfg, gate), events[1..], cfg, gate)
  }

  /** Both slots untouched since Awake and no music playing. */
  predicate Untouched(m: MusicState) {
    m.slots == Initial().slots && m.current == 0 && !m.isMusicPlaying
  }

  /** With the two-sided gate no track ever starts: slot 1 begins as the
      previous slot at full factor and silent, so its fade-out never advances
      and the fade-out test never passes, whatever is requested and however
      long the frames are. */
  lemma {:induction false} TwoSidedGateNeverStarts(m: MusicState, events: seq<MusicEvent>, cfg: Config)
    requires ValidConfig(cfg) && Inv(m, cfg) && Forward(events) && Untouched(m)
    ensures Untouched(Run(m, events, cfg, TwoSided))
    ensures |Run(m, events, cfg, TwoSided).queue| >= |m.queue|
    decreases |events|
  {
    if events != [] {
      var next := Apply(m, events[0], cfg, TwoSided);
      assert Untouched(next) && |next.queue| >= |m.queue| by {
        if events[0].Tick? {
          var dt := events[0].dt;
          assert StepPrevious(m, dt, cfg) == m;
          assert StepCurrent(m, dt, cfg) == m;
          assert !GateOpen(m, TwoSided);
        }
      }
      ForwardTail(events);
      TwoSidedGateNeverStarts(next, events[1..], cfg);
    }
  }

  /** The current slot is part-way up its fade-in while its source is silent:
      the state a request for a null clip starts, or that a non-looping clip
      shorter than the fade-in leaves when it ends. */
  predicate StalledFadeIn(m: MusicState)
    requires |m.slots| == MAX_MUSIC_CHANNELS && m.current < MAX_MUSIC_CHANNELS
  {
    m.slots[m.current].fade.factor < 1.0 && !m.slots[m.current].source.isPlaying
  }

  /** Starting a task whose clip is null leaves the fade-in stalled, with
      music counted as playing. */
  lemma NullClipStalls(m: MusicState, cfg: Config)
    requires ValidConfig(cfg) && Inv(m, cfg) && m.queue != []
    requires m.slots[m.current].fade == Steady && m.queue[0].clip == NoClip
    ensures var r := StartNext(m, cfg); StalledFadeIn(r) && r.isMusicPlaying
  {
  }

  /** A stalled fade-in blocks the queue: the fade-in skips a silent source,
      so the current slot never reaches full factor, neither gate opens, no
      task is admitted and the music-playing flag is never cleared. Only the
      previous slot goes on fading out. */
  lemma StalledFadeInBlocks(m: MusicState, dt: real, cfg: Config, gate: Gate)
    requires ValidConfig(cfg) && dt >= 0.0 && Inv(m, cfg) && StalledFadeIn(m)
    ensures var r := MusicStep(m, dt, cfg, gate);
            && r.current == m.current && r.queue == m.queue
            && r.isMusicPlaying == m.isMusicPlaying
            && r.slots[m.current] == m.slots[m.current]
  {
    var faded := StepCurrent(StepPrevious(m, dt, cfg), dt, cfg);
    assert faded.slots[m.current] == m.slots[m.current];
    assert !GateOpen(faded, gate);
  }

  /** Once the fade-in stalls it stays stalled whatever follows: every later
      request only joins the queue, no track starts and the music-playing
      flag keeps its value. */
  lemma {:induction false} StalledFadeInStaysStuck(m: MusicState, events: seq<MusicEvent>, cfg: Config, gate: Gate)
    requires ValidConfig(cfg) && Inv(m, cfg) && Forward(events) && StalledFadeIn(m)
    ensures var r := Run(m, events, cfg, gate);
            && r.current == m.current && r.slots[m.current] == m.slots[m.current]
            && r.isMusicPlaying == m.isMusicPlaying && m.queue <= r.queue
    decreases |events|
  {
    if events != [] {
      var next := Apply(m, events[0], cfg, gate);
      if events[0].Tick? {
        StalledFadeInBlocks(m, events[0].dt, cfg, gate);
      }
      ForwardTail(events);
      StalledFadeInStaysStuck(next, events[1..], cfg, gate);
    }
  }

  lemma ForwardTail(events: seq<MusicEvent>)
    requires Forward(events) && events != []
    ensures Forward(events[1..])
  {
    forall i | 0 <= i < |events[1..]| && events[1..][i].Tick?
      ensures events[1..][i].dt >= 0.0
    {
      assert events[1..][i] == events[i + 1];
    }
  }

  /** The very first track starts through `PlayScheduled(fadeOutTime)`, not
      `Play`: slot 0, the other slot, holds a freshly added source, which is
      enabled although nothing is fading out. The argument is an absolute
      time on the engine's audio clock, whose effect is not modelled. */
  lemma FirstTrackIsScheduled(task: MusicTask, dt: real, cfg: Config)
    requires ValidConfig(cfg) && dt >= 0.0
    ensures Inv(Initial(), cfg)
    ensures Run(Initial(), [Request(task), Tick(dt)], cfg, AsWritten).slots[1].source.lastCall
            == PlayScheduledCall(cfg.fadeOutTime)
  {
    InitialInv(cfg);
    var queued := Apply(Initial(), Request(task), cfg, AsWritten);
    var faded := StepCurrent(StepPrevious(queued, dt, cfg), dt, cfg);
    assert faded.slots[0].fade == Steady && faded.slots[0].source.enabled;
    assert Admits(faded, AsWritten);
    var events := [Request(task), Tick(dt)];
    assert events[1..] == [Tick(dt)] && events[1..][1..] == [];
    assert Run(Initial(), events, cfg, AsWritten) == Run(queued, [Tick(dt)], cfg, AsWritten);
    assert Run(queued, [Tick(dt)], cfg, AsWritten) == MusicStep(queued, dt, cfg, AsWritten);
  }

  /** With the gate as written, the first request starts on the first frame:
      slot 1 becomes current and plays the requested clip. */
  lemma AsWrittenStartsFirstTrack(task: MusicTask, dt: real, cfg: Config)
    requires ValidConfig(cfg) && dt >= 0.0
    ensures Inv(Initial(), cfg)
    ensures var m := Run(Initial(), [Request(task), Tick(dt)], cfg, AsWritten);
            && m.current == 1 && m.isMusicPlaying && m.queue == []
            && m.slots[1].source.clip == task.clip
            && m.slots[1].fade == Fade(0.0, 0.0)
  {
    InitialInv(cfg);
    var queued := Apply(Initial(), Request(task), cfg, AsWritten);
    var faded := StepCurrent(StepPrevious(queued, dt, cfg), dt, cfg);
    assert faded.slots[0].fade == Steady;
    assert Admits(faded, AsWritten);
    var events := [Request(task), Tick(dt)];
    assert events[1..] == [Tick(dt)] && events[1..][1..] == [];
    assert Run(Initial(), events, cfg, AsWritten) == Run(queued, [Tick(dt)], cfg, AsWritten);
    assert Run(queued, [Tick(dt)], cfg, AsWritten) == MusicStep(queued, dt, cfg, AsWritten);
  }
}
