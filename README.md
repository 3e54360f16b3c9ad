# SoundManager — a verified Dafny model

This project models the Unity `SoundManager` component of the repository
(`Assets/Framework/Sound/SoundManager.cs`). It models the three parts of that
component, which share one fixed set of `AudioSource` channels:

- **The channel allocator.** `Awake` seeds a pool of `maxSFX + 2` fresh
  channels and moves the first two into the music slots. `PlaySFX` takes the
  front of the pool through `GetChannel` and moves it to the working set.
  `UpdateFSXChannel` walks the working set with an index. It removes the
  channels that have stopped, disables them and appends them to the pool.
- **The music task queue.** `PlayMusic` appends a request to a FIFO of
  capacity 4. When the queue is full, the request is dropped silently.
- **The two-slot crossfade.** Each frame, `UpdateMusicChannel` advances the
  fade-out of the previous slot, then the fade-in of the current slot. It then
  opens a gate. Through that gate, the oldest request starts on the other slot
  and the two slots swap roles.

The model is imperative, in the shape of the source:

- `Sound.SoundManager` is a class. Its pool, working set and task queue are
  `seq` fields that its methods reassign.
- `Sound.MusicChannelState` is a class whose fade fields are updated in place.
- `AudioDevice.AudioSource` is a class that stands for Unity's component.
- The removal loop of `UpdateFSXChannel` is a `while` loop with invariants.

Each method is proved against a value-level specification:

- `ChannelLists.Kept` and `ChannelLists.Reclaimed` give the result of the
  effect-channel reclaim.
- `MusicTasks.Offer` gives the queue after a request.
- `Crossfade.MusicStep` gives one frame of music, built from the fade formulas
  in `Fades`.

The properties the source promises are proved about those specifications as
lemmas, and as the invariant `Sound.SoundManager.Valid` that every method
keeps. That invariant has two parts:

- `Owned`: every channel Awake created is held exactly once, by the pool, the
  working set or a music slot. The pool and the working set together always
  hold `maxSFX` channels.
- `MusicValid`: there are two slots and the current index is one of them. The
  queue holds at most 4 requests. The previous slot's factor follows the
  fade-out curve, and the current slot is steady or part-way up the fade-in
  curve.

`AudioSource.isPlaying` is what the audio device reports. The engine may clear
it between calls, when a clip runs out. The model therefore never derives it
from time: it reads it as a field that any frame may find changed.

### The admission gate

The gate at `SoundManager.cs:186` reads `fadeInDone && fadeInDone`. The
variable `fadeOutDone` is computed at :183 and never used. The model keeps
both forms:

- `Crossfade.Gate.AsWritten` is the gate the source has.
  `Sound.SoundManager.UpdateMusicChannel` and `Tick` use it.
- `Crossfade.Gate.TwoSided` is `fadeOutDone && fadeInDone`.
  `Sound.SoundManager.UpdateMusicChannelTwoSided` uses it.

Three lemmas compare them:

- `Crossfade.GateMeaning`: the gate as written opens exactly when the current
  slot is steady. The two-sided gate also waits for the full fade-out time of
  the previous slot.
- `Crossfade.AsWrittenCutsFadeOut`: while the previous slot is still audibly
  fading out, the gate as written admits the next track on that very slot.
  The new track restarts it from silence, so the fade-out is cut short.
- `Crossfade.TwoSidedGateNeverStarts`: the two-sided gate would never start a
  track at all from the state Awake leaves. There, slot 1 is the previous slot
  at full factor with a silent source, so its fade-out never advances.

The gate as written is therefore the one that makes music play
(`Crossfade.AsWrittenStartsFirstTrack`), and it is what the model uses. The
two-sided form is kept only as the named alternative.

### Other consequences of the code as written

- `Crossfade.ZeroTickCanAdmit`: a frame of length zero is not idle. If the
  current slot is steady and a task waits, that frame starts the task. So
  `Crossfade.ZeroTickIdempotent` speaks only of a second zero-length frame.
- `Crossfade.FirstTrackIsScheduled`: the very first track starts through
  `PlayScheduled(fadeOutTime)` instead of `Play`, because the other slot holds
  a freshly added source, and a fresh source is enabled even though it never
  played (:201-204). The argument is an absolute time on the engine's audio
  clock, not a delay; what the engine does with it is left out.
- `Crossfade.StalledFadeInStaysStuck`: a request that never sounds blocks every
  later request. The fade-in (:171) skips a current slot whose source is not
  playing. So once that slot is below full factor and silent, the gate (:186)
  never opens again, queued tasks wait forever, and `IsMusicPlaying` keeps the
  value true that the start set (:210), because it is cleared only inside the
  gate (:214-217). The design describes the gate as passing once the fade-in
  is complete or the channel is idle, and the flag as telling whether the
  current slot is sounding; the source does neither in this state.
  `Crossfade.NullClipStalls` shows that a `PlayMusic` request with a null clip
  leads there. A non-looping clip shorter than the fade-in leads there too,
  when the engine reports it stopped.
- `Crossfade.CrossfadeStaysComplementary`: with equal fade lengths and both
  sources playing, the outgoing and incoming factors add up to 1 in every
  frame of a crossfade. `Crossfade.SimpleCrossfade` follows one crossfade of
  one second from start to end.

## Model

| member | source | states |
|---|---|---|
| Sound.SoundManager.constructor | Assets/Framework/Sound/SoundManager.cs:46-69 | Awake: `maxSFX + 2` fresh channels are created. The first two, in creation order, become the music slots and the rest form the pool. The working set is empty, both slots are steady (factor 1, time 0), the current slot is 0, no music plays, and the ownership and crossfade invariants hold. |
| Sound.SoundManager.SeedPool | Assets/Framework/Sound/SoundManager.cs:58-61 | The seeding loop yields exactly `count` distinct fresh channels, each in the state of a newly added component. |
| Sound.SoundManager.TakeMusicSlots | Assets/Framework/Sound/SoundManager.cs:63-68 | The first two channels leave the front of the pool, in order. Each is wrapped in its own new slot at factor 1 and time 0, and the rest of the pool is the old pool from index 2. |
| Sound.MusicChannelState.constructor | Assets/Framework/Sound/SoundManager.cs:67 | A new slot holds the given channel at factor 1 and time 0. |
| Sound.SoundManager.GetChannel | Assets/Framework/Sound/SoundManager.cs:104-113 | On a non-empty pool, it returns the old front and leaves the pool from index 1. On an empty pool, it returns null and the pool stays empty. |
| Sound.SoundManager.PlaySFX | Assets/Framework/Sound/SoundManager.cs:72-83 | With a free channel, the old front of the pool is appended to the working set and the pool loses its front. That channel becomes non-looping and enabled, and it plays the clip once. With no free channel, nothing changes. The music state is untouched, and ownership and the crossfade invariant are preserved. |
| Sound.SoundManager.StartEffect | Assets/Framework/Sound/SoundManager.cs:79-81 | The channel's new state is its old state with `loop` false and `enabled` true, followed by the one-shot call. The music state is unchanged. |
| Sound.SoundManager.PlayMusic | Assets/Framework/Sound/SoundManager.cs:85-102 | The queue becomes `Offer(old queue, task)`: the task is appended while fewer than 4 wait, and the queue is unchanged otherwise. Nothing else in the music state changes. The queue bound is kept as part of the invariant. |
| MusicTasks.Offer | Assets/Framework/Sound/SoundManager.cs:94-101 | Below capacity the task joins at the tail. At capacity the queue is returned unchanged. |
| MusicTasks.OfferAllKeepsOldest | Assets/Framework/Sound/SoundManager.cs:94-101 | A run of requests keeps the oldest ones that fit, in request order, and drops every later one: the queue is `(queue + tasks)` cut to at most 4. |
| MusicTasks.QueueOverflow | Assets/Framework/Sound/SoundManager.cs:31 | Six requests with no frame in between leave exactly the first four queued, in order. |
| Sound.SoundManager.UpdateFSXChannel | Assets/Framework/Sound/SoundManager.cs:129-145 | The working set becomes the channels that were playing, in their old order. The pool gains the stopped ones at its tail, in working-set order. Every remaining working channel is playing. A working channel ends enabled iff it was enabled and playing. Ownership and conservation are preserved, and the music state is unchanged. |
| Sound.SoundManager.ReclaimStopped | Assets/Framework/Sound/SoundManager.cs:131-144 | The in-place index loop computes exactly `Kept` for the working set and `old pool + Reclaimed` for the pool. Every stopped channel ends disabled. |
| Sound.SoundManager.ReclaimNext | Assets/Framework/Sound/SoundManager.cs:133-143 | One iteration keeps the loop invariant. A stopped channel is removed at index `i`, disabled and appended to the pool, and the index stays. A playing channel keeps its place, and the index advances past it. |
| ChannelLists.KeptReclaimedPartition | Assets/Framework/Sound/SoundManager.cs:136-138 | The kept and reclaimed channels together are exactly the old working set, as a multiset, and their lengths add up to its length. Nothing is lost or duplicated. |
| ChannelLists.KeptIffPlaying | Assets/Framework/Sound/SoundManager.cs:133 | A channel stays in the working set iff it was there and playing. It is reclaimed iff it was there and not playing. |
| ChannelLists.KeptIsSubsequence | Assets/Framework/Sound/SoundManager.cs:140-143 | The surviving channels keep their relative order: the kept list is a subsequence of the old working set. |
| ChannelLists.ReclaimKeeps | Assets/Framework/Sound/SoundManager.cs:136-138 | Moving the stopped channels to the pool conserves the multiset and the total count of pool plus working set. |
| ChannelLists.MoveFront | Assets/Framework/Sound/SoundManager.cs:74-77 | Moving the pool's front to the working set conserves the multiset of pool plus working set. |
| Sound.SoundManager.Ownership | Assets/Framework/Sound/SoundManager.cs:58-68 | Every created channel sits in exactly one place: the pool, the working set or a music slot. The two music slots use different channels, and neither is ever in the pool or the working set. |
| Sound.SoundManager.FrontNotMusic | Assets/Framework/Sound/SoundManager.cs:108 | The channel PlaySFX takes is never a music channel. |
| Sound.SoundManager.WorkingNotMusic | Assets/Framework/Sound/SoundManager.cs:138 | No music channel is in the working set, so the reclaim loop never returns a music channel to the pool. |
| Sound.SoundManager.MusicSourcesDistinct | Assets/Framework/Sound/SoundManager.cs:63-68 | The two music slots hold different channels. |
| Fades.Clamp01 | Assets/Framework/Sound/SoundManager.cs:161 | The result lies in [0,1] and equals the input on [0,1]. |
| Fades.Clamp01Nearest | Assets/Framework/Sound/SoundManager.cs:161 | The clamp is the point of [0,1] nearest to the input. |
| Fades.FadeOutFactor | Assets/Framework/Sound/SoundManager.cs:161 | `1 - clamp01(time/fadeOutTime)` lies in [0,1]. It is 0 iff the fade-out time has elapsed, and 1 iff no time has passed. |
| Fades.FadeInFactor | Assets/Framework/Sound/SoundManager.cs:175 | `clamp01(time/fadeInTime)` lies in [0,1]. It is 1 iff the fade-in time has elapsed, and 0 iff no time has passed. |
| Fades.FadeOutNonIncreasing | Assets/Framework/Sound/SoundManager.cs:160-161 | As the fade time grows, the fade-out factor never rises. |
| Fades.FadeInNonDecreasing | Assets/Framework/Sound/SoundManager.cs:174-175 | As the fade time grows, the fade-in factor never falls. |
| Crossfade.FadeOutPrevious | Assets/Framework/Sound/SoundManager.cs:158-168 | The previous slot moves only while its factor is > 0 and its source plays. Its fade time then grows by `dt`, and its factor follows the fade-out curve, stays in [0,1] and never rises. The volume is `musicVol * factor`. At factor 0, the source is stopped and disabled and keeps its clip and loop flag. Above 0, only the volume changes. Otherwise the slot is unchanged. |
| Crossfade.FadeInCurrent | Assets/Framework/Sound/SoundManager.cs:171-181 | The current slot moves only while its factor is < 1 and its source plays. Its factor then follows the fade-in curve, stays in [0,1] and never falls, and the volume is `musicVol * factor`. On reaching 1, the fade time resets to 0 and the slot is steady. Otherwise the slot is unchanged. |
| Crossfade.StepPrevious | Assets/Framework/Sound/SoundManager.cs:155-168 | The fade-out applies to slot `(current + 1) % 2` only. It leaves the current slot, the queue and the flag alone, and it keeps the crossfade invariant. |
| Crossfade.StepCurrent | Assets/Framework/Sound/SoundManager.cs:171-181 | The fade-in applies to the current slot only. It leaves the other slot, the queue and the flag alone, and it keeps the crossfade invariant. |
| Crossfade.StartSlot | Assets/Framework/Sound/SoundManager.cs:194-208 | The started slot has factor 0 and time 0, and its source is enabled with the task's clip and loop flag. The volume is left as it was. It plays iff the clip is not null, through `PlayScheduled(time)` when scheduled and through `Play` otherwise. |
| Crossfade.StartNext | Assets/Framework/Sound/SoundManager.cs:188-210 | The oldest task leaves the queue, and the current index toggles and stays in {0,1}. The old current slot is untouched. The new current slot is exactly `StartSlot` of its old state: factor 0 and time 0, an enabled source, the task's clip and loop flag, and its old volume. It plays iff the clip is not null. `PlayScheduled(fadeOutTime)` is used iff the other slot's source is enabled, and `Play` iff it is not. Music counts as playing, and the invariant holds. |
| Crossfade.GateOpen | Assets/Framework/Sound/SoundManager.cs:183-186 | The gate as written is open iff the current slot's factor is at least 1; the previous slot's factor plays no part. The two-sided gate also needs the previous slot's factor at or below 0. |
| Crossfade.Admit | Assets/Framework/Sound/SoundManager.cs:183-219 | When the gate is open and a task waits, the result is StartNext, and the current slot was steady. Otherwise slots, index and queue are unchanged. The playing flag is cleared iff it would change: when the gate is open, the queue is empty and the current source is enabled but not playing, the flag is false afterwards; in every other non-admitting case it keeps its value. |
| Crossfade.MusicStep | Assets/Framework/Sound/SoundManager.cs:152-220 | One frame (fade-out, fade-in, admission) keeps the crossfade invariant: two slots, the index in {0,1}, a queue of at most 4, and both fades on their curves. |
| Crossfade.GateMeaning | Assets/Framework/Sound/SoundManager.cs:183-186 | The gate as written opens iff the current slot is steady. The two-sided gate opens iff that holds and the previous slot has faded for its full fade-out time. The two-sided gate implies the written one. |
| Crossfade.AsWrittenCutsFadeOut | Assets/Framework/Sound/SoundManager.cs:186-198 | When a task waits, the current slot is steady and the previous slot is still audible, the gate as written admits while the two-sided gate does not. The admitted task resets the still-fading slot's factor to 0. |
| Crossfade.ZeroTickIdempotent | Assets/Framework/Sound/SoundManager.cs:152-220 | Repeating a zero-length frame changes nothing but source volumes: fades, index, queue and flag stay as the first such frame left them. |
| Crossfade.ZeroTickCanAdmit | Assets/Framework/Sound/SoundManager.cs:183-191 | A single zero-length frame is not idle: when the current slot is steady and a task waits, it dequeues that task and swaps the slots. |
| Crossfade.InitialInv | Assets/Framework/Sound/SoundManager.cs:63-68 | The state Awake leaves satisfies the crossfade invariant. |
| Crossfade.TwoSidedGateNeverStarts | Assets/Framework/Sound/SoundManager.cs:183-186 | From the state Awake leaves, under the two-sided gate, no run of requests and non-negative frames ever starts a track. The slots stay as Awake left them, music never plays, and the queue never shrinks. |
| Crossfade.AsWrittenStartsFirstTrack | Assets/Framework/Sound/SoundManager.cs:186-210 | From the state Awake leaves, one request and one frame under the gate as written start that request on slot 1 with factor 0. Music is then playing and the queue is empty. |
| Crossfade.NullClipStalls | Assets/Framework/Sound/SoundManager.cs:194-210 | Starting a task whose clip is null leaves the new current slot below full factor with a silent source, and music counts as playing. |
| Crossfade.StalledFadeInBlocks | Assets/Framework/Sound/SoundManager.cs:171-217 | When the current slot is below full factor and its source is silent, a frame under either gate keeps the current slot, the index, the queue and the music-playing flag unchanged. |
| Crossfade.StalledFadeInStaysStuck | Assets/Framework/Sound/SoundManager.cs:171-217 | From a stalled fade-in, any run of requests and frames keeps the current slot, the index and the music-playing flag. The old queue stays a prefix of the queue: nothing is ever dequeued. |
| Crossfade.FirstTrackIsScheduled | Assets/Framework/Sound/SoundManager.cs:201-204 | The first track is started with `PlayScheduled(fadeOutTime)`, not `Play`, because slot 0's freshly added source is enabled although nothing is fading out. |
| Crossfade.StartNextComplementary | Assets/Framework/Sound/SoundManager.cs:194-199 | Starting a track from a steady slot begins a crossfade whose two factors add up to 1, with equal fade times. |
| Crossfade.CrossfadeStaysComplementary | Assets/Framework/Sound/SoundManager.cs:158-181 | With equal fade lengths, a frame keeps the outgoing and incoming factors adding up to 1 while both sources play, including the frame in which the fade-in completes and the fade-out stops. A track admitted in the frame starts a new such crossfade. |
| Crossfade.SimpleCrossfade | Assets/Framework/Sound/SoundManager.cs:152-220 | With both fades one second long, one track steady on the current slot and another waiting: the next frame starts the waiting track on the other slot. After one more second with both playing, the first slot is at factor 0, stopped and disabled, the second is steady with the new clip, and music counts as playing. |
| Crossfade.FadeOutOneSecond | Assets/Framework/Sound/SoundManager.cs:158-167 | A steady, playing slot on a one-second fade-out reaches factor 0 after one second and is stopped and disabled. |
| Crossfade.FadeInOneSecond | Assets/Framework/Sound/SoundManager.cs:171-180 | A silent, playing slot on a one-second fade-in is steady after one second, still playing its clip. |
| Crossfade.FinishCrossfadeFrame | Assets/Framework/Sound/SoundManager.cs:183-218 | In the second that completes a one-second crossfade with an empty queue, the gate admits nothing, so the frame is just the two fade steps, and music keeps counting as playing. |
| Crossfade.FinishCrossfade | Assets/Framework/Sound/SoundManager.cs:152-220 | After that second, the outgoing slot is at factor 0, stopped and disabled. The incoming slot is steady with its clip, the current index is unchanged, and music counts as playing. |
| Crossfade.Apply | Assets/Framework/Sound/SoundManager.cs:85-102 | A request or a frame keeps the crossfade invariant. |
| Crossfade.Run | Assets/Framework/Sound/SoundManager.cs:123-127 | Any run of requests and non-negative frames keeps the crossfade invariant. |
| Sound.MusicChannelState.FadeOut | Assets/Framework/Sound/SoundManager.cs:158-168 | The in-place update of the slot and its source is exactly `FadeOutPrevious` on the old snapshot. |
| Sound.MusicChannelState.FadeIn | Assets/Framework/Sound/SoundManager.cs:171-181 | The in-place update of the slot and its source is exactly `FadeInCurrent` on the old snapshot. |
| Sound.MusicChannelState.Start | Assets/Framework/Sound/SoundManager.cs:195-208 | The in-place update of the slot and its source is exactly `StartSlot` on the old snapshot. |
| Sound.SoundManager.FadeOutPreviousChannel | Assets/Framework/Sound/SoundManager.cs:155-168 | The music state becomes `StepPrevious` of the old one, and the invariant is kept. |
| Sound.SoundManager.FadeInCurrentChannel | Assets/Framework/Sound/SoundManager.cs:171-181 | The music state becomes `StepCurrent` of the old one, and the invariant is kept. |
| Sound.SoundManager.AdmitNextTask | Assets/Framework/Sound/SoundManager.cs:183-219 | The music state becomes `Admit` of the old one under the chosen gate, and the invariant is kept. |
| Sound.SoundManager.StartNextTask | Assets/Framework/Sound/SoundManager.cs:188-210 | The music state becomes `StartNext` of the old one, and the invariant is kept. |
| Sound.SoundManager.UpdateMusicChannel | Assets/Framework/Sound/SoundManager.cs:152-220 | The music state becomes `MusicStep` of the old one under the gate as written. The effect channels are untouched, and ownership and the invariant are kept. |
| Sound.SoundManager.UpdateMusicChannelTwoSided | Assets/Framework/Sound/SoundManager.cs:183-186 | The same frame with the gate `fadeOutDone && fadeInDone`: the music state becomes `MusicStep` under the two-sided gate. |
| Sound.SoundManager.Tick | Assets/Framework/Sound/SoundManager.cs:123-127 | Update: the working set becomes `Kept` and the pool gains `Reclaimed`, exactly as in UpdateFSXChannel. Every remaining working channel is playing, and a previously working channel ends enabled iff it was enabled and playing. The music state then advances by `MusicStep` under the gate as written. Ownership and the invariant are kept. |
| Sound.SoundManager.IsMusicPlaying | Assets/Framework/Sound/SoundManager.cs:148-150 | Returns the flag that the music steps set and clear, without changing anything. |

## Left out

- Unity object plumbing is not modelled: creating the `SoundChannelPool` game object and parenting it (SoundManager.cs:48-52). Awake always starts from an empty pool and fresh channels.
- The `GetComponentsInChildren` branch (:55) is not modelled. It fills the pool from a serialized object whose existing channels the model cannot see.
- Audio rendering and scheduling are not modelled. `PlayOneShot`, `Play`, `PlayScheduled` and `Stop` record the call made and the flags the device then reports. What the `PlayScheduled` time argument means to the engine (:203) is not modelled.
- `isPlaying` is not derived from time. It is a field the engine may change between frames, and the model reads it where the source does.
- `Time.unscaledDeltaTime` (:154) is not modelled; its value is the `dt` parameter of `Tick`, which must be non-negative.
- `float` rounding and `Mathf.Clamp01` are not modelled; the fade arithmetic is exact `real` arithmetic with a local `Clamp01`.
- The fade times (:14-15) are constructor parameters that must be positive. The source sets both to 1 and divides by them.
- `_SFXVol` (:43) is not modelled, because the source never reads it.
- The `FadeIn` flag of a request (:27, :91) is stored in `MusicTask` and never read, as in the source.
- `Start` (:117-120) is not modelled, because it is empty.
- The `[SerializeField]` attributes are editor plumbing and are not modelled. `_MaxSFXChannelPoolSize` (default 20) is a constructor parameter of type `nat`.
- A negative `_MaxSFXChannelPoolSize` is not modelled. The source makes it an `int`, and a value below 0 leaves fewer than two channels in the pool, so Awake fails at :65. The `nat` parameter leaves that failure out.
- `_MusicVol` (:42) is fixed at 1 in the source. The model makes it a constructor parameter `musicVol` that must lie in [0,1], the range in which Unity keeps `AudioSource.volume` unclamped, so that `volume == musicVol * factor` holds as stated.
- There is no concurrency to model: Unity calls the component on one thread.
- The inline blocks of PlaySFX, UpdateFSXChannel and UpdateMusicChannel are split into their own methods (StartEffect, ReclaimStopped, ReclaimNext, FadeOutPreviousChannel, FadeInCurrentChannel, AdmitNextTask, StartNextTask, MusicChannelState.Start). The statements and their order are the source's.
- Sound.SoundManager.IsMusicPlaying: its contract only returns the field, as the getter does. When the field is set and cleared is stated by Crossfade.StartNext and Crossfade.Admit. The field does not mean that the current slot is sounding: after a start whose source never plays, it stays true for good (Crossfade.NullClipStalls, Crossfade.StalledFadeInStaysStuck). The model follows the source here, not the design's description of the flag.
