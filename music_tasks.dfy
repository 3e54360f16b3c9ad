/** Pending music requests and the bounded FIFO that holds them. */
module MusicTasks {
  import opened AudioDevice

  /** A request made by PlayMusic; immutable once made. */
  datatype MusicTask = MusicTask(loop: bool, fadeIn: bool, clip: Clip)

  /** `_MaxMusicTaskQueueLenth`: how many requests may wait at once. */
  const MAX_MUSIC_TASK_QUEUE_LENGTH: nat := 4

  function Min(a: nat, b: nat): nat {
    if a <= b then a else b
  }

  /** PlayMusic's effect on the queue: the task joins at the tail while there
      is room, and is dropped silently otherwise. */
  function Offer(queue: seq<MusicTask>, task: MusicTask): (r: seq<MusicTask>)
    ensures |queue| < MAX_MUSIC_TASK_QUEUE_LENGTH ==> r == queue + [task]
    ensures |queue| >= MAX_MUSIC_TASK_QUEUE_LENGTH ==> r == queue
    ensures |r| == Min(|queue| + 1, MAX_MUSIC_TASK_QUEUE_LENGTH) || r == queue
  {
    if |queue| < MAX_MUSIC_TASK_QUEUE_LENGTH then queue + [task] else queue
  }

  /** The queue after a run of PlayMusic calls with no tick in between. */
  function OfferAll(queue: seq<MusicTask>, tasks: seq<MusicTask>): seq<MusicTask>
    decreases |tasks|
  {
    if tasks == [] then queue else OfferAll(Offer(queue, tasks[0]), tasks[1..])
  }

  /** A run of requests keeps the oldest ones that fit, in the order they
      were made; every later one is dropped. */
  lemma {:induction false} OfferAllKeepsOldest(queue: seq<MusicTask>, tasks: seq<MusicTask>)
    requires |queue| <= MAX_MUSIC_TASK_QUEUE_LENGTH
    ensures OfferAll(queue, tasks)
         == (queue + tasks)[..Min(|queue| + |tasks|, MAX_MUSIC_TASK_QUEUE_LENGTH)]
    decreases |tasks|
  {
    if tasks != [] {
      var next := Offer(queue, tasks[0]);
      OfferAllKeepsOldest(next, tasks[1..]);
      if |queue| < MAX_MUSIC_TASK_QUEUE_LENGTH {
        assert next + tasks[1..] == queue + tasks;
      } else {
        assert (queue + tasks)[..MAX_MUSIC_TASK_QUEUE_LENGTH] == queue;
        assert (queue + tasks[1..])[..MAX_MUSIC_TASK_QUEUE_LENGTH] == queue;
      }
    }
  }

  /** Six requests before any tick: exactly the first four are queued, in
      order, and the last two are dropped. */
  lemma QueueOverflow(t1: MusicTask, t2: MusicTask, t3: MusicTask,
                      t4: MusicTask, t5: MusicTask, t6: MusicTask)
    ensures OfferAll([], [t1, t2, t3, t4, t5, t6]) == [t1, t2, t3, t4]
  {
    OfferAllKeepsOldest([], [t1, t2, t3, t4, t5, t6]);
  }
}
