/** The relay controller: one bounded job queue per channel, fed by
    detection events, and one consumer per channel that drains its queue and
    switches the channel's relay. Threads, locks and condition variables are
    not modelled: a consumer pass is one sequential run of the consumer's
    outer loop, and the clock is a parameter that advances by exactly what
    the consumer sleeps. Times are in seconds. */
module Relays {
  import opened Devices
  import opened RelayBoard

  /** One actuation request: channel, time of the detection event, the
      delay before the relay may switch on, and the requested on-time. */
  datatype Job = Job(relay: int, timestamp: real, delay: real, duration: real)

  /** Every channel queue holds at most this many jobs. */
  const Capacity: nat := 5

  /** The last `n` elements of `s` (all of `s` when it is shorter). */
  function Newest<T>(s: seq<T>, n: nat): seq<T> {
    if |s| <= n then s else s[|s| - n..]
  }

  /** Appending to a queue of bounded length: the job goes to the tail and,
      when the queue is full, the job at the head is dropped. */
  function Enqueue(q: seq<Job>, job: Job): (r: seq<Job>)
    ensures r == Newest(q + [job], Capacity)
    ensures |r| <= Capacity && r[|r| - 1] == job
  {
    if |q| < Capacity then q + [job] else q[|q| - Capacity + 1..] + [job]
  }

  /** The two cases of `Enqueue` on a queue that respects the bound: room
      left, or full and the oldest job evicted while the others keep their
      order. */
  lemma EnqueueCases(q: seq<Job>, job: Job)
    requires |q| <= Capacity
    ensures |q| < Capacity ==> Enqueue(q, job) == q + [job]
    ensures |q| == Capacity ==> Enqueue(q, job) == q[1..] + [job] && |Enqueue(q, job)| == Capacity
  {
  }

  /** Several `receive` calls on one channel with no consumer in between. */
  function EnqueueAll(q: seq<Job>, jobs: seq<Job>): seq<Job>
    decreases |jobs|
  {
    if jobs == [] then q else EnqueueAll(Enqueue(q, jobs[0]), jobs[1..])
  }

  /** Keeping the newest `n` of a suffix that is at least as long as what
      is kept is the same as keeping them of the whole. */
  lemma NewestOfNewest<T>(s: seq<T>, t: seq<T>, n: nat)
    ensures Newest(Newest(s, n) + t, n) == Newest(s + t, n)
  {
    if |s| > n {
      var u := s[|s| - n..];
      assert s + t == s[..|s| - n] + (u + t);
      assert (s + t)[|s + t| - n..] == (u + t)[|u + t| - n..];
    }
  }

  /** However many jobs arrive before the consumer runs, the queue then
      holds the newest five of the old contents and the arrivals together,
      oldest first. */
  lemma {:induction false} EnqueueAllKeepsNewest(q: seq<Job>, jobs: seq<Job>)
    requires |q| <= Capacity
    ensures EnqueueAll(q, jobs) == Newest(q + jobs, Capacity)
    decreases |jobs|
  {
    if jobs == [] {
      assert q + jobs == q;
    } else {
      var q1 := Enqueue(q, jobs[0]);
      EnqueueAllKeepsNewest(q1, jobs[1..]);
      NewestOfNewest(q + [jobs[0]], jobs[1..], Capacity);
      assert q + [jobs[0]] + jobs[1..] == q + jobs;
    }
  }

  /** The time still to spend switched on for `job` when it is taken at
      time `now`: what is left of its duration counted from its own event
      time, and never negative. */
  function OnDuration(job: Job, now: real): (d: real)
    ensures d >= 0.0
    ensures d >= job.duration - (now - job.timestamp)
    ensures d == 0.0 || d == job.duration - (now - job.timestamp)
  {
    if job.duration - (now - job.timestamp) <= 0.0 then 0.0 else job.duration - (now - job.timestamp)
  }

  /** A job whose elapsed time has reached its duration gets no on-time,
      and after sleeping the on-time the clock is at the later of `now` and
      the job's end of duration. */
  lemma OnDurationEndsAtDeadline(job: Job, now: real)
    ensures now - job.timestamp >= job.duration ==> OnDuration(job, now) == 0.0
    ensures now + OnDuration(job, now) == Max(now, job.timestamp + job.duration)
  {
  }

  function Max(a: real, b: real): real {
    if a >= b then a else b
  }

  /** The sum of a sequence of durations. */
  function Sum(ds: seq<real>): real
    decreases |ds|
  {
    if ds == [] then 0.0 else ds[0] + Sum(ds[1..])
  }

  /** What a consumer pass computes: the time the relay is switched on
      (the start, when it is on already or there is nothing to drain), the
      on-time of each job, in queue order, and the clock when the pass
      ends. */
  datatype Schedule = Schedule(onAt: real, onDurations: seq<real>, end: real)

  /** The consumer's draining loop, starting at time `t` with the relay on
      or off: each job is taken from the head; if the relay is off the
      consumer sleeps the job's delay and switches it on; then it sleeps the
      job's on-time. */
  function Drain(jobs: seq<Job>, t: real, on: bool): (s: Schedule)
    ensures |s.onDurations| == |jobs|
    decreases |jobs|
  {
    if jobs == [] then Schedule(t, [], t)
    else
      var d := OnDuration(jobs[0], t);
      var onAt := if on then t else t + jobs[0].delay;
      var rest := Drain(jobs[1..], onAt + d, true);
      Schedule(onAt, [d] + rest.onDurations, rest.end)
  }

  /** A drain gives one on-time per job, none negative, and ends when the
      first delay (if the relay was off) and all the on-times have been
      slept: the relay is held on from `onAt` for exactly the sum of the
      on-times. */
  lemma {:induction false} DrainAccounts(jobs: seq<Job>, t: real, on: bool)
    ensures |Drain(jobs, t, on).onDurations| == |jobs|
    ensures forall k :: 0 <= k < |jobs| ==> Drain(jobs, t, on).onDurations[k] >= 0.0
    ensures Drain(jobs, t, on).end
      == t + (if !on && jobs != [] then jobs[0].delay else 0.0) + Sum(Drain(jobs, t, on).onDurations)
    ensures Drain(jobs, t, on).end == Drain(jobs, t, on).onAt + Sum(Drain(jobs, t, on).onDurations)
    decreases |jobs|
  {
    if jobs != [] {
      var d := OnDuration(jobs[0], t);
      var t1 := (if on then t else t + jobs[0].delay) + d;
      DrainAccounts(jobs[1..], t1, true);
      var s := Drain(jobs, t, on);
      assert s.onDurations[1..] == Drain(jobs[1..], t1, true).onDurations;
    }
  }

  /** One step of `Drain`: the head job's on-time is computed at `t`, and
      the rest is drained with the relay on from the time the consumer wakes
      up. */
  lemma DrainStep(jobs: seq<Job>, t: real, on: bool)
    requires jobs != []
    ensures Drain(jobs, t, on).onDurations
      == [OnDuration(jobs[0], t)] + Drain(jobs[1..], (if on then t else t + jobs[0].delay) + OnDuration(jobs[0], t), true).onDurations
    ensures Drain(jobs, t, on).end
      == Drain(jobs[1..], (if on then t else t + jobs[0].delay) + OnDuration(jobs[0], t), true).end
  {
  }

  /** The draining loop's invariant carried over one job: when the first
      |done| on-times of a drain from `start` are known and the rest is the
      drain of the remaining jobs from `t`, taking the next job keeps it so. */
  lemma DrainAdvance(jobs: seq<Job>, start: real, done: seq<real>, t: real, on: bool, d: real, t': real)
    requires |done| < |jobs|
    requires Drain(jobs, start, false).onDurations == done + Drain(jobs[|done|..], t, on).onDurations
    requires Drain(jobs, start, false).end == Drain(jobs[|done|..], t, on).end
    requires d == OnDuration(jobs[|done|], t)
    requires t' == (if on then t else t + jobs[|done|].delay) + d
    ensures Drain(jobs, start, false).onDurations == (done + [d]) + Drain(jobs[|done| + 1..], t', true).onDurations
    ensures Drain(jobs, start, false).end == Drain(jobs[|done| + 1..], t', true).end
  {
    var rest := jobs[|done|..];
    assert rest[0] == jobs[|done|];
    assert rest[1..] == jobs[|done| + 1..];
    DrainStep(rest, t, on);
    var tail := Drain(jobs[|done| + 1..], t', true).onDurations;
    assert Drain(rest, t, on).onDurations == [d] + tail;
    assert done + ([d] + tail) == (done + [d]) + tail;
  }

  /** The latest of `t` and the end of duration of every job. */
  function LatestDeadline(t: real, jobs: seq<Job>): real
    decreases |jobs|
  {
    if jobs == [] then t else LatestDeadline(Max(t, jobs[0].timestamp + jobs[0].duration), jobs[1..])
  }

  /** With the relay already on, a drain ends at the latest end of duration
      among its jobs, or at once if all of them have passed: the relay is
      held exactly as long as the last job still needs it. */
  lemma {:induction false} DrainEndsAtLatestDeadline(jobs: seq<Job>, t: real)
    ensures Drain(jobs, t, true).end == LatestDeadline(t, jobs)
    decreases |jobs|
  {
    if jobs != [] {
      OnDurationEndsAtDeadline(jobs[0], t);
      DrainEndsAtLatestDeadline(jobs[1..], t + OnDuration(jobs[0], t));
    }
  }

  /** `LatestDeadline` is at least its start and every job's end of
      duration. */
  lemma {:induction false} LatestDeadlineBounds(t: real, jobs: seq<Job>)
    ensures LatestDeadline(t, jobs) >= t
    ensures forall k :: 0 <= k < |jobs| ==> LatestDeadline(t, jobs) >= jobs[k].timestamp + jobs[k].duration
    decreases |jobs|
  {
    if jobs != [] {
      LatestDeadlineBounds(Max(t, jobs[0].timestamp + jobs[0].duration), jobs[1..]);
      forall k | 1 <= k < |jobs|
        ensures LatestDeadline(t, jobs) >= jobs[k].timestamp + jobs[k].duration
      {
        assert jobs[k] == jobs[1..][k - 1];
      }
    }
  }

  /** A pass that finds the relay off switches it on after the first job's
      delay and off at the end; the relay is not switched off before the end
      of duration of any job it drained, and it goes off at the latest such
      end, shifted by the first job's delay when that end is the first job's
      or the start. */
  lemma DrainFromIdle(jobs: seq<Job>, t: real)
    requires jobs != [] && jobs[0].delay >= 0.0
    ensures Drain(jobs, t, false).end
      == LatestDeadline(Max(t, jobs[0].timestamp + jobs[0].duration) + jobs[0].delay, jobs[1..])
    ensures forall k :: 0 <= k < |jobs| ==>
      Drain(jobs, t, false).end >= jobs[k].timestamp + jobs[k].duration
  {
    var t1 := t + jobs[0].delay + OnDuration(jobs[0], t);
    OnDurationEndsAtDeadline(jobs[0], t);
    DrainEndsAtLatestDeadline(jobs[1..], t1);
    LatestDeadlineBounds(t1, jobs[1..]);
    forall k | 1 <= k < |jobs|
      ensures Drain(jobs, t, false).end >= jobs[k].timestamp + jobs[k].duration
    {
      assert jobs[k] == jobs[1..][k - 1];
    }
  }

  /** A single job at time 0 with a 0.1 s delay and a 1 s duration, taken
      at once: the relay goes on at 0.1 s and off at 1.1 s. */
  lemma SingleJobTiming()
    ensures Drain([Job(0, 0.0, 0.1, 1.0)], 0.0, false) == Schedule(0.1, [1.0], 1.1)
  {
  }

  /** The LED call made on the optional status LED when a relay goes on. */
  const StatusPulse: LedCommand := Blink(0.1, None, Some(1))

  class RelayController {
    const relay: RelayControl
    const statusLedPresent: bool
    var queues: seq<seq<Job>>
    var running: bool
    var statusLed: seq<LedCommand>

    /** The board is consistent and no queue exceeds its capacity. */
    ghost predicate Valid()
      reads this, relay
    {
      relay.Valid() && forall c :: 0 <= c < |queues| ==> |queues[c]| <= Capacity
    }

    /** One empty queue per configured relay, channels numbered from 0; a
        confirmation beep once everything is set up. */
    constructor (relayDict: seq<(int, int)>, statusLedPresent: bool)
      requires Distinct(Keys(relayDict))
      ensures Valid() && fresh(relay)
      ensures relay.order == Keys(relayDict) && relay.log == [Beeped(0.5, 0.25, 2)]
      ensures |queues| == |relayDict| && forall c :: 0 <= c < |queues| ==> queues[c] == []
      ensures running && this.statusLedPresent == statusLedPresent && statusLed == []
    {
      var board := new RelayControl(relayDict);
      board.Beep(0.5, 2);
      relay := board;
      this.statusLedPresent := statusLedPresent;
      queues := seq(|relayDict|, c => []);
      running := true;
      statusLed := [];
    }

    /** `receive`: the job joins the tail of its channel's queue, evicting
        the oldest job when the queue is full. The channel must exist (the
        queue dictionary is indexed directly). */
    method Receive(channel: int, timestamp: real, delay: real, duration: real)
      requires Valid()
      requires 0 <= channel < |queues|
      modifies this`queues
      ensures Valid()
      ensures queues == old(queues)[channel := Enqueue(old(queues[channel]), Job(channel, timestamp, delay, duration))]
    {
      queues := queues[channel := Enqueue(queues[channel], Job(channel, timestamp, delay, duration))];
    }

    /** One run of the consumer's outer loop for `channel`, starting at
        time `start`: drain the queue from the head, switching the relay on
        once, before the first job, and off once the queue is empty. After
        `stop` nothing happens. The first job's delay is slept, so it must
        not be negative; the channel must be on the board if it is used.
        Returns when the relay went on, the on-time of each job and when
        the pass ended. */
    method ConsumerPass(channel: nat, start: real) returns (onAt: real, onDurations: seq<real>, end: real)
      requires Valid()
      requires channel < |queues|
      requires running && queues[channel] != [] ==>
        channel in relay.devices && queues[channel][0].delay >= 0.0
      modifies this`queues, this`statusLed, relay`log
      ensures Valid()
      ensures |queues| == |old(queues)|
      ensures forall c :: 0 <= c < |queues| && c != channel ==> queues[c] == old(queues[c])
      ensures !running ==>
        queues == old(queues) && relay.log == old(relay.log) && statusLed == old(statusLed) &&
        onAt == start && onDurations == [] && end == start
      ensures running ==> queues[channel] == []
      ensures running ==> Schedule(onAt, onDurations, end) == Drain(old(queues[channel]), start, false)
      ensures running ==>
        relay.log == old(relay.log) + (if old(queues[channel]) == [] then [] else [SwitchedOn(channel), SwitchedOff(channel)])
      ensures running ==>
        statusLed == old(statusLed) + (if statusLedPresent && old(queues[channel]) != [] then [StatusPulse] else [])
    {
      onAt, onDurations, end := start, [], start;
      if !running {
        return;
      }
      ghost var jobs := queues[channel];
      var relayOn := false;
      var now := start;
      while queues[channel] != []
        invariant Valid()
        invariant |queues| == |old(queues)|
        invariant forall c :: 0 <= c < |queues| && c != channel ==> queues[c] == old(queues[c])
        invariant |onDurations| <= |jobs| && queues[channel] == jobs[|onDurations|..]
        invariant relayOn <==> |onDurations| > 0
        invariant !relayOn ==> onAt == start && now == start
        invariant relayOn ==> onAt == start + jobs[0].delay
        invariant relay.log == old(relay.log) + if relayOn then [SwitchedOn(channel)] else []
        invariant statusLed == old(statusLed) + if statusLedPresent && relayOn then [StatusPulse] else []
        invariant Drain(jobs, start, false).onDurations
          == onDurations + Drain(jobs[|onDurations|..], now, relayOn).onDurations
        invariant Drain(jobs, start, false).end == Drain(jobs[|onDurations|..], now, relayOn).end
        decreases |queues[channel]|
      {
        ghost var done, t, wasOn := onDurations, now, relayOn;
        var job := queues[channel][0];
        assert job == jobs[|done|];
        queues := queues[channel := queues[channel][1..]];
        var onDur := OnDuration(job, now);
        if !relayOn {
          now := now + job.delay;
          onAt := now;
          relay.RelayOn(channel);
          if statusLedPresent {
            statusLed := statusLed + [StatusPulse];
          }
          relayOn := true;
        }
        now := now + onDur;
        onDurations := onDurations + [onDur];
        DrainAdvance(jobs, start, done, t, wasOn, onDur, now);
      }
      if |queues[channel]| == 0 && relayOn {
        relay.RelayOff(channel);
        relayOn := false;
      }
      end := now;
    }

    /** `stop`: the consumers are told to finish, then every relay is
        switched off, closed and removed, and the buzzer closed. The queues
        are left as they are. */
    method Stop()
      requires Valid()
      modifies this`running, relay`devices, relay`order, relay`log
      ensures Valid() && !running && queues == old(queues)
      ensures relay.devices == map[] && relay.order == []
      ensures relay.log == old(relay.log) + Offs(old(relay.order)) + Closes(old(relay.order)) + [BuzzerClosed]
    {
      running := false;
      relay.Close();
    }
  }
}
