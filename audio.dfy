/** The DAC audio engine: two bounded queues of (delay, sample) words filled by
    DAC packets, and a timer tick that, per channel, commits the next sample
    once the current one has played for its delay and sends one 32-bit stereo
    word (left channel in bits 0-15, right in bits 16-31) to the I2S output.
    Time is a number of microseconds passed to each tick. */
module Audio {

  /** Capacity of each channel's queue. */
  const AUDIO_QUEUE_LEN := 512
  /** How long a channel that timed out waits before starting again. */
  const SETTLE_US := 5000

  // ---------------------------------------------------------------------
  // Queue words and the two halves of the output word
  // ---------------------------------------------------------------------

  /** The queued word: the delay in the top 16 bits and the 8-bit sample
      widened to a 16-bit PCM value (shifted up by 8) in the bottom 16. */
  function Pack(delay: bv16, sample: bv8): (w: bv32)
    ensures DelayOf(w) == delay
    ensures SampleOf(w) == (sample as bv16) << 8
    ensures LowByteClear(SampleOf(w))
  {
    ((delay as bv32) << 16) | ((sample as bv32) << 8)
  }

  /** `w >> 16`: how long the sample committed with this word is held. */
  function DelayOf(w: bv32): bv16
  {
    (w >> 16) as bv16
  }

  /** `w & 0xffff`: the PCM value to play next. */
  function SampleOf(w: bv32): bv16
  {
    (w & 0xFFFF) as bv16
  }

  /** Bits 0-15 (left channel) and 16-31 (right channel) of an output word. */
  function LeftHalf(c: bv32): bv16
  {
    (c & 0xFFFF) as bv16
  }

  function RightHalf(c: bv32): bv16
  {
    (c >> 16) as bv16
  }

  /** The output word carrying two halves. */
  function Word(left: bv16, right: bv16): (c: bv32)
    ensures LeftHalf(c) == left && RightHalf(c) == right
  {
    ((right as bv32) << 16) | (left as bv32)
  }

  /** A 16-bit PCM value widened from 8 bits has a zero low byte. */
  predicate LowByteClear(h: bv16)
  {
    h & 0xFF == 0
  }

  // ---------------------------------------------------------------------
  // One channel, as a value
  // ---------------------------------------------------------------------

  /** The state the tick keeps for one channel: whether a delay for the
      playing sample is known, the sample to commit next, the time at which
      to commit it, the channel's half of the output word and its queue. */
  datatype Channel = Channel(have: bool, next: bv16, deadline: nat, half: bv16, queue: seq<bv32>)

  /** Every static is zero at power-on. */
  const Silent := Channel(false, 0, 0, 0, [])

  /** What the tick does to one channel at time `now`. Once the deadline has
      passed, the next sample is committed to the output and, if a word is
      queued, it gives the next sample and how long the committed one holds;
      with the queue empty the channel's half is zeroed and the delay is
      forgotten. Before the deadline, a channel without a delay takes a newly
      queued word and waits SETTLE_US before committing it. */
  function ChannelTick(ch: Channel, now: nat): (r: Channel)
  {
    if ch.deadline <= now then
      if ch.queue != [] then
        Channel(true, SampleOf(ch.queue[0]), now + DelayOf(ch.queue[0]) as nat, ch.next, ch.queue[1..])
      else
        ch.(have := false, half := 0)
    else if !ch.have && ch.queue != [] then
      Channel(true, SampleOf(ch.queue[0]), now + SETTLE_US, ch.half, ch.queue[1..])
    else
      ch
  }

  /** queue_try_add: append unless the queue is full; a full queue drops the
      word. */
  function Offer(ch: Channel, w: bv32): (r: Channel)
    ensures |r.queue| <= AUDIO_QUEUE_LEN || r == ch
    ensures |ch.queue| < AUDIO_QUEUE_LEN ==> r.queue == ch.queue + [w]
    ensures r.(queue := ch.queue) == ch
  {
    if |ch.queue| < AUDIO_QUEUE_LEN then ch.(queue := ch.queue + [w]) else ch
  }

  /** The low byte of every PCM value the channel holds is zero. */
  predicate Clean(ch: Channel)
  {
    LowByteClear(ch.next) && LowByteClear(ch.half) &&
    forall i :: 0 <= i < |ch.queue| ==> LowByteClear(SampleOf(ch.queue[i]))
  }

  /** A channel without a delay has its deadline behind it. */
  predicate Settled(ch: Channel, clock: nat)
  {
    !ch.have ==> ch.deadline <= clock
  }

  /** The tick takes the 5000 us settle branch. */
  predicate SettleBranch(ch: Channel, now: nat)
  {
    now < ch.deadline && !ch.have && ch.queue != []
  }

  lemma TickKeepsClean(ch: Channel, now: nat)
    requires Clean(ch)
    ensures Clean(ChannelTick(ch, now))
    ensures |ChannelTick(ch, now).queue| <= |ch.queue|
  {
    if ch.queue != [] {
      assert LowByteClear(SampleOf(ch.queue[0]));
      assert forall i :: 0 <= i < |ch.queue| - 1 ==> ch.queue[1..][i] == ch.queue[i + 1];
    }
  }

  /** Settledness survives a tick at a later time, and a settled channel never
      takes the settle branch. */
  lemma TickKeepsSettled(ch: Channel, clock: nat, now: nat)
    requires Settled(ch, clock) && clock <= now
    ensures !SettleBranch(ch, now)
    ensures Settled(ChannelTick(ch, now), now)
  {
  }

  /** A committed sample stays on the output, with nothing else changing,
      at every tick before its deadline. */
  lemma HoldsUntilDeadline(ch: Channel, now: nat)
    requires ch.have && now < ch.deadline
    ensures ChannelTick(ch, now) == ch
  {
  }

  /** After the deadline with a word queued, the pending sample is on the
      output, the word's sample is pending, and the new deadline is the word's
      delay from now. */
  lemma CommitAtDeadline(ch: Channel, now: nat)
    requires ch.deadline <= now && ch.queue != []
    ensures var r := ChannelTick(ch, now);
      r.half == ch.next && r.next == SampleOf(ch.queue[0]) && r.have &&
      r.deadline - now == DelayOf(ch.queue[0]) as nat && r.queue == ch.queue[1..]
  {
  }

  /** After the deadline with the queue empty, the channel goes silent in the
      same tick and forgets its delay. */
  lemma DrainAtDeadline(ch: Channel, now: nat)
    requires ch.deadline <= now && ch.queue == []
    ensures var r := ChannelTick(ch, now);
      r.half == 0 && !r.have && Settled(r, now)
  {
  }

  // ---------------------------------------------------------------------
  // Runs of ticks and additions
  // ---------------------------------------------------------------------

  /** What can happen to a channel: a timer tick at a time, or a DAC packet
      offering a word to its queue. */
  datatype Event = TickAt(now: nat) | Add(word: bv32)

  function Apply(ch: Channel, e: Event): (r: Channel)
  {
    match e
    case TickAt(now) => ChannelTick(ch, now)
    case Add(w) => Offer(ch, w)
  }

  function Run(ch: Channel, events: seq<Event>): (r: Channel)
    decreases |events|
  {
    if events == [] then ch else Run(Apply(ch, events[0]), events[1..])
  }

  /** The ticks in `events` happen at times from `clock` on, never going back. */
  predicate TimesFrom(clock: nat, events: seq<Event>)
    decreases |events|
  {
    events == [] ||
    match events[0]
    case TickAt(t) => clock <= t && TimesFrom(t, events[1..])
    case Add(_) => TimesFrom(clock, events[1..])
  }

  /** Every tick of the run happens before `deadline`. */
  predicate TicksBefore(deadline: nat, events: seq<Event>)
  {
    forall i :: 0 <= i < |events| && events[i].TickAt? ==> events[i].now < deadline
  }

  /** No tick of the run, applied to the state reached so far, takes the
      settle branch. */
  predicate NeverSettles(ch: Channel, events: seq<Event>)
    decreases |events|
  {
    events == [] ||
    ((events[0].TickAt? ==> !SettleBranch(ch, events[0].now)) && NeverSettles(Apply(ch, events[0]), events[1..]))
  }

  /** With time never going back, a settled channel never takes the settle
      branch, whatever is queued in between. */
  lemma {:induction false} SettleUnreachable(ch: Channel, clock: nat, events: seq<Event>)
    requires Settled(ch, clock) && TimesFrom(clock, events)
    ensures NeverSettles(ch, events)
    decreases |events|
  {
    if events != [] {
      match events[0]
      case TickAt(t) =>
        TickKeepsSettled(ch, clock, t);
        SettleUnreachable(Apply(ch, events[0]), t, events[1..]);
      case Add(w) =>
        SettleUnreachable(Apply(ch, events[0]), clock, events[1..]);
    }
  }

  /** From power-on (every static zero, time from 0) the settle branch is
      never taken. */
  lemma SettleNeverFromPowerOn(events: seq<Event>)
    requires TimesFrom(0, events)
    ensures NeverSettles(Silent, events)
  {
    SettleUnreachable(Silent, 0, events);
  }

  /** A committed sample holds through every tick before its deadline: the
      output half, the pending sample and the deadline stay as they are while
      words are queued behind them. */
  lemma {:induction false} HoldsThroughRun(ch: Channel, events: seq<Event>)
    requires ch.have && TicksBefore(ch.deadline, events)
    ensures var r := Run(ch, events);
      r.have && r.half == ch.half && r.next == ch.next && r.deadline == ch.deadline
    decreases |events|
  {
    if events != [] {
      var c1 := Apply(ch, events[0]);
      if events[0].TickAt? {
        HoldsUntilDeadline(ch, events[0].now);
      }
      assert TicksBefore(ch.deadline, events[1..]) by {
        forall i | 0 <= i < |events| - 1 && events[1..][i].TickAt?
          ensures events[1..][i].now < ch.deadline
        {
          assert events[1..][i] == events[i + 1];
        }
      }
      HoldsThroughRun(c1, events[1..]);
    }
  }

  // ---------------------------------------------------------------------
  // The output-word masks
  // ---------------------------------------------------------------------

  /** Line 142's commit of the left sample: the word is masked with the
      36-bit constant 0xffff00000 in a 64-bit expression and truncated back to
      32 bits. That keeps bits 20-31 instead of 16-31, but bits 16-19 of a
      clean right half are zero, so the right half survives and the left half
      is the new sample. */
  method CommitLeftWord(c: bv32, left: bv16) returns (r: bv32)
    requires LowByteClear(RightHalf(c))
    ensures LeftHalf(r) == left && RightHalf(r) == RightHalf(c)
  {
    r := (((c as bv64 & 0xffff00000) | left as bv64) & 0xFFFF_FFFF) as bv32;
  }

  /** Without the invariant the mask would lose data: a right half of 1 is
      cleared by the left channel's commit. */
  lemma OddMaskWithoutInvariant()
    ensures var c: bv32 := 0x0001_0000;
      RightHalf((((c as bv64 & 0xffff00000) | 0) & 0xFFFF_FFFF) as bv32) != RightHalf(c)
  {
  }

  /** The right channel's commit replaces the right half and keeps the left. */
  method CommitRightWord(c: bv32, right: bv16) returns (r: bv32)
    ensures LeftHalf(r) == LeftHalf(c) && RightHalf(r) == right
  {
    r := (c & 0x0000ffff) | ((right as bv32) << 16);
  }

  /** Zeroing one half keeps the other. */
  lemma ClearHalves(c: bv32)
    ensures LeftHalf(c & 0xffff0000) == 0 && RightHalf(c & 0xffff0000) == RightHalf(c)
    ensures RightHalf(c & 0x0000ffff) == 0 && LeftHalf(c & 0x0000ffff) == LeftHalf(c)
  {
  }

  lemma WordOfHalves(c: bv32)
    ensures Word(LeftHalf(c), RightHalf(c)) == c
  {
  }

  // ---------------------------------------------------------------------
  // The engine
  // ---------------------------------------------------------------------

  /** The engine's statics: the word on the output, the per-channel arrays
      (have_delay, next_sample, next_delay), the two queues, and the words
      handed to the I2S state machine so far. */
  class AudioEngine {
    var currentSample: bv32
    const haveDelay: array<bool>
    const nextSample: array<bv16>
    const nextDelay: array<nat>
    var queue0: seq<bv32>
    var queue1: seq<bv32>
    /** Every word sent to the I2S output, oldest first. */
    var output: seq<bv32>

    predicate Shaped()
      reads this
    {
      haveDelay.Length == 2 && nextSample.Length == 2 && nextDelay.Length == 2 &&
      haveDelay as object != nextSample as object && haveDelay as object != nextDelay as object &&
      nextSample as object != nextDelay as object
    }

    /** Channel 0 (left) and channel 1 (right) as values. */
    function Left(): (ch: Channel)
      requires Shaped()
      reads this, haveDelay, nextSample, nextDelay
      ensures ch.queue == queue0 && ch.half == LeftHalf(currentSample)
    {
      Channel(haveDelay[0], nextSample[0], nextDelay[0], LeftHalf(currentSample), queue0)
    }

    function Right(): (ch: Channel)
      requires Shaped()
      reads this, haveDelay, nextSample, nextDelay
      ensures ch.queue == queue1 && ch.half == RightHalf(currentSample)
    {
      Channel(haveDelay[1], nextSample[1], nextDelay[1], RightHalf(currentSample), queue1)
    }

    /** The queues are within capacity and bits 0-7 and 16-23 of every PCM
        value held are zero. */
    predicate Valid()
      reads this, haveDelay, nextSample, nextDelay
    {
      Shaped() && |queue0| <= AUDIO_QUEUE_LEN && |queue1| <= AUDIO_QUEUE_LEN &&
      Clean(Left()) && Clean(Right())
    }

    /** The power-on state: both channels silent, nothing sent. */
    predicate Idle()
      reads this, haveDelay, nextSample, nextDelay
    {
      Shaped() && Left() == Silent && Right() == Silent && output == []
    }

    constructor()
      ensures Valid() && Idle()
      ensures fresh(haveDelay) && fresh(nextSample) && fresh(nextDelay)
    {
      currentSample := 0;
      haveDelay := new bool[2](_ => false);
      nextSample := new bv16[2](_ => 0);
      nextDelay := new nat[2](_ => 0);
      queue0, queue1 := [], [];
      output := [];
    }

    /** audio_add_sample: channel 0 feeds the left queue and any other
        channel the right one; a full queue drops the word. */
    method AddSample(channel: int, delay: bv16, sample: bv8)
      requires Valid()
      modifies this
      ensures Valid() && currentSample == old(currentSample) && output == old(output)
      ensures channel == 0 ==> Left() == Offer(old(Left()), Pack(delay, sample)) && Right() == old(Right())
      ensures channel != 0 ==> Right() == Offer(old(Right()), Pack(delay, sample)) && Left() == old(Left())
    {
      var value := Pack(delay, sample);
      if channel == 0 {
        if |queue0| < AUDIO_QUEUE_LEN {
          queue0 := queue0 + [value];
        }
      } else {
        if |queue1| < AUDIO_QUEUE_LEN {
          queue1 := queue1 + [value];
        }
      }
    }

    /** The left channel's part of play_audio_sample_cb: commit once the
        deadline has passed, otherwise settle if the channel has timed out. */
    method TickLeft(now: nat)
      requires Valid()
      modifies this, haveDelay, nextSample, nextDelay
      ensures Shaped() && Left() == ChannelTick(old(Left()), now) && Right() == old(Right())
      ensures Valid() && output == old(output)
    {
      TickKeepsClean(Left(), now);
      if nextDelay[0] <= now {
        CommitLeft(now);
      } else if !haveDelay[0] {
        SettleLeft(now);
      }
    }

    /** The left sample has played long enough: commit the pending sample
        and take the next word, or, with nothing queued, time out: have_delay
        clears and the left half of the word is zeroed before it is sent,
        while the pending sample and deadline stay as they were. */
    method CommitLeft(now: nat)
      requires Valid() && nextDelay[0] <= now
      modifies this, haveDelay, nextSample, nextDelay
      ensures Shaped() && Left() == ChannelTick(old(Left()), now) && Right() == old(Right())
      ensures output == old(output)
    {
      currentSample := CommitLeftWord(currentSample, nextSample[0]);
      if queue0 != [] {
        var w := queue0[0];
        queue0 := queue0[1..];
        nextDelay[0] := now + DelayOf(w) as nat;
        nextSample[0] := SampleOf(w);
        haveDelay[0] := true;
      } else {
        haveDelay[0] := false;
        ClearHalves(currentSample);
        currentSample := currentSample & 0xffff0000;
      }
    }

    /** The left channel timed out and a word has arrived: hold it back for
        SETTLE_US so that more samples can build up. */
    method SettleLeft(now: nat)
      requires Valid() && now < nextDelay[0] && !haveDelay[0]
      modifies this, haveDelay, nextSample, nextDelay
      ensures Shaped() && Left() == ChannelTick(old(Left()), now) && Right() == old(Right())
      ensures output == old(output)
    {
      if queue0 != [] {
        var w := queue0[0];
        queue0 := queue0[1..];
        haveDelay[0] := true;
        nextDelay[0] := now + SETTLE_US;
        nextSample[0] := SampleOf(w);
      }
    }

    /** The right channel's part of play_audio_sample_cb: the same logic on
        the other half of the word. */
    method TickRight(now: nat)
      requires Valid()
      modifies this, haveDelay, nextSample, nextDelay
      ensures Shaped() && Right() == ChannelTick(old(Right()), now) && Left() == old(Left())
      ensures Valid() && output == old(output)
    {
      TickKeepsClean(Right(), now);
      if nextDelay[1] <= now {
        CommitRight(now);
      } else if !haveDelay[1] {
        SettleRight(now);
      }
    }

    /** The right sample has played long enough: commit the pending sample
        and take the next word, or, with nothing queued, time out: have_delay
        clears and the right half of the word is zeroed before it is sent,
        while the pending sample and deadline stay as they were. */
    method CommitRight(now: nat)
      requires Valid() && nextDelay[1] <= now
      modifies this, haveDelay, nextSample, nextDelay
      ensures Shaped() && Right() == ChannelTick(old(Right()), now) && Left() == old(Left())
      ensures output == old(output)
    {
      currentSample := CommitRightWord(currentSample, nextSample[1]);
      if queue1 != [] {
        var w := queue1[0];
        queue1 := queue1[1..];
        nextDelay[1] := now + DelayOf(w) as nat;
        nextSample[1] := SampleOf(w);
        haveDelay[1] := true;
      } else {
        haveDelay[1] := false;
        ClearHalves(currentSample);
        currentSample := currentSample & 0x0000ffff;
      }
    }

    /** The right channel timed out and a word has arrived: hold it back for
        SETTLE_US so that more samples can build up. */
    method SettleRight(now: nat)
      requires Valid() && now < nextDelay[1] && !haveDelay[1]
      modifies this, haveDelay, nextSample, nextDelay
      ensures Shaped() && Right() == ChannelTick(old(Right()), now) && Left() == old(Left())
      ensures output == old(output)
    {
      if queue1 != [] {
        var w := queue1[0];
        queue1 := queue1[1..];
        haveDelay[1] := true;
        nextDelay[1] := now + SETTLE_US;
        nextSample[1] := SampleOf(w);
      }
    }

    /** play_audio_sample_cb: both channels advance as ChannelTick says and
        exactly one word, made of the two new halves, is sent. */
    method Tick(now: nat)
      requires Valid()
      modifies this, haveDelay, nextSample, nextDelay
      ensures Valid()
      ensures Left() == ChannelTick(old(Left()), now) && Right() == ChannelTick(old(Right()), now)
      ensures output == old(output) + [Word(Left().half, Right().half)]
    {
      TickLeft(now);
      TickRight(now);
      WordOfHalves(currentSample);
      output := output + [currentSample];
    }
  }
}
