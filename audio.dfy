/**
  The main-thread side of the measurement protocol: a batch of play and record
  commands is built, posted to the processor in one message, and resolved once
  every command of the batch has reported back; plus the click schedule of the
  delay measurement and the peak picker that reads its recording.
*/
module Audio {
  import opened Wrappers
  import opened Numerics
  import opened Processor

  // ---------------------------------------------------------------------------
  // Batch protocol

  /** The bookkeeping of a submitted batch: the ids still awaited, the value each
      answered command's promise was resolved with, whether the response handler
      is still attached, and whether the batch's own promise has resolved. */
  datatype Delivery = Delivery(pending: set<int>, results: map<int, Option<seq<real>>>, listening: bool, resolved: bool)

  /** The response handler. A response for an id with no pending callback makes
      the handler throw before it changes anything; a response arriving after
      the handler was detached is dropped. Otherwise the callback is invoked and
      deleted, and when none is left the handler is detached and the batch resolves. */
  function Respond(d: Delivery, res: MeasurementResponse): (e: Delivery)
    ensures !d.listening || res.commandId !in d.pending ==> e == d
    ensures d.listening && res.commandId in d.pending ==>
      && e.pending == d.pending - {res.commandId}
      && e.results == d.results[res.commandId := res.result]
      && (e.resolved <==> d.resolved || e.pending == {})
      && (e.listening <==> e.pending != {})
  {
    if !d.listening || res.commandId !in d.pending then d
    else
      var pending := d.pending - {res.commandId};
      Delivery(pending, d.results[res.commandId := res.result], pending != {}, d.resolved || pending == {})
  }

  /** A sequence of responses handled in arrival order. */
  function RespondAll(d: Delivery, rs: seq<MeasurementResponse>): Delivery
  {
    if rs == [] then d else Respond(RespondAll(d, rs[..|rs| - 1]), rs[|rs| - 1])
  }

  /** The ids a sequence of responses answers. */
  function Answered(rs: seq<MeasurementResponse>): set<int>
  {
    set k | 0 <= k < |rs| :: rs[k].commandId
  }

  predicate DistinctIds(rs: seq<MeasurementResponse>)
  {
    forall i, j :: 0 <= i < j < |rs| ==> rs[i].commandId != rs[j].commandId
  }

  /** Handling one response per awaited command, in any order: the callbacks
      answered so far are gone, each promise holds its response's payload, and
      the batch resolves exactly when every awaited command has answered. */
  lemma {:induction false} BatchResolution(d: Delivery, rs: seq<MeasurementResponse>)
    requires d.listening && !d.resolved
    requires DistinctIds(rs) && forall k :: 0 <= k < |rs| ==> rs[k].commandId in d.pending
    ensures RespondAll(d, rs).pending == d.pending - Answered(rs)
    ensures RespondAll(d, rs).resolved <==> rs != [] && Answered(rs) == d.pending
    ensures RespondAll(d, rs).listening <==> !RespondAll(d, rs).resolved
    ensures forall k :: 0 <= k < |rs| ==>
      rs[k].commandId in RespondAll(d, rs).results && RespondAll(d, rs).results[rs[k].commandId] == rs[k].result
  {
    if rs == [] {
    } else {
      var init := rs[..|rs| - 1];
      var last := rs[|rs| - 1];
      BatchResolution(d, init);
      var before := RespondAll(d, init);
      assert Answered(rs) == Answered(init) + {last.commandId} by {
        forall id | id in Answered(rs)
          ensures id in Answered(init) + {last.commandId}
        {
          var k :| 0 <= k < |rs| && rs[k].commandId == id;
          if k < |rs| - 1 {
            assert init[k] == rs[k];
          }
        }
        forall id | id in Answered(init)
          ensures id in Answered(rs)
        {
          var k :| 0 <= k < |init| && init[k].commandId == id;
          assert rs[k] == init[k];
        }
      }
      assert last.commandId !in Answered(init) by {
        forall k | 0 <= k < |init|
          ensures init[k].commandId != last.commandId
        {
          assert init[k] == rs[k];
        }
      }
      assert last.commandId in before.pending;
      assert before.listening;
      forall k | 0 <= k < |rs|
        ensures rs[k].commandId in RespondAll(d, rs).results && RespondAll(d, rs).results[rs[k].commandId] == rs[k].result
      {
        if k < |rs| - 1 {
          assert init[k] == rs[k];
        }
      }
    }
  }

  /** `BatchCommand`: the commands of one batch and the callbacks awaiting them. */
  class BatchCommand {
    var commands: seq<MeasureCommand>
    /** The keys of `pendingCommands`. */
    var pendingCommands: set<int>
    /** What each awaited promise was resolved with. */
    var results: map<int, Option<seq<real>>>
    /** Whether the port's message handler is the batch's response handler. */
    var listening: bool
    /** Whether the promise `submit` returned has resolved. */
    var resolved: bool

    constructor()
      ensures commands == [] && pendingCommands == {} && results == map[]
      ensures !listening && !resolved
    {
      commands := [];
      pendingCommands := {};
      results := map[];
      listening := false;
      resolved := false;
    }

    function Delivered(): Delivery
      reads this
    {
      Delivery(pendingCommands, results, listening, resolved)
    }

    /** `awaitCommand(id)`: registers the callback for `id`, replacing any other
        callback under the same id. */
    method AwaitCommand(id: int)
      modifies this
      ensures pendingCommands == old(pendingCommands) + {id}
      ensures commands == old(commands) && results == old(results)
      ensures listening == old(listening) && resolved == old(resolved)
    {
      pendingCommands := pendingCommands + {id};
    }

    /** `play(sampleChannels, delaySamples)` with `id` standing for the random id. */
    method Play(sampleChannels: seq<Option<seq<real>>>, delaySamples: Option<int>, id: int)
      modifies this
      ensures commands == old(commands) + [MeasureCommand.Play(id, -delaySamples.GetOr(0), sampleChannels)]
      ensures pendingCommands == old(pendingCommands) + {id}
      ensures results == old(results) && listening == old(listening) && resolved == old(resolved)
    {
      commands := commands + [MeasureCommand.Play(id, -delaySamples.GetOr(0), sampleChannels)];
      AwaitCommand(id);
    }

    /** `record(channel, numSamples, delaySamples)` with `id` standing for the random id. */
    method Record(channel: nat, numSamples: nat, delaySamples: Option<int>, id: int)
      modifies this
      ensures commands == old(commands) + [MeasureCommand.Record(id, -delaySamples.GetOr(0), Length(numSamples), channel)]
      ensures pendingCommands == old(pendingCommands) + {id}
      ensures results == old(results) && listening == old(listening) && resolved == old(resolved)
    {
      commands := commands + [MeasureCommand.Record(id, -delaySamples.GetOr(0), Length(numSamples), channel)];
      AwaitCommand(id);
    }

    /** `submit`: attaches the response handler and posts the whole batch as one message. */
    method Submit() returns (posted: Message)
      modifies this
      ensures posted == Batch(commands)
      ensures listening
      ensures commands == old(commands) && pendingCommands == old(pendingCommands)
      ensures results == old(results) && resolved == old(resolved)
    {
      listening := true;
      posted := Batch(commands);
    }

    /** The handler `submit` attaches, receiving one response. */
    method OnMessage(res: MeasurementResponse)
      modifies this
      ensures Delivered() == Respond(old(Delivered()), res)
      ensures commands == old(commands)
    {
      if listening && res.commandId in pendingCommands {
        results := results[res.commandId := res.result];
        pendingCommands := pendingCommands - {res.commandId};
        if pendingCommands == {} {
          listening := false;
          resolved := true;
        }
      }
    }
  }

  // ---------------------------------------------------------------------------
  // measureDelay

  /** The click schedule: `rounds` rounds over `channels` channels, click `k` at
      `k * clickDistance` on channel `k % channels`, and the time after the last click. */
  method ClickSchedule(rounds: nat, channels: nat, clickDistance: nat)
    returns (clickTimes: seq<nat>, clickChannels: seq<nat>, totalTime: nat)
    ensures |clickTimes| == |clickChannels| == rounds * channels
    ensures forall k :: 0 <= k < |clickTimes| ==> clickTimes[k] == k * clickDistance
    ensures forall k :: 0 <= k < |clickChannels| ==> clickChannels[k] == k % channels
    ensures totalTime == rounds * channels * clickDistance
  {
    clickTimes := [];
    clickChannels := [];
    totalTime := 0;
    for round := 0 to rounds
      invariant |clickTimes| == |clickChannels| == round * channels
      invariant forall k :: 0 <= k < |clickTimes| ==> clickTimes[k] == k * clickDistance
      invariant forall k :: 0 <= k < |clickChannels| ==> clickChannels[k] == k % channels
      invariant totalTime == |clickTimes| * clickDistance
    {
      for channel := 0 to channels
        invariant |clickTimes| == |clickChannels| == round * channels + channel
        invariant forall k :: 0 <= k < |clickTimes| ==> clickTimes[k] == k * clickDistance
        invariant forall k :: 0 <= k < |clickChannels| ==> clickChannels[k] == k % channels
        invariant totalTime == |clickTimes| * clickDistance
      {
        ClickAppended(clickTimes, clickChannels, round, channels, channel, clickDistance);
        clickTimes := clickTimes + [totalTime];
        clickChannels := clickChannels + [channel];
        totalTime := totalTime + clickDistance;
      }
      assert round * channels + channels == (round + 1) * channels;
    }
  }

  /** One more click of the schedule: click number round · channels + channel
      goes at that many click distances, on `channel`. */
  lemma ClickAppended(times: seq<nat>, chans: seq<nat>, round: nat, channels: nat, channel: nat, d: nat)
    requires channel < channels && |times| == |chans| == round * channels + channel
    requires forall k :: 0 <= k < |times| ==> times[k] == k * d
    requires forall k :: 0 <= k < |chans| ==> chans[k] == k % channels
    ensures forall k :: 0 <= k < |times| + 1 ==> (times + [|times| * d])[k] == k * d
    ensures forall k :: 0 <= k < |chans| + 1 ==> (chans + [channel])[k] == k % channels
    ensures (|times| + 1) * d == |times| * d + d
  {
    ChannelOfClick(round, channels, channel);
  }

  /** Click `round * channels + channel` of the schedule is on channel `channel`. */
  lemma ChannelOfClick(round: nat, channels: nat, channel: nat)
    requires channel < channels
    ensures (round * channels + channel) % channels == channel
  {
    var k := round * channels + channel;
    assert k / channels == round && k % channels == channel by {
      DivModUnique(k, channels, round, channel);
    }
  }

  lemma DivModUnique(k: int, n: int, q: int, r: int)
    requires n > 0 && 0 <= r < n && k == q * n + r
    ensures k / n == q && k % n == r
  {
    var q', r' := k / n, k % n;
    assert (q' - q) * n == r - r';
    if q' > q {
      MultiplyMonotone(1, q' - q, n);
    } else if q' < q {
      MultiplyMonotone(1, q - q', n);
    }
  }

  /** The sources of one click: `click` on `channel`, holes before it. */
  function ClickSources(channel: nat, click: seq<real>): (sources: seq<Option<seq<real>>>)
    ensures |sources| == channel + 1 && sources[channel] == Some(click)
    ensures forall j :: 0 <= j < channel ==> sources[j] == None
  {
    seq(channel + 1, j requires 0 <= j <= channel => if j == channel then Some(click) else None)
  }

  /** The batch `measureDelay` submits: one play command per scheduled click,
      delayed to its time, then one recording of channel 0 that starts at once
      and lasts the whole schedule plus `maxDelaySamples`. Random ids are the
      parameter `ids`. */
  method MeasureDelayBatch(rounds: nat, channels: nat, clickDistance: nat, maxDelaySamples: nat,
                           click: seq<real>, ids: seq<int>)
    returns (q: BatchCommand, clickTimes: seq<nat>, clickChannels: seq<nat>)
    requires |ids| == rounds * channels + 1
    ensures fresh(q)
    ensures |clickTimes| == |clickChannels| == rounds * channels
    ensures |q.commands| == rounds * channels + 1
    ensures forall k :: 0 <= k < rounds * channels ==>
      q.commands[k] == MeasureCommand.Play(ids[k], -(k * clickDistance), ClickSources(k % channels, click))
    ensures q.commands[rounds * channels] == MeasureCommand.Record(ids[rounds * channels], 0, Length(rounds * channels * clickDistance + maxDelaySamples), 0)
    ensures q.pendingCommands == set k | 0 <= k < |ids| :: ids[k]
    ensures !q.listening && !q.resolved
  {
    var totalTime;
    clickTimes, clickChannels, totalTime := ClickSchedule(rounds, channels, clickDistance);
    q := new BatchCommand();
    for i := 0 to |clickTimes|
      invariant |q.commands| == i
      invariant forall k :: 0 <= k < i ==>
        q.commands[k] == MeasureCommand.Play(ids[k], -(k * clickDistance), ClickSources(k % channels, click))
      invariant q.pendingCommands == set k | 0 <= k < i :: ids[k]
      invariant !q.listening && !q.resolved
    {
      q.Play(ClickSources(clickChannels[i], click), Some(clickTimes[i]), ids[i]);
      assert (set k | 0 <= k < i + 1 :: ids[k]) == (set k | 0 <= k < i :: ids[k]) + {ids[i]};
    }
    q.Record(0, totalTime + maxDelaySamples, Some(0), ids[rounds * channels]);
    assert (set k | 0 <= k < |ids| :: ids[k]) == (set k | 0 <= k < |ids| - 1 :: ids[k]) + {ids[|ids| - 1]};
  }

  // ---------------------------------------------------------------------------
  // playClicks and playAndRecord

  /** The batch `playClicks` submits: two clicks on both channels, one second apart. */
  method PlayClicksBatch(sampleRate: nat, click: seq<real>, ids: seq<int>) returns (q: BatchCommand)
    requires |ids| == 2
    ensures fresh(q)
    ensures q.commands == [MeasureCommand.Play(ids[0], 0, [Some(click), Some(click)]),
                           MeasureCommand.Play(ids[1], -(sampleRate as int), [Some(click), Some(click)])]
    ensures q.pendingCommands == {ids[0], ids[1]}
  {
    q := new BatchCommand();
    for i := 0 to 2
      invariant |q.commands| == i
      invariant forall k :: 0 <= k < i ==> q.commands[k] == MeasureCommand.Play(ids[k], -(k * sampleRate), [Some(click), Some(click)])
      invariant q.pendingCommands == set k | 0 <= k < i :: ids[k]
    {
      q.Play([Some(click), Some(click)], Some(i * sampleRate), ids[i]);
      assert (set k | 0 <= k < i + 1 :: ids[k]) == (set k | 0 <= k < i :: ids[k]) + {ids[i]};
    }
  }

  /** The cursors of `playAndRecord`: whichever of playback and recording is
      late by `delaySamples` starts at minus that delay, the other at 0. */
  function PlayCursor(delaySamples: int): (c: int)
    ensures c <= 0
  {
    -MaxInt(0, -delaySamples)
  }

  function RecordCursor(delaySamples: int): (c: int)
    ensures c <= 0
  {
    -MaxInt(0, delaySamples)
  }

  function MaxInt(a: int, b: int): int
  {
    if a >= b then a else b
  }

  /** Whatever the sign of the delay, the recording runs `delaySamples` samples
      behind the playback, and one of the two starts at once. */
  lemma PlayAndRecordAlignment(delaySamples: int)
    ensures PlayCursor(delaySamples) - RecordCursor(delaySamples) == delaySamples
    ensures PlayCursor(delaySamples) == 0 || RecordCursor(delaySamples) == 0
  {
  }

  /** The length `playAndRecord` records: the longest source, 0 for a hole. */
  function LongestSource(samples: seq<Option<seq<real>>>): (n: nat)
    ensures forall k :: 0 <= k < |samples| && samples[k].Some? ==> |samples[k].value| <= n
    ensures samples != [] ==> n == 0 || exists k :: 0 <= k < |samples| && samples[k].Some? && |samples[k].value| == n
  {
    if samples == [] then 0
    else
      var rest := LongestSource(samples[..|samples| - 1]);
      var last := if samples[|samples| - 1].Some? then |samples[|samples| - 1].value| else 0;
      if last >= rest then last else rest
  }

  /** The batch `playAndRecord` submits and the id whose result it returns. */
  method PlayAndRecord(samples: seq<Option<seq<real>>>, delaySamples: int, playId: int, recordId: int)
    returns (q: BatchCommand, posted: Message, recording: int)
    ensures fresh(q)
    ensures posted == Batch([MeasureCommand.Play(playId, PlayCursor(delaySamples), samples),
                             MeasureCommand.Record(recordId, RecordCursor(delaySamples), Length(LongestSource(samples)), 0)])
    ensures q.pendingCommands == {playId, recordId} && q.listening && recording == recordId
  {
    var maxLength := LongestSource(samples);
    q := new BatchCommand();
    q.Play(samples, Some(MaxInt(0, -delaySamples)), playId);
    q.Record(0, maxLength, Some(MaxInt(0, delaySamples)), recordId);
    recording := recordId;
    posted := q.Submit();
  }

  // ---------------------------------------------------------------------------
  // findNPeaks

  /** `m` is the pick of a round that follows the picks `prev`: an unpicked
      index with a positive magnitude, at least that of every unpicked index and
      strictly above that of every earlier unpicked index. */
  predicate BestUnpicked(samples: seq<real>, prev: seq<int>, m: int)
  {
    && 0 <= m < |samples| && m !in prev && Abs(samples[m]) > 0.0
    && (forall i :: 0 <= i < |samples| && i !in prev ==> Abs(samples[i]) <= Abs(samples[m]))
    && (forall i :: 0 <= i < m && i !in prev ==> Abs(samples[i]) < Abs(samples[m]))
  }

  /** No unpicked index has a positive magnitude. */
  predicate NoCandidate(samples: seq<real>, prev: seq<int>)
  {
    forall i :: 0 <= i < |samples| && i !in prev ==> Abs(samples[i]) == 0.0
  }

  /** A round's pick is determined by the previous picks. */
  lemma BestUnpickedUnique(samples: seq<real>, prev: seq<int>, m1: int, m2: int)
    requires BestUnpicked(samples, prev, m1) && BestUnpicked(samples, prev, m2)
    ensures m1 == m2
  {
  }

  /** One round of `findNPeaks`: the scan for the largest unpicked magnitude. */
  method PickPeak(samples: seq<real>, prev: seq<int>) returns (maxIndex: int)
    ensures BestUnpicked(samples, prev, maxIndex) || (NoCandidate(samples, prev) && maxIndex == 0)
  {
    var maxValue := 0.0;
    maxIndex := 0;
    for i := 0 to |samples|
      invariant maxValue >= 0.0
      invariant forall j :: 0 <= j < i && j !in prev ==> Abs(samples[j]) <= maxValue
      invariant maxValue == 0.0 ==> maxIndex == 0
      invariant maxValue > 0.0 ==>
        && 0 <= maxIndex < i && maxIndex !in prev && Abs(samples[maxIndex]) == maxValue
        && forall j :: 0 <= j < maxIndex && j !in prev ==> Abs(samples[j]) < maxValue
    {
      var v := Abs(samples[i]);
      if v > maxValue && i !in prev {
        maxValue := v;
        maxIndex := i;
      }
    }
  }

  /** `findNPeaks(n, samples)`: `n` rounds, each pushing its round's pick, or 0
      when no unpicked index has a positive magnitude. */
  method FindNPeaks(n: nat, samples: seq<real>) returns (results: seq<int>)
    ensures |results| == n
    ensures forall k :: 0 <= k < n ==>
      BestUnpicked(samples, results[..k], results[k]) || (NoCandidate(samples, results[..k]) && results[k] == 0)
  {
    results := [];
    while |results| < n
      invariant |results| <= n
      invariant forall k :: 0 <= k < |results| ==>
        BestUnpicked(samples, results[..k], results[k]) || (NoCandidate(samples, results[..k]) && results[k] == 0)
      decreases n - |results|
    {
      var maxIndex := PickPeak(samples, results);
      PickAppended(samples, results, maxIndex);
      results := results + [maxIndex];
    }
  }

  /** A round's pick, appended to the earlier picks, keeps every pick the
      best given the ones before it. */
  lemma PickAppended(samples: seq<real>, picks: seq<int>, m: int)
    requires forall k :: 0 <= k < |picks| ==>
      BestUnpicked(samples, picks[..k], picks[k]) || (NoCandidate(samples, picks[..k]) && picks[k] == 0)
    requires BestUnpicked(samples, picks, m) || (NoCandidate(samples, picks) && m == 0)
    ensures forall k :: 0 <= k < |picks| + 1 ==>
      BestUnpicked(samples, (picks + [m])[..k], (picks + [m])[k])
      || (NoCandidate(samples, (picks + [m])[..k]) && (picks + [m])[k] == 0)
  {
    forall k | 0 <= k < |picks| + 1
      ensures BestUnpicked(samples, (picks + [m])[..k], (picks + [m])[k])
              || (NoCandidate(samples, (picks + [m])[..k]) && (picks + [m])[k] == 0)
    {
      if k == |picks| {
        assert (picks + [m])[..k] == picks;
      } else {
        assert (picks + [m])[..k] == picks[..k];
      }
    }
  }
}
