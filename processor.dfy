/**
  The audio-thread command scheduler: a list of playbacks and a list of
  recordings, each with a signed sample cursor. Every render block mixes the
  playbacks into the output channels, copies the input into the recording
  buffers, advances every cursor by the block length and retires the commands
  that have run past their buffers, posting one completion message for each.
*/
module Processor {
  import opened Wrappers
  import opened Numerics
  import opened Seqs

  // ---------------------------------------------------------------------------
  // Commands and responses

  /** A play command in the queue: one source per output channel, `None` where
      the source is `undefined`. */
  datatype Playback = Playback(commandId: int, cursor: int, samples: seq<Option<seq<real>>>)

  /** A record command in the queue: the destination buffer and the input
      channel it listens to. */
  datatype Recording = Recording(commandId: int, cursor: int, samples: seq<real>, channel: nat)

  /** A record command carries either its destination buffer or only its size. */
  datatype RecordBuffer = Buffer(data: seq<real>) | Length(count: nat)

  datatype MeasureCommand =
    | Play(commandId: int, cursor: int, sources: seq<Option<seq<real>>>)
    | Record(commandId: int, cursor: int, buffer: RecordBuffer, channel: nat)
    | Cancel(commandId: int)

  /** A message on the port: one command or an array of them. */
  datatype Message = Single(command: MeasureCommand) | Batch(commands: seq<MeasureCommand>)

  /** What `sendDone` posts: the finished command's id and, for a recording, its buffer. */
  datatype MeasurementResponse = MeasurementResponse(commandId: int, result: Option<seq<real>>)

  /** The two queues of the processor. */
  datatype Queues = Queues(playbacks: seq<Playback>, recordings: seq<Recording>)

  // ---------------------------------------------------------------------------
  // handleMessage

  /** `Array.isArray(data) ? data : [data]` */
  function Commands(m: Message): (cs: seq<MeasureCommand>)
    ensures m.Single? ==> cs == [m.command]
    ensures m.Batch? ==> cs == m.commands
  {
    match m
    case Single(c) => [c]
    case Batch(cs) => cs
  }

  /** The buffer a record command writes into: a numeric size becomes a
      zero-filled buffer of that size. */
  function Destination(buffer: RecordBuffer): (d: seq<real>)
    ensures buffer.Buffer? ==> d == buffer.data
    ensures buffer.Length? ==> d == Zeros(buffer.count)
  {
    match buffer
    case Buffer(data) => data
    case Length(count) => Zeros(count)
  }

  /** One command applied to the queues. */
  function Install(q: Queues, c: MeasureCommand): Queues
  {
    match c
    case Play(id, cursor, sources) =>
      q.(playbacks := q.playbacks + [Playback(id, cursor, sources)])
    case Record(id, cursor, buffer, channel) =>
      q.(recordings := q.recordings + [Recording(id, cursor, Destination(buffer), channel)])
    case Cancel(id) =>
      Queues(Filter(q.playbacks, (p: Playback) => p.commandId != id),
             Filter(q.recordings, (r: Recording) => r.commandId != id))
  }

  /** The commands of a message applied in order, first to last. */
  function Installed(q: Queues, cs: seq<MeasureCommand>): Queues
    decreases |cs|
  {
    if cs == [] then q else Installed(Install(q, cs[0]), cs[1..])
  }

  /** Installing a batch is installing its first part and then its second part;
      in particular a single command is a one-element batch. */
  lemma {:induction false} InstallConcat(q: Queues, a: seq<MeasureCommand>, b: seq<MeasureCommand>)
    ensures Installed(q, a + b) == Installed(Installed(q, a), b)
    decreases |a|
  {
    if a != [] {
      assert (a + b)[1..] == a[1..] + b;
      InstallConcat(Install(q, a[0]), a[1..], b);
    } else {
      assert a + b == b;
    }
  }

  /** A play or record command is appended as given and touches nothing else. */
  lemma InstallAppends(q: Queues, c: MeasureCommand)
    ensures c.Play? ==> Installed(q, [c]) == q.(playbacks := q.playbacks + [Playback(c.commandId, c.cursor, c.sources)])
    ensures c.Record? ==> Installed(q, [c]) == q.(recordings := q.recordings + [Recording(c.commandId, c.cursor, Destination(c.buffer), c.channel)])
  {
    assert [c][1..] == [];
  }

  /** Cancel keeps exactly the commands with another id, in their order. */
  lemma {:induction false} CancelRemovesExactly(q: Queues, id: int)
    ensures var r := Install(q, Cancel(id));
      && (forall p :: p in r.playbacks <==> p in q.playbacks && p.commandId != id)
      && (forall p :: p in r.recordings <==> p in q.recordings && p.commandId != id)
  {
    var r := Install(q, Cancel(id));
    forall p | true
      ensures p in r.playbacks <==> p in q.playbacks && p.commandId != id
    {
      FilterMembership(q.playbacks, (p: Playback) => p.commandId != id, p);
    }
    forall p | true
      ensures p in r.recordings <==> p in q.recordings && p.commandId != id
    {
      FilterMembership(q.recordings, (r: Recording) => r.commandId != id, p);
    }
  }

  /** Cancelling the same id twice is cancelling it once. */
  lemma CancelIdempotent(q: Queues, id: int)
    ensures Install(Install(q, Cancel(id)), Cancel(id)) == Install(q, Cancel(id))
  {
    FilterIdempotent(q.playbacks, (p: Playback) => p.commandId != id);
    FilterIdempotent(q.recordings, (r: Recording) => r.commandId != id);
  }

  // ---------------------------------------------------------------------------
  // Mixing a playback into the output

  /** One source mixed into one output channel: `out[i] += source[cursor + i]`
      exactly where `0 <= cursor + i < |source|`. */
  function MixChannel(out: seq<real>, source: seq<real>, cursor: int): (r: seq<real>)
    ensures |r| == |out|
  {
    seq(|out|, i requires 0 <= i < |out| =>
      if 0 <= cursor + i < |source| then out[i] + source[cursor + i] else out[i])
  }

  /** What one playback does to output channel `ch`: nothing when it has no
      source for that channel. */
  function MixOne(out: seq<real>, pb: Playback, ch: nat): (r: seq<real>)
    ensures |r| == |out|
    ensures !(ch < |pb.samples| && pb.samples[ch].Some?) ==> r == out
  {
    if ch < |pb.samples| && pb.samples[ch].Some? then MixChannel(out, pb.samples[ch].value, pb.cursor) else out
  }

  /** Output channel `ch` after every playback of the queue, in queue order. */
  function Mixed(out: seq<real>, pbs: seq<Playback>, ch: nat): (r: seq<real>)
    ensures |r| == |out|
  {
    if pbs == [] then out else MixOne(Mixed(out, pbs[..|pbs| - 1], ch), pbs[|pbs| - 1], ch)
  }

  /** Playing a source over two consecutive blocks, the second one at the
      advanced cursor, is playing it over the two blocks joined: no sample is
      skipped or repeated at the block boundary. */
  lemma MixChannelSplit(o1: seq<real>, o2: seq<real>, source: seq<real>, cursor: int)
    ensures MixChannel(o1 + o2, source, cursor) == MixChannel(o1, source, cursor) + MixChannel(o2, source, cursor + |o1|)
  {
    var whole := MixChannel(o1 + o2, source, cursor);
    var parts := MixChannel(o1, source, cursor) + MixChannel(o2, source, cursor + |o1|);
    forall i | 0 <= i < |whole|
      ensures whole[i] == parts[i]
    {
      if i >= |o1| {
        assert parts[i] == MixChannel(o2, source, cursor + |o1|)[i - |o1|];
      }
    }
  }

  /** A channel no playback has a source for is left as it was. */
  lemma {:induction false} MixedSilentChannel(out: seq<real>, pbs: seq<Playback>, ch: nat)
    requires forall k :: 0 <= k < |pbs| ==> !(ch < |pbs[k].samples| && pbs[k].samples[ch].Some?)
    ensures Mixed(out, pbs, ch) == out
  {
    if pbs != [] {
      MixedSilentChannel(out, pbs[..|pbs| - 1], ch);
    }
  }

  // ---------------------------------------------------------------------------
  // Recording

  /** One block of input copied into a destination buffer:
      `dest[cursor + i] = input[i]` exactly where `0 <= cursor + i < |dest|`. */
  function RecordInto(dest: seq<real>, input: seq<real>, cursor: int): (r: seq<real>)
    ensures |r| == |dest|
  {
    seq(|dest|, j requires 0 <= j < |dest| =>
      if 0 <= j - cursor < |input| then input[j - cursor] else dest[j])
  }

  /** Recording two consecutive blocks, the second one at the advanced cursor,
      is recording the two blocks joined. */
  lemma RecordSplit(dest: seq<real>, x1: seq<real>, x2: seq<real>, cursor: int)
    ensures RecordInto(RecordInto(dest, x1, cursor), x2, cursor + |x1|) == RecordInto(dest, x1 + x2, cursor)
  {
    var twice := RecordInto(RecordInto(dest, x1, cursor), x2, cursor + |x1|);
    var once := RecordInto(dest, x1 + x2, cursor);
    forall j | 0 <= j < |dest|
      ensures twice[j] == once[j]
    {
      if 0 <= j - cursor < |x1| {
      } else if 0 <= j - cursor - |x1| < |x2| {
        assert (x1 + x2)[j - cursor] == x2[j - cursor - |x1|];
      }
    }
  }

  /** The input of a recording's blocks, joined in order. */
  function Joined(blocks: seq<seq<real>>): (s: seq<real>)
  {
    if blocks == [] then [] else Joined(blocks[..|blocks| - 1]) + blocks[|blocks| - 1]
  }

  /** A recording whose cursor starts at `-k` and that hears at least
      `k + |dest|` samples holds exactly the stream from sample `k` on: the
      first `k` samples are dropped and every slot is overwritten. */
  lemma RecordDelayed(dest: seq<real>, stream: seq<real>, k: nat)
    requires |stream| >= k + |dest|
    ensures RecordInto(dest, stream, -(k as int)) == stream[k..k + |dest|]
  {
  }

  /** A recording after one block of `input`. */
  function AfterRecord(r: Recording, input: seq<real>): (a: Recording)
    ensures a.commandId == r.commandId && a.channel == r.channel
    ensures a.cursor == r.cursor + |input| && |a.samples| == |r.samples|
  {
    r.(cursor := r.cursor + |input|, samples := RecordInto(r.samples, input, r.cursor))
  }

  /** A recording fed block after block holds what it would hold had it heard
      the joined stream at once, and its cursor has moved on by the stream's length. */
  lemma {:induction false} RecordBlocks(r: Recording, blocks: seq<seq<real>>)
    ensures RecordedBlocks(r, blocks) == r.(cursor := r.cursor + |Joined(blocks)|, samples := RecordInto(r.samples, Joined(blocks), r.cursor))
  {
    if blocks == [] {
      assert RecordInto(r.samples, [], r.cursor) == r.samples;
    } else {
      var init := blocks[..|blocks| - 1];
      var last := blocks[|blocks| - 1];
      RecordBlocks(r, init);
      RecordSplit(r.samples, Joined(init), last, r.cursor);
    }
  }

  /** A recording after each of the blocks in turn. */
  function RecordedBlocks(r: Recording, blocks: seq<seq<real>>): Recording
  {
    if blocks == [] then r else AfterRecord(RecordedBlocks(r, blocks[..|blocks| - 1]), blocks[|blocks| - 1])
  }

  /** Every recording of the queue after one block of the given input channels. */
  function Recorded(recs: seq<Recording>, channels: seq<seq<real>>): (r: seq<Recording>)
    requires forall k :: 0 <= k < |recs| ==> recs[k].channel < |channels|
    ensures |r| == |recs|
  {
    seq(|recs|, k requires 0 <= k < |recs| => AfterRecord(recs[k], channels[recs[k].channel]))
  }

  // ---------------------------------------------------------------------------
  // Retirement

  /** A playback is still running while some defined source has samples at or
      after its cursor. */
  predicate PlaybackActive(p: Playback)
  {
    exists ch :: 0 <= ch < |p.samples| && p.samples[ch].Some? && p.cursor < |p.samples[ch].value|
  }

  predicate PlaybackDone(p: Playback)
  {
    !PlaybackActive(p)
  }

  predicate RecordingActive(r: Recording)
  {
    r.cursor < |r.samples|
  }

  predicate RecordingDone(r: Recording)
  {
    r.cursor >= |r.samples|
  }

  /** The completion messages of finished playbacks: no payload. */
  function PlaybackResponses(done: seq<Playback>): (m: seq<MeasurementResponse>)
    ensures |m| == |done|
    ensures forall k :: 0 <= k < |done| ==> m[k] == MeasurementResponse(done[k].commandId, None)
  {
    seq(|done|, k requires 0 <= k < |done| => MeasurementResponse(done[k].commandId, None))
  }

  /** The completion messages of finished recordings: their buffers. */
  function RecordingResponses(done: seq<Recording>): (m: seq<MeasurementResponse>)
    ensures |m| == |done|
    ensures forall k :: 0 <= k < |done| ==> m[k] == MeasurementResponse(done[k].commandId, Some(done[k].samples))
  {
    seq(|done|, k requires 0 <= k < |done| => MeasurementResponse(done[k].commandId, Some(done[k].samples)))
  }

  /** Every playback of the queue with its cursor moved on by one block. */
  function Advanced(pbs: seq<Playback>, block: int): (r: seq<Playback>)
    ensures |r| == |pbs|
  {
    seq(|pbs|, k requires 0 <= k < |pbs| => pbs[k].(cursor := pbs[k].cursor + block))
  }

  /** The playback queue after one output block of length `block`. */
  function AfterPlay(pbs: seq<Playback>, block: int): seq<Playback>
  {
    Filter(Advanced(pbs, block), PlaybackActive)
  }

  /** The messages one output block of length `block` posts for playbacks. */
  function PlaySignals(pbs: seq<Playback>, block: int): seq<MeasurementResponse>
  {
    PlaybackResponses(Filter(Advanced(pbs, block), PlaybackDone))
  }

  /** Every playback of a block is either kept or signalled, exactly once. */
  lemma PlaybackRetiredOnce(pbs: seq<Playback>, block: int)
    ensures multiset(AfterPlay(pbs, block)) + multiset(Filter(Advanced(pbs, block), PlaybackDone)) == multiset(Advanced(pbs, block))
    ensures |AfterPlay(pbs, block)| + |PlaySignals(pbs, block)| == |pbs|
  {
    var adv := Advanced(pbs, block);
    FilterPartition(adv, PlaybackActive, PlaybackDone);
    assert |multiset(AfterPlay(pbs, block))| + |multiset(Filter(adv, PlaybackDone))| == |multiset(adv)|;
  }

  /** A playback whose sources are all undefined retires after its first block. */
  lemma SilentPlaybackRetiresAtOnce(p: Playback, block: int)
    requires forall ch :: 0 <= ch < |p.samples| ==> p.samples[ch].None?
    ensures AfterPlay([p], block) == []
    ensures PlaySignals([p], block) == [MeasurementResponse(p.commandId, None)]
  {
    var adv := Advanced([p], block);
    assert adv[0].samples == p.samples;
    assert adv[..0] == [];
    assert PlaybackDone(adv[0]);
  }

  // ---------------------------------------------------------------------------
  // Lifetime of a playback

  /** The playback queue after `k` output blocks of length `block`. */
  function PlayBlocks(pbs: seq<Playback>, block: int, k: nat): seq<Playback>
  {
    if k == 0 then pbs else AfterPlay(PlayBlocks(pbs, block, k - 1), block)
  }

  /** All messages the playbacks post during `k` output blocks. */
  function PlayBlockSignals(pbs: seq<Playback>, block: int, k: nat): seq<MeasurementResponse>
  {
    if k == 0 then [] else PlayBlockSignals(pbs, block, k - 1) + PlaySignals(PlayBlocks(pbs, block, k - 1), block)
  }

  /** The number of blocks of length `block` needed to cover `n` samples. */
  function BlocksToCover(n: int, block: int): (k: int)
    requires n > 0 && block > 0
    ensures k >= 1
  {
    (n + block - 1) / block
  }

  /** BlocksToCover(n, block) is ⌈n / block⌉: the fewest blocks whose total
      length reaches n. */
  lemma BlocksCover(n: int, block: int)
    requires n > 0 && block > 0
    ensures var k := BlocksToCover(n, block); (k - 1) * block < n <= k * block
  {
    DivisionBounds(n + block - 1, block);
  }

  lemma DivisionBounds(m: int, b: int)
    requires m >= 0 && b > 0
    ensures (m / b) * b <= m < (m / b) * b + b
  {
  }

  lemma MultiplyMonotone(x: int, y: int, b: int)
    requires x <= y && b > 0
    ensures x * b <= y * b
  {
  }

  /** One block of a queue holding a single playback: it stays, with its cursor
      moved on, while it is active, and otherwise leaves with one message. */
  lemma SingleBlock(q: Playback, block: int)
    ensures var next := q.(cursor := q.cursor + block);
      && (PlaybackActive(next) ==> AfterPlay([q], block) == [next] && PlaySignals([q], block) == [])
      && (!PlaybackActive(next) ==> AfterPlay([q], block) == [] && PlaySignals([q], block) == [MeasurementResponse(q.commandId, None)])
  {
    var adv := Advanced([q], block);
    assert adv == [q.(cursor := q.cursor + block)];
    assert adv[..0] == [];
  }

  /** An empty queue stays empty and posts nothing. */
  lemma EmptyBlock(block: int)
    ensures AfterPlay([], block) == [] && PlaySignals([], block) == []
  {
    assert Advanced([], block) == [];
  }

  /** The cursor after `k` blocks is before the end of the source exactly
      while fewer than BlocksToCover blocks have run. */
  lemma CursorAfterBlocks(cursor: int, len: int, block: int, k: nat)
    requires block > 0 && cursor < len
    ensures cursor + (k + 1) * block == cursor + k * block + block
    ensures k + 1 < BlocksToCover(len - cursor, block) ==> cursor + (k + 1) * block < len
    ensures k + 1 >= BlocksToCover(len - cursor, block) ==> cursor + (k + 1) * block >= len
  {
    var blocks := BlocksToCover(len - cursor, block);
    BlocksCover(len - cursor, block);
    if k + 1 < blocks {
      MultiplyMonotone(k + 1, blocks - 1, block);
    } else {
      MultiplyMonotone(blocks, k + 1, block);
    }
  }

  /** The cursor after `k` blocks of length `block`, one block at a time. */
  function Shifted(cursor: int, block: int, k: nat): int
  {
    if k == 0 then cursor else Shifted(cursor, block, k - 1) + block
  }

  /** After k blocks the cursor has moved by k · block. */
  lemma {:induction false} ShiftedIsProduct(cursor: int, block: int, k: nat)
    ensures Shifted(cursor, block, k) == cursor + k * block
  {
    if k > 0 {
      ShiftedIsProduct(cursor, block, k - 1);
      assert (k - 1) * block + block == k * block;
    }
  }

  /** While fewer than BlocksToCover blocks have run, the playback is still
      queued with its cursor moved on by one block per block, and nothing has
      been posted. */
  lemma PlaybackRunning(p: Playback, block: int, k: nat)
    requires |p.samples| == 1 && p.samples[0].Some?
    requires block > 0 && p.cursor < |p.samples[0].value|
    requires k < BlocksToCover(|p.samples[0].value| - p.cursor, block)
    ensures PlayBlocks([p], block, k) == [p.(cursor := p.cursor + k * block)]
    ensures PlayBlockSignals([p], block, k) == []
  {
    RunningShifted(p, block, k);
    ShiftedIsProduct(p.cursor, block, k);
    assert p.(cursor := Shifted(p.cursor, block, k)) == p.(cursor := p.cursor + k * block);
  }

  /** PlaybackRunning, with the cursor counted block by block. */
  lemma {:induction false} RunningShifted(p: Playback, block: int, k: nat)
    requires |p.samples| == 1 && p.samples[0].Some?
    requires block > 0 && p.cursor < |p.samples[0].value|
    requires k < BlocksToCover(|p.samples[0].value| - p.cursor, block)
    ensures PlayBlocks([p], block, k) == [p.(cursor := Shifted(p.cursor, block, k))]
    ensures PlayBlockSignals([p], block, k) == []
  {
    if k > 0 {
      RunningShifted(p, block, k - 1);
      var q := p.(cursor := Shifted(p.cursor, block, k - 1));
      RunningStep(p, block, k);
      assert q.(cursor := q.cursor + block) == p.(cursor := Shifted(p.cursor, block, k));
      StepKept([p], block, k, q);
    }
  }

  /** A queue holding one playback that stays active after the next block
      still holds it, moved on by one block, and posts nothing. */
  lemma StepKept(pbs: seq<Playback>, block: int, k: nat, q: Playback)
    requires k > 0 && PlayBlocks(pbs, block, k - 1) == [q] && PlayBlockSignals(pbs, block, k - 1) == []
    requires PlaybackActive(q.(cursor := q.cursor + block))
    ensures PlayBlocks(pbs, block, k) == [q.(cursor := q.cursor + block)]
    ensures PlayBlockSignals(pbs, block, k) == []
  {
    SingleBlock(q, block);
  }

  /** The step of RunningShifted: one more block keeps the playback active. */
  lemma RunningStep(p: Playback, block: int, k: nat)
    requires |p.samples| == 1 && p.samples[0].Some?
    requires block > 0 && p.cursor < |p.samples[0].value|
    requires 0 < k < BlocksToCover(|p.samples[0].value| - p.cursor, block)
    ensures PlaybackActive(p.(cursor := Shifted(p.cursor, block, k)))
  {
    CursorAfterBlocks(p.cursor, |p.samples[0].value|, block, k - 1);
    ShiftedIsProduct(p.cursor, block, k);
    var next := p.(cursor := Shifted(p.cursor, block, k));
    assert next.samples[0].Some? && next.cursor < |next.samples[0].value|;
  }

  /** A playback with one source of length L > 0 whose cursor starts at -D
      (with L + D > 0) runs for exactly BlocksToCover(L + D, block) blocks of
      length `block`: from then on it is gone, having posted exactly one
      message, with no payload (before, PlaybackRunning holds). */
  lemma {:induction false} PlaybackFinished(p: Playback, block: int, k: nat)
    requires |p.samples| == 1 && p.samples[0].Some?
    requires block > 0 && p.cursor < |p.samples[0].value|
    requires k >= BlocksToCover(|p.samples[0].value| - p.cursor, block)
    ensures PlayBlocks([p], block, k) == []
    ensures PlayBlockSignals([p], block, k) == [MeasurementResponse(p.commandId, None)]
  {
    if k == BlocksToCover(|p.samples[0].value| - p.cursor, block) {
      PlaybackLastBlock(p, block);
    } else {
      PlaybackFinished(p, block, k - 1);
      EmptyBlock(block);
    }
  }

  /** The block in which the playback's cursor reaches the end of its source. */
  lemma PlaybackLastBlock(p: Playback, block: int)
    requires |p.samples| == 1 && p.samples[0].Some?
    requires block > 0 && p.cursor < |p.samples[0].value|
    ensures var k := BlocksToCover(|p.samples[0].value| - p.cursor, block);
      PlayBlocks([p], block, k) == [] && PlayBlockSignals([p], block, k) == [MeasurementResponse(p.commandId, None)]
  {
    var k := BlocksToCover(|p.samples[0].value| - p.cursor, block);
    PlaybackRunning(p, block, k - 1);
    var q := p.(cursor := p.cursor + (k - 1) * block);
    LastStep(p, block, k);
    FinalBlock([p], block, k, q);
  }

  /** A block that leaves the only playback inactive empties the queue and
      posts its one response. */
  lemma FinalBlock(pbs: seq<Playback>, block: int, k: nat, q: Playback)
    requires k > 0 && PlayBlocks(pbs, block, k - 1) == [q] && PlayBlockSignals(pbs, block, k - 1) == []
    requires !PlaybackActive(q.(cursor := q.cursor + block))
    ensures PlayBlocks(pbs, block, k) == []
    ensures PlayBlockSignals(pbs, block, k) == [MeasurementResponse(q.commandId, None)]
  {
    SingleBlock(q, block);
  }

  /** The step of PlaybackLastBlock: the block that takes the cursor past the
      end of the source leaves the playback inactive. */
  lemma LastStep(p: Playback, block: int, k: nat)
    requires |p.samples| == 1 && p.samples[0].Some?
    requires block > 0 && p.cursor < |p.samples[0].value|
    requires k == BlocksToCover(|p.samples[0].value| - p.cursor, block)
    ensures var q := p.(cursor := p.cursor + (k - 1) * block);
      !PlaybackActive(q.(cursor := q.cursor + block))
  {
    CursorAfterBlocks(p.cursor, |p.samples[0].value|, block, k - 1);
    var q := p.(cursor := p.cursor + (k - 1) * block);
    var next := q.(cursor := q.cursor + block);
    assert next.samples == p.samples;
    assert next.cursor >= |next.samples[0].value|;
  }

  // ---------------------------------------------------------------------------
  // The processor

  /** Output channels of the first output, the only one the processor writes. */
  function OutputChannels(outputs: seq<seq<array<real>>>): set<array<real>>
  {
    if |outputs| == 0 then {} else set a | a in outputs[0]
  }

  /** The host hands over distinct channel buffers. */
  predicate DistinctChannels(outs: seq<array<real>>)
  {
    forall i, j :: 0 <= i < j < |outs| ==> outs[i] != outs[j]
  }

  class MeasurementProcessor {
    var playbacks: seq<Playback>
    var recordings: seq<Recording>
    /** Everything `sendDone` has posted, oldest first. */
    var outbox: seq<MeasurementResponse>

    constructor()
      ensures playbacks == [] && recordings == [] && outbox == []
    {
      playbacks := [];
      recordings := [];
      outbox := [];
    }

    function Queued(): Queues
      reads this
    {
      Queues(playbacks, recordings)
    }

    /** `handleMessage`: every command of the message in order; nothing is posted. */
    method HandleMessage(data: Message)
      modifies this
      ensures Queued() == Installed(old(Queued()), Commands(data))
      ensures outbox == old(outbox)
    {
      var commands := Commands(data);
      for i := 0 to |commands|
        invariant Queued() == Installed(old(Queued()), commands[..i])
        invariant outbox == old(outbox)
      {
        var cmd := commands[i];
        match cmd {
          case Play(id, cursor, sources) =>
            playbacks := playbacks + [Playback(id, cursor, sources)];
          case Record(id, cursor, buffer, channel) =>
            var samples := if buffer.Length? then Zeros(buffer.count) else buffer.data;
            recordings := recordings + [Recording(id, cursor, samples, channel)];
          case Cancel(id) =>
            playbacks := Filter(playbacks, (p: Playback) => p.commandId != id);
            recordings := Filter(recordings, (r: Recording) => r.commandId != id);
        }
        InstallConcat(old(Queued()), commands[..i], [cmd]);
        assert commands[..i + 1] == commands[..i] + [cmd];
        assert Installed(Install(Installed(old(Queued()), commands[..i]), cmd), []) == Install(Installed(old(Queued()), commands[..i]), cmd);
      }
      assert commands[..|commands|] == commands;
    }

    /** `sendDone`: one message appended to the outbox. */
    method SendDone(commandId: int, result: Option<seq<real>>)
      modifies this
      ensures outbox == old(outbox) + [MeasurementResponse(commandId, result)]
      ensures Queued() == old(Queued())
    {
      outbox := outbox + [MeasurementResponse(commandId, result)];
    }

    /** `process`: one render block. Playbacks are mixed and retired when there
        is an output channel, recordings filled and retired when there is an
        input channel; playback messages precede recording messages. */
    method Process(inputs: seq<seq<seq<real>>>, outputs: seq<seq<array<real>>>) returns (keepAlive: bool)
      requires |outputs| > 0 ==> DistinctChannels(outputs[0])
      requires |inputs| > 0 && |inputs[0]| > 0 ==> forall k :: 0 <= k < |recordings| ==> recordings[k].channel < |inputs[0]|
      modifies this, OutputChannels(outputs)
      ensures var playing := |outputs| > 0 && |outputs[0]| > 0;
        var recording := |inputs| > 0 && |inputs[0]| > 0;
        && (playing ==> forall ch :: 0 <= ch < |outputs[0]| ==> outputs[0][ch][..] == Mixed(old(outputs[0][ch][..]), old(playbacks), ch))
        && playbacks == (if playing then AfterPlay(old(playbacks), outputs[0][0].Length) else old(playbacks))
        && recordings == (if recording then Filter(Recorded(old(recordings), inputs[0]), RecordingActive) else old(recordings))
        && outbox == old(outbox)
             + (if playing then PlaySignals(old(playbacks), outputs[0][0].Length) else [])
             + (if recording then RecordingResponses(Filter(Recorded(old(recordings), inputs[0]), RecordingDone)) else [])
      ensures keepAlive
    {
      var signals: seq<MeasurementResponse> := [];
      if |outputs| > 0 && |outputs[0]| > 0 {
        var advanced := MixPlaybacks(playbacks, outputs[0]);
        var kept, done := RetirePlaybacks(advanced);
        playbacks := kept;
        signals := done;
      }
      outbox := outbox + signals;
      if |inputs| > 0 && |inputs[0]| > 0 {
        var updated := RecordAll(recordings, inputs[0]);
        var kept, done := RetireRecordings(updated);
        recordings := kept;
        outbox := outbox + done;
      }
      keepAlive := true;
    }
  }

  // ---------------------------------------------------------------------------
  // The loops of `process`

  /** The inner loop: `out[i] += source[cursor + i]`, skipping offsets before
      the source and stopping at its end. */
  method MixChannelInto(out: array<real>, source: seq<real>, cursor: int)
    modifies out
    ensures out[..] == MixChannel(old(out[..]), source, cursor)
  {
    for i := 0 to out.Length
      invariant forall j :: 0 <= j < i ==> out[j] == MixChannel(old(out[..]), source, cursor)[j]
      invariant forall j :: i <= j < out.Length ==> out[j] == old(out[j])
    {
      if cursor + i < 0 {
        continue;
      }
      if cursor + i >= |source| {
        break;
      }
      out[i] := out[i] + source[cursor + i];
    }
  }

  /** One playback mixed into every output channel it has a source for. */
  method MixPlayback(pb: Playback, outs: seq<array<real>>)
    requires DistinctChannels(outs)
    modifies set a | a in outs
    ensures forall ch :: 0 <= ch < |outs| ==> outs[ch][..] == MixOne(old(outs[ch][..]), pb, ch)
  {
    for channelIdx := 0 to |pb.samples|
      invariant forall ch :: 0 <= ch < |outs| && ch < channelIdx ==> outs[ch][..] == MixOne(old(outs[ch][..]), pb, ch)
      invariant forall ch :: 0 <= ch < |outs| && channelIdx <= ch ==> outs[ch][..] == old(outs[ch][..])
    {
      if pb.samples[channelIdx].None? {
        continue;
      }
      if channelIdx >= |outs| {
        continue;
      }
      MixChannelInto(outs[channelIdx], pb.samples[channelIdx].value, pb.cursor);
    }
  }

  /** The playback loop: every playback mixed in queue order, then its cursor
      moved on by the length of the first output channel. */
  method MixPlaybacks(pbs: seq<Playback>, outs: seq<array<real>>) returns (advanced: seq<Playback>)
    requires |outs| > 0 && DistinctChannels(outs)
    modifies set a | a in outs
    ensures advanced == Advanced(pbs, outs[0].Length)
    ensures forall ch :: 0 <= ch < |outs| ==> outs[ch][..] == Mixed(old(outs[ch][..]), pbs, ch)
  {
    var block := outs[0].Length;
    advanced := [];
    for k := 0 to |pbs|
      invariant advanced == Advanced(pbs[..k], block)
      invariant forall ch :: 0 <= ch < |outs| ==> outs[ch][..] == Mixed(old(outs[ch][..]), pbs[..k], ch)
    {
      MixPlayback(pbs[k], outs);
      assert pbs[..k + 1][..k] == pbs[..k];
      advanced := advanced + [pbs[k].(cursor := pbs[k].cursor + block)];
    }
    assert pbs[..|pbs|] == pbs;
  }

  /** The playback filter: finished playbacks are dropped and signalled in order. */
  method RetirePlaybacks(pbs: seq<Playback>) returns (kept: seq<Playback>, signals: seq<MeasurementResponse>)
    ensures kept == Filter(pbs, PlaybackActive)
    ensures signals == PlaybackResponses(Filter(pbs, PlaybackDone))
  {
    kept := [];
    signals := [];
    for k := 0 to |pbs|
      invariant kept == Filter(pbs[..k], PlaybackActive)
      invariant signals == PlaybackResponses(Filter(pbs[..k], PlaybackDone))
    {
      var p := pbs[k];
      assert pbs[..k + 1][..k] == pbs[..k];
      if !PlaybackActive(p) {
        signals := signals + [MeasurementResponse(p.commandId, None)];
      } else {
        kept := kept + [p];
      }
    }
    assert pbs[..|pbs|] == pbs;
  }

  /** The copy loop: `dest[cursor + i] = input[i]`, skipping offsets before the
      buffer and stopping at its end. */
  method RecordBlock(dest: seq<real>, input: seq<real>, cursor: int) returns (r: seq<real>)
    ensures r == RecordInto(dest, input, cursor)
  {
    var samples := new real[|dest|](j requires 0 <= j < |dest| => dest[j]);
    for i := 0 to |input|
      invariant forall j :: 0 <= j < samples.Length ==> samples[j] == (if 0 <= j - cursor < i then input[j - cursor] else dest[j])
    {
      if cursor + i < 0 {
        continue;
      }
      if cursor + i >= samples.Length {
        break;
      }
      samples[cursor + i] := input[i];
    }
    r := samples[..];
  }

  /** The recording loop: every recording fills its buffer from its input
      channel and moves its cursor on by the input length. */
  method RecordAll(recs: seq<Recording>, channels: seq<seq<real>>) returns (updated: seq<Recording>)
    requires forall k :: 0 <= k < |recs| ==> recs[k].channel < |channels|
    ensures updated == Recorded(recs, channels)
  {
    updated := [];
    for k := 0 to |recs|
      invariant |updated| == k
      invariant forall m :: 0 <= m < k ==> updated[m] == AfterRecord(recs[m], channels[recs[m].channel])
    {
      var rec := recs[k];
      var input := channels[rec.channel];
      var samples := RecordBlock(rec.samples, input, rec.cursor);
      updated := updated + [rec.(cursor := rec.cursor + |input|, samples := samples)];
    }
  }

  /** The recording filter: full recordings are dropped and signalled with their buffers. */
  method RetireRecordings(recs: seq<Recording>) returns (kept: seq<Recording>, signals: seq<MeasurementResponse>)
    ensures kept == Filter(recs, RecordingActive)
    ensures signals == RecordingResponses(Filter(recs, RecordingDone))
  {
    kept := [];
    signals := [];
    for k := 0 to |recs|
      invariant kept == Filter(recs[..k], RecordingActive)
      invariant signals == RecordingResponses(Filter(recs[..k], RecordingDone))
    {
      var r := recs[k];
      assert recs[..k + 1][..k] == recs[..k];
      if r.cursor >= |r.samples| {
        signals := signals + [MeasurementResponse(r.commandId, Some(r.samples))];
      } else {
        kept := kept + [r];
      }
    }
    assert recs[..|recs|] == recs;
  }
}
