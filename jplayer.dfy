/** The JACK file player: a bounded queue of decoded blocks filled by the
    reading side and drained, one block per period, by the real-time
    `process` callback. */
module JackPlayer {

  import opened Wrappers
  import PyText

  /** A float32 sample; samples are only ever copied or zeroed. */
  type Sample = real

  /** One decoded block, channel by channel (the transpose `data.T` of the
      frames-by-channels array the decoder yields). */
  datatype Block = Block(channels: seq<seq<Sample>>)

  /** An entry of the queue: a block, or the `None` that marks end of file. */
  datatype Item = EndOfStream | Data(block: Block)

  /** Every channel of the block holds exactly `frames` samples, as the
      decoder guarantees when asked for blocks of that size with zero fill. */
  ghost predicate Fits(b: Block, frames: nat)
  {
    forall c :: 0 <= c < |b.channels| ==> |b.channels[c]| == frames
  }

  /** Every block among the entries fits (stated recursively, so that the
      solver unfolds it only where a proof needs it). */
  ghost predicate AllFit(items: seq<Item>, frames: nat)
  {
    items == [] || ((items[0].Data? ==> Fits(items[0].block, frames)) && AllFit(items[1..], frames))
  }

  ghost predicate BlocksFit(blocks: seq<Block>, frames: nat)
  {
    forall i :: 0 <= i < |blocks| ==> Fits(blocks[i], frames)
  }

  lemma {:induction false} AllFitAppend(items: seq<Item>, x: Item, frames: nat)
    requires AllFit(items, frames) && (x.Data? ==> Fits(x.block, frames))
    ensures AllFit(items + [x], frames)
  {
    if items != [] {
      AllFitAppend(items[1..], x, frames);
      assert (items + [x])[1..] == items[1..] + [x];
    } else {
      assert [x][1..] == [];
    }
  }

  /** The queue entries for a run of blocks, in order. */
  function Items(blocks: seq<Block>): (r: seq<Item>)
    ensures |r| == |blocks|
    ensures forall i :: 0 <= i < |blocks| ==> r[i] == Data(blocks[i])
  {
    seq(|blocks|, i requires 0 <= i < |blocks| => Data(blocks[i]))
  }

  lemma ItemsSnoc(blocks: seq<Block>, k: nat)
    requires k < |blocks|
    ensures Items(blocks[..k + 1]) == Items(blocks[..k]) + [Data(blocks[k])]
  {
    assert blocks[..k + 1] == blocks[..k] + [blocks[k]];
  }

  /** Putting block k after whatever preceded the first k blocks. */
  lemma ItemsSnocAfter(before: seq<Item>, blocks: seq<Block>, k: nat)
    requires k < |blocks|
    ensures (before + Items(blocks[..k])) + [Data(blocks[k])] == before + Items(blocks[..k + 1])
  {
    ItemsSnoc(blocks, k);
  }

  /** The blocks put before and after position k, then the end marker. */
  lemma ItemsJoin(before: seq<Item>, blocks: seq<Block>, k: nat)
    requires k <= |blocks|
    ensures (before + Items(blocks[..k])) + Items(blocks[k..]) + [EndOfStream] == before + Items(blocks) + [EndOfStream]
  {
    assert Items(blocks) == Items(blocks[..k]) + Items(blocks[k..]);
  }

  lemma BlocksFitSuffix(blocks: seq<Block>, k: nat, frames: nat)
    requires k <= |blocks| && BlocksFit(blocks, frames)
    ensures BlocksFit(blocks[k..], frames)
  {
    forall i | 0 <= i < |blocks[k..]| ensures Fits(blocks[k..][i], frames) {
      assert blocks[k..][i] == blocks[k + i];
    }
  }

  function Min(a: int, b: int): int
  {
    if a <= b then a else b
  }

  /** The entries a ring buffer `b` holds from slot `start` on, `len` of them,
      wrapping past the last slot to the first. */
  function Ring(b: seq<Item>, start: nat, len: nat): (r: seq<Item>)
    requires start < |b| && len <= |b|
    ensures |r| == len
    ensures forall k :: 0 <= k < len ==> r[k] == b[if start + k < |b| then start + k else start + k - |b|]
  {
    if start + len <= |b| then b[start..start + len] else b[start..] + b[..start + len - |b|]
  }

  /** Writing the slot after the last entry appends the written entry. */
  lemma RingPush(b: seq<Item>, start: nat, len: nat, x: Item)
    requires start < |b| && len < |b|
    ensures var i := if start + len < |b| then start + len else start + len - |b|;
      Ring(b[i := x], start, len + 1) == Ring(b, start, len) + [x]
  {
  }

  /** Taking the first entry moves the start one slot on, wrapping. */
  lemma RingPop(b: seq<Item>, start: nat, len: nat)
    requires start < |b| && 0 < len <= |b|
    ensures Ring(b, start, len)[0] == b[start]
    ensures Ring(b, if start + 1 == |b| then 0 else start + 1, len - 1) == Ring(b, start, len)[1..]
  {
  }

  /** Moving the oldest entry from the contents to the taken entries keeps
      their concatenation. */
  lemma PopShift(popped: seq<Item>, contents: seq<Item>)
    requires contents != []
    ensures (popped + [contents[0]]) + contents[1..] == popped + contents
  {
    assert contents == [contents[0]] + contents[1..];
  }

  /** `queue.Queue(maxsize)`, as a ring buffer. `Pushed` and `Popped` record
      every entry ever put and ever taken; the invariant `Pushed == Popped +
      Contents` is the FIFO guarantee: what comes out is a prefix of what went
      in, in the same order. */
  class BlockQueue {
    ghost var Contents: seq<Item>
    ghost var Pushed: seq<Item>
    ghost var Popped: seq<Item>
    ghost var Repr: set<object>

    const maxsize: nat
    var buf: array<Item>
    var start: nat
    var len: nat

    ghost predicate Valid()
      reads this, Repr
    {
      && this in Repr && buf in Repr
      && buf.Length == maxsize && maxsize >= 1
      && start < maxsize && len <= maxsize
      && Contents == Ring(buf[..], start, len)
      && Pushed == Popped + Contents
    }

    constructor (maxsize: nat)
      requires maxsize >= 1
      ensures Valid() && fresh(Repr)
      ensures this.maxsize == maxsize
      ensures Contents == [] && Pushed == [] && Popped == []
    {
      this.maxsize := maxsize;
      buf := new Item[maxsize];
      start, len := 0, 0;
      Contents, Pushed, Popped := [], [], [];
      Repr := {this, buf};
    }

    /** `put_nowait(x)`, and `put(x, timeout)` when nothing drains the queue
        meanwhile: enqueue when there is room, otherwise `queue.Full`
        (`ok` false) and the queue is left alone. */
    method Put(x: Item) returns (ok: bool)
      requires Valid()
      modifies Repr
      ensures Valid() && Repr == old(Repr)
      ensures ok == (|old(Contents)| < maxsize)
      ensures Contents == if ok then old(Contents) + [x] else old(Contents)
      ensures Pushed == if ok then old(Pushed) + [x] else old(Pushed)
      ensures Popped == old(Popped)
    {
      if len == maxsize {
        ok := false;
        return;
      }
      var i := if start + len < maxsize then start + len else start + len - maxsize;
      RingPush(buf[..], start, len, x);
      buf[i] := x;
      len := len + 1;
      Contents := Contents + [x];
      Pushed := Pushed + [x];
      ok := true;
    }

    /** `get_nowait()`: the oldest entry, or `None` for `queue.Empty`;
        it never waits. */
    method GetNowait() returns (r: Option<Item>)
      requires Valid()
      modifies Repr
      ensures Valid() && Repr == old(Repr)
      ensures old(Contents) == [] ==> r == None && Contents == [] && Popped == old(Popped)
      ensures old(Contents) != [] ==> && r == Some(old(Contents)[0])
                                      && Contents == old(Contents)[1..]
                                      && Popped == old(Popped) + [old(Contents)[0]]
      ensures Pushed == old(Pushed)
    {
      if len == 0 {
        r := None;
        return;
      }
      RingPop(buf[..], start, len);
      PopShift(Popped, Contents);
      r := Some(buf[start]);
      start, len := if start + 1 == maxsize then 0 else start + 1, len - 1;
      Contents := Contents[1..];
      Popped := Popped + [r.value];
    }
  }

  /** Why the callback stopped playback. */
  datatype StopReason = BlocksizeChanged | Underrun | Finished

  /** What one `process` call leaves behind: keep going, or `CallbackExit`. */
  datatype CallbackResult = Continue | Stop(reason: StopReason)

  /** The end of `play`: the end-of-file marker was queued, or a put found
      the queue full (`queue.Full`, after which the program exits with 1). */
  datatype PlayOutcome = Queued | QueueFull

  /** The names `init_output_channel(width)` registers. */
  function PortNames(width: nat): (r: seq<string>)
    ensures |r| == width
  {
    seq(width, k requires 0 <= k < width => "AZPlayer Out " + PyText.NatToString(k + 1))
  }

  lemma PortNamesSnoc(width: nat)
    requires width >= 1
    ensures PortNames(width) == PortNames(width - 1) + ["AZPlayer Out " + PyText.NatToString(width)]
  {
  }

  /** The registered names are `AZPlayer Out 1` up to `AZPlayer Out width`,
      all different. */
  lemma PortNamesDistinct(width: nat, a: nat, b: nat)
    requires a < width && b < width && a != b
    ensures PortNames(width)[a] != PortNames(width)[b]
  {
    var prefix := "AZPlayer Out ";
    var sa, sb := PyText.NatToString(a + 1), PyText.NatToString(b + 1);
    if prefix + sa == prefix + sb {
      assert sa == (prefix + sa)[|prefix|..];
      assert sb == (prefix + sb)[|prefix|..];
      PyText.NatToStringInjective(a + 1, b + 1);
    }
  }

  /** The connections the auto-patching makes, as (own port, physical port)
      index pairs: a single output port feeds the first two physical inputs
      (dual mono); otherwise ports pair up one to one as far as both lists go. */
  function PatchPlan(outs: nat, targets: nat): seq<(nat, nat)>
  {
    if outs == 1 && targets > 1 then [(0, 0), (0, 1)]
    else seq(Min(outs, targets), k requires 0 <= k < Min(outs, targets) => (k, k))
  }

  /** Every connection joins a port that exists to a target that exists; in
      the dual-mono case port 0 reaches exactly targets 0 and 1, otherwise
      port k reaches target k and no other. */
  lemma {:induction false} PatchPlanShape(outs: nat, targets: nat)
    ensures forall e :: e in PatchPlan(outs, targets) ==> e.0 < outs && e.1 < targets
    ensures outs == 1 && targets > 1 ==> PatchPlan(outs, targets) == [(0, 0), (0, 1)]
    ensures !(outs == 1 && targets > 1) ==>
      && |PatchPlan(outs, targets)| == Min(outs, targets)
      && forall k :: 0 <= k < Min(outs, targets) ==> PatchPlan(outs, targets)[k] == (k, k)
  {
    if !(outs == 1 && targets > 1) {
      var p := PatchPlan(outs, targets);
      forall e | e in p ensures e.0 < outs && e.1 < targets {
        var k :| 0 <= k < |p| && p[k] == e;
      }
    }
  }

  class Player {
    const buffersize: nat
    const blocksize: nat
    const clientName: string
    const outputWidth: nat
    const autopatchOutput: bool

    var q: BlockQueue
    /** Names of the registered output ports, in registration order. */
    var portNames: seq<string>
    /** The output port buffers: `out[k, t]` is sample t of port k's buffer. */
    var out: array2<Sample>
    /** `self.event`: set once playback has stopped. */
    var done: bool
    /** Connections made so far, as (own port, physical port) index pairs. */
    var connections: seq<(nat, nat)>
    ghost var Repr: set<object>

    ghost predicate Valid()
      reads this, Repr
    {
      && this in Repr && q in Repr && out in Repr
      && q.Repr <= Repr && this !in q.Repr && out !in q.Repr
      && q.Valid() && q.maxsize == buffersize
      && out.Length0 == |portNames| && out.Length1 == blocksize
      && AllFit(q.Contents, blocksize)
    }

    /** All output port buffers hold zeros. */
    ghost predicate Silent()
      reads this, out
    {
      forall k, t :: 0 <= k < out.Length0 && 0 <= t < out.Length1 ==> out[k, t] == 0.0
    }

    /** `JackPlayer(buffersize, clientname)` on a client whose period is
        `blocksize` frames: an empty queue bounded by `buffersize` and the
        two output ports. */
    constructor (buffersize: nat, clientName: string, blocksize: nat)
      requires buffersize >= 1
      ensures Valid() && fresh(Repr)
      ensures this.buffersize == buffersize && this.blocksize == blocksize && this.clientName == clientName
      ensures outputWidth == 2 && autopatchOutput
      ensures q.Contents == [] && q.Pushed == [] && q.Popped == []
      ensures portNames == ["AZPlayer Out 1", "AZPlayer Out 2"]
      ensures !done && connections == []
    {
      this.buffersize := buffersize;
      this.blocksize := blocksize;
      this.clientName := clientName;
      outputWidth := 2;
      autopatchOutput := true;
      var queue := new BlockQueue(buffersize);
      q := queue;
      portNames := [];
      var buffers := new Sample[0, blocksize];
      out := buffers;
      done := false;
      connections := [];
      Repr := {this, buffers} + queue.Repr;
      new;
      InitOutputChannel(outputWidth);
      assert PyText.NatToString(1) == "1" && PyText.NatToString(2) == "2";
      assert PortNames(2)[0] == "AZPlayer Out 1" && PortNames(2)[1] == "AZPlayer Out 2";
    }

    /** `init_output_channel(width)`: registers `width` more ports, named
        `AZPlayer Out 1` to `AZPlayer Out width`. */
    method InitOutputChannel(width: nat)
      requires Valid()
      modifies this
      ensures Valid() && fresh(Repr - old(Repr))
      ensures portNames == old(portNames) + PortNames(width)
      ensures q == old(q) && done == old(done) && connections == old(connections)
    {
      var ch := 1;
      while ch <= width
        invariant 1 <= ch <= width + 1
        invariant portNames == old(portNames) + PortNames(ch - 1)
        invariant Repr == old(Repr) && q == old(q) && out == old(out)
        invariant done == old(done) && connections == old(connections)
      {
        PortNamesSnoc(ch);
        portNames := portNames + ["AZPlayer Out " + PyText.NatToString(ch)];
        ch := ch + 1;
      }
      var buffers := new Sample[|portNames|, blocksize];
      out := buffers;
      Repr := Repr + {buffers};
    }

    /** `stop_callback`: zero every output port, set the event, and leave the
        callback. */
    method StopCallback(reason: StopReason) returns (r: CallbackResult)
      requires Valid()
      modifies this`done, out
      ensures Valid()
      ensures r == Stop(reason) && done && Silent()
    {
      var k := 0;
      while k < out.Length0
        invariant 0 <= k <= out.Length0
        invariant forall a, t :: 0 <= a < k && 0 <= t < out.Length1 ==> out[a, t] == 0.0
      {
        var t := 0;
        while t < out.Length1
          invariant 0 <= t <= out.Length1
          invariant forall a, u :: 0 <= a < k && 0 <= u < out.Length1 ==> out[a, u] == 0.0
          invariant forall u :: 0 <= u < t ==> out[k, u] == 0.0
        {
          out[k, t] := 0.0;
          t := t + 1;
        }
        k := k + 1;
      }
      done := true;
      r := Stop(reason);
    }

    /** Copies channel k of the block to port k while both last; the other
        ports keep what they held. */
    method CopyChannels(b: Block)
      requires Valid() && Fits(b, blocksize)
      modifies out
      ensures Valid()
      ensures forall k, t :: 0 <= k < out.Length0 && 0 <= t < out.Length1 ==>
        out[k, t] == if k < |b.channels| then b.channels[k][t] else old(out[k, t])
    {
      var n := Min(|b.channels|, out.Length0);
      var k := 0;
      while k < n
        invariant 0 <= k <= n
        invariant forall a, t :: 0 <= a < out.Length0 && 0 <= t < out.Length1 ==>
          out[a, t] == if a < k then b.channels[a][t] else old(out[a, t])
      {
        var t := 0;
        while t < out.Length1
          invariant 0 <= t <= out.Length1
          invariant forall a, u :: 0 <= a < out.Length0 && 0 <= u < out.Length1 && a != k ==>
            out[a, u] == if a < k then b.channels[a][u] else old(out[a, u])
          invariant forall u :: 0 <= u < out.Length1 ==>
            out[k, u] == if u < t then b.channels[k][u] else old(out[k, u])
        {
          out[k, t] := b.channels[k][t];
          t := t + 1;
        }
        k := k + 1;
      }
    }

    /** `process(frames)`: a changed period size stops before the queue is
        touched; an empty queue is an underrun; the end-of-file marker stops
        normally; a block is copied to the ports. Every stop silences all
        ports and sets the event; nothing here waits. */
    method Process(frames: nat) returns (r: CallbackResult)
      requires Valid()
      modifies this`done, out, q.Repr
      ensures Valid() && q == old(q) && q.Repr == old(q.Repr)
      ensures q.Pushed == old(q.Pushed)
      ensures frames != blocksize ==>
        && r == Stop(BlocksizeChanged) && done && Silent()
        && q.Contents == old(q.Contents) && q.Popped == old(q.Popped)
      ensures frames == blocksize && old(q.Contents) == [] ==>
        && r == Stop(Underrun) && done && Silent()
        && q.Contents == [] && q.Popped == old(q.Popped)
      ensures frames == blocksize && old(q.Contents) != [] ==>
        && q.Contents == old(q.Contents)[1..]
        && q.Popped == old(q.Popped) + [old(q.Contents)[0]]
      ensures frames == blocksize && old(q.Contents) != [] && old(q.Contents)[0] == EndOfStream ==>
        r == Stop(Finished) && done && Silent()
      ensures frames == blocksize && old(q.Contents) != [] && old(q.Contents)[0].Data? ==>
        && r == Continue && done == old(done)
        && var b := old(q.Contents)[0].block;
           forall k, t :: 0 <= k < out.Length0 && 0 <= t < out.Length1 ==>
             out[k, t] == if k < |b.channels| then b.channels[k][t] else old(out[k, t])
    {
      if frames != blocksize {
        r := StopCallback(BlocksizeChanged);
        return;
      }
      var item := q.GetNowait();
      if item.None? {
        r := StopCallback(Underrun);
        return;
      }
      if item.value.EndOfStream? {
        r := StopCallback(Finished);
        return;
      }
      assert item.value == old(q.Contents)[0];
      CopyChannels(item.value.block);
      r := Continue;
    }

    /** One put into the player's queue (`put_nowait`, or `put` with nothing
        draining the queue meanwhile). */
    method Enqueue(x: Item) returns (ok: bool)
      requires Valid() && (x.Data? ==> Fits(x.block, blocksize))
      modifies q.Repr
      ensures Valid() && q.Repr == old(q.Repr)
      ensures ok == (|old(q.Contents)| < buffersize)
      ensures !ok ==> |q.Contents| == buffersize
      ensures q.Contents == if ok then old(q.Contents) + [x] else old(q.Contents)
      ensures q.Pushed == if ok then old(q.Pushed) + [x] else old(q.Pushed)
      ensures q.Popped == old(q.Popped)
    {
      AllFitAppend(q.Contents, x, blocksize);
      ok := q.Put(x);
      assert q.Valid();
      assert AllFit(q.Contents, blocksize);
    }

    /** The pre-fill of `play`: puts the first `min(buffersize, #blocks)`
        blocks with `put_nowait`; the `range` ends the `zip` first, so no
        block is drawn and dropped. */
    method Prefill(blocks: seq<Block>) returns (taken: nat, ok: bool)
      requires Valid() && BlocksFit(blocks, blocksize)
      modifies q.Repr
      ensures Valid() && q.Repr == old(q.Repr)
      ensures taken <= Min(buffersize, |blocks|)
      ensures q.Contents == old(q.Contents) + Items(blocks[..taken])
      ensures q.Pushed == old(q.Pushed) + Items(blocks[..taken]) && q.Popped == old(q.Popped)
      ensures ok ==> taken == Min(buffersize, |blocks|)
      ensures !ok ==> |q.Contents| == buffersize
      ensures old(q.Contents) == [] ==> ok
    {
      taken := 0;
      ghost var contents0, pushed0, popped0 := q.Contents, q.Pushed, q.Popped;
      while taken < buffersize && taken < |blocks|
        invariant Valid() && q.Repr == old(q.Repr)
        invariant taken <= buffersize && taken <= |blocks|
        invariant q.Contents == contents0 + Items(blocks[..taken])
        invariant q.Pushed == pushed0 + Items(blocks[..taken]) && q.Popped == popped0
      {
        var put := Enqueue(Data(blocks[taken]));
        if !put {
          assert |q.Contents| == |contents0| + taken == buffersize;
          assert contents0 != [];
          ok := false;
          return;
        }
        ItemsSnocAfter(contents0, blocks, taken);
        ItemsSnocAfter(pushed0, blocks, taken);
        taken := taken + 1;
      }
      assert taken == Min(buffersize, |blocks|);
      ok := true;
    }

    /** The auto-patching branch of `play`. */
    method AutoPatch(targets: nat)
      requires Valid()
      modifies this`connections
      ensures Valid()
      ensures connections == old(connections) + PatchPlan(|portNames|, targets)
    {
      if |portNames| == 1 && targets > 1 {
        connections := connections + [(0, 0), (0, 1)];
      } else {
        var n := Min(|portNames|, targets);
        var k := 0;
        while k < n
          invariant 0 <= k <= n
          invariant connections == old(connections) + seq(k, i requires 0 <= i < k => (i, i))
        {
          connections := connections + [(k, k)];
          k := k + 1;
        }
      }
    }

    /** The top-up loop of `play` and the end-of-file marker after it. No
        callback runs in between here, so a put on a full queue times out. */
    method TopUp(rest: seq<Block>) returns (outcome: PlayOutcome)
      requires Valid() && BlocksFit(rest, blocksize)
      modifies q.Repr
      ensures Valid() && q.Repr == old(q.Repr) && q.Popped == old(q.Popped)
      ensures outcome == Queued <==> |old(q.Contents)| + |rest| + 1 <= buffersize
      ensures outcome == Queued ==> q.Pushed == old(q.Pushed) + Items(rest) + [EndOfStream]
      ensures outcome == Queued ==> q.Contents == old(q.Contents) + Items(rest) + [EndOfStream]
      ensures outcome == QueueFull ==>
        && |q.Contents| == buffersize
        && |old(q.Pushed)| <= |q.Pushed| <= |old(q.Pushed)| + |rest|
        && q.Pushed == old(q.Pushed) + Items(rest[..|q.Pushed| - |old(q.Pushed)|])
    {
      ghost var contents0, pushed0, popped0 := q.Contents, q.Pushed, q.Popped;
      var k := 0;
      while k < |rest|
        invariant Valid() && q.Repr == old(q.Repr) && q.Popped == popped0
        invariant k <= |rest|
        invariant |contents0| + k <= buffersize
        invariant q.Contents == contents0 + Items(rest[..k])
        invariant q.Pushed == pushed0 + Items(rest[..k])
      {
        var put := Enqueue(Data(rest[k]));
        if !put {
          assert |q.Pushed| - |pushed0| == k;
          assert |contents0| + |rest| + 1 > buffersize;
          return QueueFull;
        }
        ItemsSnocAfter(contents0, rest, k);
        ItemsSnocAfter(pushed0, rest, k);
        k := k + 1;
      }
      assert rest[..k] == rest;
      var put := Enqueue(EndOfStream);
      if !put {
        assert |q.Pushed| - |pushed0| == |rest|;
        assert |contents0| + |rest| + 1 > buffersize;
        return QueueFull;
      }
      assert |contents0| + |rest| + 1 <= buffersize;
      return Queued;
    }

    /** `play` up to its final wait: pre-fill, patch, top up, end marker.
        Started on an empty queue, it queues every block once and in order,
        then exactly one end marker, and does so exactly when the whole file
        fits in the buffer (no callback drains it in this sequential model). */
    method Play(blocks: seq<Block>, targets: nat) returns (outcome: PlayOutcome)
      requires Valid() && BlocksFit(blocks, blocksize)
      modifies this`connections, q.Repr
      ensures Valid() && q.Repr == old(q.Repr) && q.Popped == old(q.Popped)
      ensures outcome == Queued ==> q.Pushed == old(q.Pushed) + Items(blocks) + [EndOfStream]
      ensures old(q.Contents) == [] ==> (outcome == Queued <==> |blocks| < buffersize)
      ensures old(q.Contents) == [] ==>
        connections == old(connections) + (if autopatchOutput then PatchPlan(|portNames|, targets) else [])
    {
      ghost var pushed0 := q.Pushed;
      var taken, ok := Prefill(blocks);
      if !ok {
        return QueueFull;
      }
      if autopatchOutput {
        AutoPatch(targets);
      }
      assert Valid();
      BlocksFitSuffix(blocks, taken, blocksize);
      ItemsJoin(pushed0, blocks, taken);
      outcome := TopUp(blocks[taken..]);
    }
  }

  /** A buffer holding two blocks and the end marker, drained by the
      callback, hands out the blocks in the order they were put, then the end
      marker, then reports an underrun. */
  method DrainScenario(p: Player, b1: Block, b2: Block) returns (results: seq<CallbackResult>)
    requires p.Valid() && p.blocksize == 4 && !p.done
    requires p.q.Contents == [Data(b1), Data(b2), EndOfStream] && p.q.Popped == []
    modifies p`done, p.out, p.q.Repr
    ensures results == [Continue, Continue, Stop(Finished), Stop(Underrun)]
    ensures p.q.Popped == [Data(b1), Data(b2), EndOfStream] && p.q.Contents == []
    ensures p.done && p.Silent()
  {
    var r := p.Process(4);
    results := [r];
    r := p.Process(4);
    results := results + [r];
    r := p.Process(4);
    results := results + [r];
    r := p.Process(4);
    results := results + [r];
  }
}
