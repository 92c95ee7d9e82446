/**
 The UDP stream manager: pooled payload buffers, the bounded queue between the
 audio pipeline and the broadcast loop, and the numbering of each client's
 packets. Every method below is one step, so that the steps of the pipeline, of
 the broadcast loop and of the handlers may interleave in any order.
 */
module StreamManager {
  import opened Common
  import opened Bytes
  import opened Wire

  const QUEUE_CAPACITY: nat := 200
  const TYPE_AUDIO: byte := 1
  const SEQ_NUMS: nat := 0x1_0000_0000

  /** The channel filter: the stereo mix matches everything, on either side. */
  predicate Matches(channel: byte, mask: byte) {
    channel == STEREO_MIX || mask == STEREO_MIX || mask == channel
  }

  /** A client on one channel gets exactly the frames of its channel and of the stereo mix. */
  lemma OwnChannelOnly(channel: byte, mask: byte)
    ensures mask != 0xFF ==> (Matches(channel, mask) <==> channel == mask || channel == 0xFF)
    ensures mask == 0xFF ==> Matches(channel, mask)
  {
  }

  datatype Audio = Audio(payload: seq<byte>, channel: byte, captureUs: int, codec: byte)

  /** An encoded frame: it fits a pooled buffer, and its timestamp is an int64. */
  type Frame = a: Audio | |a.payload| <= MAX_PAYLOAD_SIZE && Int64(a.captureUs) witness Audio([], 0, 0, 0)

  /** A frame in the queue: its payload lies in a pooled buffer. */
  datatype Queued = Queued(buffer: array<byte>, length: nat, channel: byte, captureUs: int, codec: byte)

  function Content(q: Queued): Audio
    requires q.length <= q.buffer.Length
    reads q.buffer
  {
    Audio(q.buffer[..q.length], q.channel, q.captureUs, q.codec)
  }

  /** Every buffer is in exactly one place: the pool, or one position of the line. */
  ghost predicate Partition(line: seq<Queued>, pool: set<array<byte>>, buffers: set<array<byte>>) {
    && pool <= buffers
    && (forall i :: 0 <= i < |line| ==> line[i].buffer in buffers - pool)
    && (forall i, j :: 0 <= i < j < |line| ==> line[i].buffer != line[j].buffer)
    && forall b :: b in buffers - pool ==> exists i :: 0 <= i < |line| && line[i].buffer == b
  }

  ghost predicate Hold(line: seq<Queued>, frames: seq<Frame>)
    reads set i | 0 <= i < |line| :: line[i].buffer
  {
    && |line| == |frames|
    && forall i :: 0 <= i < |line| ==> line[i].length <= line[i].buffer.Length && Content(line[i]) == frames[i]
  }

  lemma DropOne(log: seq<Frame>, n: nat, rest: seq<Frame>)
    requires n < |log|
    ensures (log[n..] + rest)[1..] == log[n + 1..] + rest
  {
  }

  lemma HoldRest(q: Queued, line: seq<Queued>, frames: seq<Frame>)
    requires Hold([q] + line, frames)
    ensures Hold(line, frames[1..])
  {
    assert forall i :: 0 <= i < |line| ==> line[i] == ([q] + line)[i + 1];
  }

  lemma HoldFront(line: seq<Queued>, q: Queued, frames: seq<Frame>)
    requires Hold(line + [q], frames)
    ensures Hold(line, frames[..|line|])
  {
    assert forall i :: 0 <= i < |line| ==> line[i] == (line + [q])[i];
  }

  lemma HoldJoin(line: seq<Queued>, q: Queued, frames: seq<Frame>, f: Frame)
    requires Hold(line, frames) && q.length <= q.buffer.Length && Content(q) == f
    ensures Hold(line + [q], frames + [f])
  {
  }

  lemma PartitionJoin(line: seq<Queued>, q: Queued, pool: set<array<byte>>, buffers: set<array<byte>>)
    requires Partition(line, pool, buffers) && (q.buffer in pool || q.buffer !in buffers)
    ensures Partition(line + [q], pool - {q.buffer}, buffers + {q.buffer})
  {
    var all, free := buffers + {q.buffer}, pool - {q.buffer};
    forall b | b in all - free
      ensures exists i :: 0 <= i < |line + [q]| && (line + [q])[i].buffer == b
    {
      if b == q.buffer {
        assert (line + [q])[|line|].buffer == b;
      } else {
        assert b in buffers - pool;
        var i :| 0 <= i < |line| && line[i].buffer == b;
        assert (line + [q])[i].buffer == b;
      }
    }
  }

  lemma PartitionLeave(before: seq<Queued>, q: Queued, after: seq<Queued>,
                       pool: set<array<byte>>, buffers: set<array<byte>>)
    requires Partition(before + [q] + after, pool, buffers)
    ensures Partition(before + after, pool + {q.buffer}, buffers)
  {
    var line, rest := before + [q] + after, before + after;
    assert line[|before|] == q;
    assert forall i :: 0 <= i < |rest| ==> rest[i] == line[if i < |before| then i else i + 1];
    forall b | b in buffers - (pool + {q.buffer})
      ensures exists i :: 0 <= i < |rest| && rest[i].buffer == b
    {
      assert b in buffers - pool;
      var i :| 0 <= i < |line| && line[i].buffer == b;
      assert rest[if i < |before| then i else i - 1].buffer == b;
    }
  }

  // ---- The queue of frames ----------------------------------------------------------------

  /**
   The buffer pool and the channel of frames, with the frame being queued and
   the frame being sent. Every method is one step of the pipeline or of the
   broadcast loop, so the two may interleave in any order.
   */
  class FrameQueue {
    var pool: set<array<byte>>
    var sending: Option<Queued>
    var queue: seq<Queued>
    var filling: Option<Queued>

    /** Every buffer ever made. */
    ghost var buffers: set<array<byte>>
    /** The frames ever queued, how many of them are done, and the frame about to be queued. */
    ghost var enqueued: seq<Frame>
    ghost var done: nat
    ghost var filled: Frame

    /** The frames not yet with the loop, oldest first: in the queue, about to be queued. */
    function Waiting(): seq<Queued>
      reads this
    {
      queue + (if filling.None? then [] else [filling.value])
    }

    /** The frames on their way, oldest first. */
    function Line(): seq<Queued>
      reads this
    {
      (if sending.None? then [] else [sending.value]) + Waiting()
    }

    ghost function Newest(): seq<Frame>
      reads this
    {
      if filling.None? then [] else [filled]
    }

    /** What the buffers on their way must hold. */
    ghost function Expected(): seq<Frame>
      requires done <= |enqueued|
      reads this
    {
      enqueued[done..] + Newest()
    }

    ghost predicate Owned()
      reads this
    {
      Partition(Line(), pool, buffers) && forall b :: b in buffers ==> b.Length == MAX_PAYLOAD_SIZE
    }

    /** The buffers on their way still hold the bytes they were given. */
    ghost predicate Intact()
      requires Owned()
      reads this, buffers
    {
      |queue| <= QUEUE_CAPACITY && done <= |enqueued| && Hold(Line(), Expected())
    }

    ghost predicate Valid()
      reads this, buffers
    {
      Owned() && Intact()
    }

    constructor ()
      ensures Valid() && fresh(buffers) && pool == {} && sending == None && queue == [] && filling == None
      ensures enqueued == [] && done == 0
    {
      pool, sending, queue, filling := {}, None, [], None;
      buffers, enqueued, done := {}, [], 0;
    }

    /** Copies a frame into a pooled or a new buffer, out of reach of everything else. */
    method Fill(f: Frame)
      requires Valid() && filling == None
      modifies this`pool, this`filling, this`buffers, this`filled, pool
      ensures Valid() && fresh(buffers - old(buffers)) && filling.Some? && filled == f
    {
      var buffer: array<byte>;
      if pool == {} {
        buffer := new byte[MAX_PAYLOAD_SIZE];
      } else {
        buffer :| buffer in pool;
      }
      Put(buffer, 0, f.payload);
      assert buffer[..|f.payload|] == f.payload;
      Hand(buffer, f);
    }

    /** Moves a buffer that holds a frame from the pool, or from nowhere, to the end of the line. */
    method Hand(buffer: array<byte>, f: Frame)
      requires Valid() && filling == None && (buffer in pool || buffer !in buffers)
      requires buffer.Length == MAX_PAYLOAD_SIZE && buffer[..|f.payload|] == f.payload
      modifies this`pool, this`filling, this`buffers, this`filled
      ensures Valid() && buffers == old(buffers) + {buffer} && filling.Some? && filled == f
    {
      ghost var line, frames := Line(), Expected();
      var q := Queued(buffer, |f.payload|, f.channel, f.captureUs, f.codec);
      PartitionJoin(line, q, pool, buffers);
      HoldJoin(line, q, frames, f);
      pool := pool - {buffer};
      buffers := buffers + {buffer};
      filling := Some(q);
      filled := f;
      assert Line() == line + [q] && Expected() == frames + [f];
    }

    /** Queues the filled buffer, or puts it back into the pool when the queue is full. */
    method Offer() returns (queued: bool)
      requires Valid() && filling.Some?
      modifies this`pool, this`filling, this`queue, this`enqueued
      ensures Valid() && filling == None
      ensures queued == (|old(queue)| < 200)
      ensures enqueued == if queued then old(enqueued) + [filled] else old(enqueued)
    {
      queued := |queue| < QUEUE_CAPACITY;
      if queued {
        Enqueue();
      } else {
        PutBack();
      }
    }

    method Enqueue()
      requires Valid() && filling.Some? && |queue| < QUEUE_CAPACITY
      modifies this`filling, this`queue, this`enqueued
      ensures Valid() && filling == None && enqueued == old(enqueued) + [filled]
    {
      queue := queue + [filling.value];
      enqueued := enqueued + [filled];
      filling := None;
      assert Line() == old(Line()) && Expected() == old(Expected());
    }

    method PutBack()
      requires Valid() && filling.Some?
      modifies this`pool, this`filling
      ensures Valid() && filling == None && pool == old(pool) + {old(filling).value.buffer}
    {
      ghost var line := (if sending.None? then [] else [sending.value]) + queue;
      assert Partition(line, pool + {filling.value.buffer}, buffers) && Hold(line, enqueued[done..]) by {
        WithoutLast(line);
      }
      pool := pool + {filling.value.buffer};
      filling := None;
      assert Line() == line && Expected() == enqueued[done..];
    }

    lemma WithoutLast(line: seq<Queued>)
      requires Valid() && filling.Some? && line == (if sending.None? then [] else [sending.value]) + queue
      ensures Partition(line, pool + {filling.value.buffer}, buffers) && Hold(line, enqueued[done..])
    {
      assert Line() == line + [filling.value] && line + [filling.value] == line + [filling.value] + [];
      HoldFront(line, filling.value, Expected());
      assert Expected()[..|line|] == enqueued[done..] && line + [] == line;
      PartitionLeave(line, filling.value, [], pool, buffers);
    }

    /** The loop takes the oldest frame from the channel. */
    method Take()
      requires Valid() && sending == None && queue != []
      modifies this`queue, this`sending
      ensures Valid() && sending == Some(old(queue[0])) && queue == old(queue[1..])
    {
      sending := Some(queue[0]);
      queue := queue[1..];
      assert Line() == old(Line());
    }

    /** The buffer the loop holds still contains the oldest frame that is not done. */
    lemma AtHand()
      requires Valid() && sending.Some?
      ensures done < |enqueued| && sending.value.buffer in buffers && sending.value.length <= MAX_PAYLOAD_SIZE
      ensures Content(sending.value) == enqueued[done]
    {
      assert Line()[0] == sending.value && Expected()[0] == enqueued[done];
    }

    /** The frame is done: its buffer goes back to the pool. */
    method Recycle()
      requires Valid() && sending.Some?
      modifies this`pool, this`sending, this`done
      ensures Valid() && sending == None && done == old(done) + 1
    {
      ghost var line := Waiting();
      WithoutFirst();
      pool := pool + {sending.value.buffer};
      sending := None;
      done := done + 1;
      assert Line() == line;
    }

    lemma WithoutFirst()
      requires Valid() && sending.Some?
      ensures done < |enqueued|
      ensures Partition(Waiting(), pool + {sending.value.buffer}, buffers)
      ensures Hold(Waiting(), enqueued[done + 1..] + Newest())
    {
      var line := Waiting();
      AtHand();
      assert [] + [sending.value] + line == [sending.value] + line && [] + line == line;
      PartitionLeave([], sending.value, line, pool, buffers);
      HoldRest(sending.value, line, Expected());
      DropOne(enqueued, done, Newest());
    }
  }

  // ---- What one client was sent ---------------------------------------------------------

  /** The packet that carries a frame as a client's `count`-th. */
  function AudioPacket(f: Frame, count: nat): (p: Packet)
    ensures Typed(p) && |p.payload| <= MAX_PAYLOAD_SIZE
  {
    Packet(PROTOCOL_VERSION, TYPE_AUDIO, count % SEQ_NUMS, f.captureUs, f.channel, f.codec, f.payload)
  }

  /** The frames sent to one client: among the first `limit` queued, in their order, at most once each. */
  predicate InOrder(sent: seq<nat>, limit: nat) {
    && (forall i :: 0 <= i < |sent| ==> sent[i] < limit)
    && forall i, j :: 0 <= i < j < |sent| ==> sent[i] < sent[j]
  }

  /** The `i`-th datagram to a client: the `i`-th frame sent to it, numbered from one. */
  function Datagram(log: seq<Frame>, sent: seq<nat>, i: nat): seq<byte>
    requires i < |sent| && sent[i] < |log|
  {
    Encode(AudioPacket(log[sent[i]], i + 1))
  }

  /** The packet carries the frame, field by field, under this number. */
  predicate Carries(p: Packet, f: Audio, number: nat) {
    && p.version == 1 && p.kind == 1 && p.seqNum == number
    && p.timestampUs == f.captureUs && p.channelMask == f.channel && p.codec == f.codec && p.payload == f.payload
  }

  /**
   What a client sees of the queue, through either parser: each datagram
   decodes to a frame with the bytes, the timestamp, the channel and the codec
   it was queued with; the numbers count from one, and a later number means a
   later place in the queue.
   */
  lemma ClientsSeeTheQueue(log: seq<Frame>, sent: seq<nat>, limit: nat, i: nat, j: nat)
    requires InOrder(sent, limit) && limit <= |log| && i < |sent| && j < |sent|
    ensures var datagram := Datagram(log, sent, i);
            && CppParse(datagram).Some? && Carries(CppParse(datagram).value, log[sent[i]], (i + 1) % 0x1_0000_0000)
            && GoParse(datagram).Ok? && Carries(GoParse(datagram).value, log[sent[i]], (i + 1) % 0x1_0000_0000)
    ensures i < j <==> sent[i] < sent[j]
  {
    DatagramShowsFrame(log, sent, i);
  }

  lemma DatagramShowsFrame(log: seq<Frame>, sent: seq<nat>, i: nat)
    requires i < |sent| && sent[i] < |log|
    ensures var datagram := Datagram(log, sent, i);
            && CppParse(datagram).Some? && Carries(CppParse(datagram).value, log[sent[i]], (i + 1) % 0x1_0000_0000)
            && GoParse(datagram).Ok? && Carries(GoParse(datagram).value, log[sent[i]], (i + 1) % 0x1_0000_0000)
  {
    DatagramParses(log[sent[i]], i + 1);
  }

  lemma DatagramParses(f: Frame, count: nat)
    ensures CppParse(Encode(AudioPacket(f, count))) == Some(AudioPacket(f, count))
    ensures GoParse(Encode(AudioPacket(f, count))) == Ok(AudioPacket(f, count))
  {
    var p := AudioPacket(f, count);
    ParsersInvertEncode(p, []);
    assert Encode(p) + [] == Encode(p);
  }

  /** The packet built with the wrapped number is the datagram for the unbounded count. */
  lemma LastDatagram(log: seq<Frame>, sent: seq<nat>, number: nat)
    requires sent != [] && sent[|sent| - 1] < |log| && number == |sent| % SEQ_NUMS
    ensures Encode(AudioPacket(log[sent[|sent| - 1]], number)) == Datagram(log, sent, |sent| - 1)
  {
    SameNumber(log[sent[|sent| - 1]], number, |sent|);
  }

  lemma SameNumber(f: Frame, number: nat, count: nat)
    requires number == count % SEQ_NUMS
    ensures AudioPacket(f, number) == AudioPacket(f, count)
  {
    assert number % SEQ_NUMS == number;
  }

  // ---- Clients ----------------------------------------------------------------------------

  class ClientStream {
    const id: string
    var addr: string
    var seqNum: nat
    var channelAssign: byte
    var frameSize: int
    var active: bool
    /** The frames sent so far, by their place in the queue. */
    ghost var sent: seq<nat>

    constructor (id: string, addr: string, channel: byte)
      ensures this.id == id && this.addr == addr && seqNum == 0 && channelAssign == channel
      ensures frameSize == 10 && active && sent == []
    {
      this.id, this.addr, seqNum, channelAssign := id, addr, 0, channel;
      frameSize, active, sent := 10, true, [];
    }

    /** An active client gets the frames that its channel assignment lets through. */
    predicate Wants(channel: byte)
      reads this
    {
      active && Matches(channel, channelAssign)
    }

    ghost predicate Counted(limit: nat)
      reads this
    {
      seqNum == |sent| % SEQ_NUMS && InOrder(sent, limit)
    }

    /** The next number, for the frame `index`. */
    method Count(ghost index: nat)
      requires Counted(index)
      modifies this`seqNum, this`sent
      ensures Counted(index + 1) && seqNum == (old(seqNum) + 1) % SEQ_NUMS && sent == old(sent) + [index]
    {
      seqNum := (seqNum + 1) % SEQ_NUMS;
      sent := sent + [index];
    }
  }

  predicate Distinct<T(==)>(s: seq<T>) {
    forall i, j :: 0 <= i < j < |s| ==> s[i] != s[j]
  }

  lemma TailOfDistinct<T>(s: seq<T>)
    requires Distinct(s) && s != []
    ensures s[0] in s && forall x :: x in s[1..] <==> x in s && x != s[0]
  {
    assert s == [s[0]] + s[1..];
  }

  // ---- The manager ------------------------------------------------------------------------

  class Manager {
    const frames: FrameQueue
    const packetBuf: array<byte>
    var clients: map<string, ClientStream>
    /** The clients that still get the frame at hand, once the loop has looked them up. */
    var rest: Option<seq<ClientStream>>
    var totalPacketsSent: nat
    var totalBytesSent: nat

    /** Every client ever added. */
    ghost var everyone: set<ClientStream>

    /** How many of the queued frames may have gone to a client. */
    ghost function Limit(c: ClientStream): nat
      reads this, frames
    {
      if rest.Some? && c !in rest.value then frames.done + 1 else frames.done
    }

    ghost predicate Served()
      reads this, frames, everyone
    {
      && clients.Values <= everyone
      && (forall id :: id in clients ==> clients[id].id == id)
      && (rest.Some? ==> Distinct(rest.value) && forall c :: c in rest.value ==> c in everyone)
      && forall c :: c in everyone ==> c.Counted(Limit(c))
    }

    ghost predicate Valid()
      reads this, frames, frames.buffers, everyone
    {
      && packetBuf.Length == HEADER_SIZE + MAX_PAYLOAD_SIZE && packetBuf !in frames.buffers
      && (rest.Some? ==> frames.sending.Some?)
      && frames.Valid() && Served()
    }

    constructor ()
      ensures Valid() && fresh(frames) && fresh(frames.buffers) && fresh(packetBuf)
      ensures clients == map[] && rest == None && frames.enqueued == [] && everyone == {}
    {
      frames := new FrameQueue();
      packetBuf := new byte[HEADER_SIZE + MAX_PAYLOAD_SIZE];
      clients, rest := map[], None;
      totalPacketsSent, totalBytesSent := 0, 0;
      everyone := {};
    }

    // ---- Handlers -----------------------------------------------------------------------

    method AddClient(clientID: string, addr: string, channel: byte)
      requires Valid()
      modifies this`clients, this`everyone
      ensures Valid() && clientID in clients && fresh(clients[clientID])
      ensures var cs := clients[clientID];
              clients == old(clients)[clientID := cs] && cs.addr == addr && cs.channelAssign == channel
              && cs.seqNum == 0 && cs.frameSize == 10 && cs.active && cs.sent == []
    {
      var cs := new ClientStream(clientID, addr, channel);
      clients := clients[clientID := cs];
      everyone := everyone + {cs};
    }

    method RemoveClient(clientID: string)
      requires Valid()
      modifies this`clients
      ensures Valid() && clients == old(clients) - {clientID}
    {
      clients := clients - {clientID};
    }

    method SetChannel(clientID: string, channel: byte)
      requires Valid()
      modifies (if clientID in clients then {clients[clientID]} else {})`channelAssign
      ensures Valid() && (clientID in clients ==> clients[clientID].channelAssign == channel)
    {
      if clientID in clients {
        var cs := clients[clientID];
        cs.channelAssign := channel;
      }
    }

    method SetFrameSize(clientID: string, frameMs: int)
      requires Valid()
      modifies (if clientID in clients then {clients[clientID]} else {})`frameSize
      ensures Valid() && (clientID in clients ==> clients[clientID].frameSize == frameMs)
    {
      if clientID in clients {
        var cs := clients[clientID];
        cs.frameSize := frameMs;
      }
    }

    /** A keep-alive packet moves the client to the address it came from. */
    method KeepAlive(clientID: string, remoteAddr: string)
      requires Valid()
      modifies (if clientID in clients then {clients[clientID]} else {})`addr
      ensures Valid() && (clientID in clients ==> clients[clientID].addr == remoteAddr)
    {
      if clientID in clients {
        var cs := clients[clientID];
        if cs.addr != remoteAddr {
          cs.addr := remoteAddr;
        }
      }
    }

    // ---- The pipeline -------------------------------------------------------------------

    /** `SendAudio` up to the channel operation. */
    method Fill(f: Frame)
      requires Valid() && frames.filling == None
      modifies frames`pool, frames`filling, frames`buffers, frames`filled, frames.pool
      ensures Valid() && fresh(frames.buffers - old(frames.buffers)) && frames.filling.Some? && frames.filled == f
    {
      frames.Fill(f);
    }

    /** The channel operation of `SendAudio`: when the channel is full the frame is dropped. */
    method Offer() returns (queued: bool)
      requires Valid() && frames.filling.Some?
      modifies frames`pool, frames`filling, frames`queue, frames`enqueued
      ensures Valid() && frames.filling == None
      ensures queued == (|old(frames.queue)| < 200)
      ensures frames.enqueued == if queued then old(frames.enqueued) + [frames.filled] else old(frames.enqueued)
    {
      queued := frames.Offer();
    }

    /** The bytes queued are the bytes given, whatever the caller then does with its slice. */
    method SendAudio(f: Frame) returns (queued: bool)
      requires Valid() && frames.filling == None
      modifies frames`pool, frames`filling, frames`queue, frames`enqueued, frames`buffers, frames`filled, frames.pool
      ensures Valid() && fresh(frames.buffers - old(frames.buffers)) && frames.filling == None
      ensures queued == (|old(frames.queue)| < 200)
      ensures frames.enqueued == if queued then old(frames.enqueued) + [f] else old(frames.enqueued)
    {
      Fill(f);
      queued := Offer();
    }

    // ---- The broadcast loop -------------------------------------------------------------

    method Take()
      requires Valid() && frames.sending == None && frames.queue != []
      modifies frames`queue, frames`sending
      ensures Valid() && frames.sending == Some(old(frames.queue[0])) && frames.queue == old(frames.queue[1..])
    {
      frames.Take();
    }

    /** The clients that get the frame: a snapshot under the read lock, in any order. */
    method Snapshot()
      requires Valid() && frames.sending.Some? && rest == None
      modifies this`rest
      ensures Valid() && rest.Some?
      ensures forall c :: c in rest.value <==> Chosen(c)
    {
      var activeClients := Matching(frames.sending.value.channel);
      rest := Some(activeClients);
    }

    method Matching(channel: byte) returns (active: seq<ClientStream>)
      requires forall id :: id in clients ==> clients[id].id == id
      ensures Distinct(active)
      ensures forall c :: c in active <==> c in clients.Values && c.Wants(channel)
    {
      active := [];
      var ids := clients.Keys;
      while ids != {}
        invariant ids <= clients.Keys && Distinct(active)
        invariant forall c :: c in active <==> c in clients.Values && c.id !in ids && c.Wants(channel)
      {
        var id :| id in ids;
        var cs := clients[id];
        if cs.Wants(channel) {
          active := active + [cs];
        }
        ids := ids - {id};
      }
    }

    /** Sends a datagram to the next client of the snapshot; `written` is the outcome of the write. */
    method TransmitNext(cs: ClientStream, written: bool) returns (datagram: seq<byte>)
      requires Valid() && rest.Some? && rest.value != [] && rest.value[0] == cs
      modifies this`rest, this`totalPacketsSent, this`totalBytesSent, packetBuf, cs`seqNum, cs`sent
      ensures Valid() && rest == Some(old(rest).value[1..]) && frames.done < |frames.enqueued|
      ensures cs.sent == old(cs.sent) + [frames.done]
      ensures datagram == Datagram(frames.enqueued, cs.sent, |cs.sent| - 1)
      ensures totalPacketsSent == old(totalPacketsSent) + if written then 1 else 0
      ensures totalBytesSent == old(totalBytesSent) + if written then |datagram| else 0
    {
      Number(cs);
      datagram := Send(cs.seqNum, written);
      LastDatagram(frames.enqueued, cs.sent, cs.seqNum);
    }

    method Send(number: nat, written: bool) returns (datagram: seq<byte>)
      requires Valid() && frames.sending.Some? && number < SEQ_NUMS
      modifies this`totalPacketsSent, this`totalBytesSent, packetBuf
      ensures Valid() && frames.done < |frames.enqueued|
      ensures datagram == Encode(AudioPacket(frames.enqueued[frames.done], number))
      ensures totalPacketsSent == old(totalPacketsSent) + if written then 1 else 0
      ensures totalBytesSent == old(totalBytesSent) + if written then |datagram| else 0
    {
      var n := Marshal(number);
      datagram := packetBuf[..n];
      if written {
        totalPacketsSent := totalPacketsSent + 1;
        totalBytesSent := totalBytesSent + n;
      }
    }

    /** Gives the next client of the snapshot its next number. */
    method Number(cs: ClientStream)
      requires Valid() && rest.Some? && rest.value != [] && rest.value[0] == cs
      modifies this`rest, cs`seqNum, cs`sent
      ensures Valid() && rest == Some(old(rest).value[1..]) && frames.done < |frames.enqueued|
      ensures cs.seqNum == |cs.sent| % SEQ_NUMS && cs.sent == old(cs.sent) + [frames.done]
    {
      frames.AtHand();
      assert cs in rest.value && cs.Counted(Limit(cs));
      cs.Count(frames.done);
      rest := Some(rest.value[1..]);
      assert cs !in rest.value;
    }

    method Marshal(seqNum: nat) returns (n: nat)
      requires packetBuf.Length == HEADER_SIZE + MAX_PAYLOAD_SIZE && packetBuf !in frames.buffers
      requires frames.Valid() && frames.sending.Some?
      modifies packetBuf
      ensures n <= packetBuf.Length && frames.done < |frames.enqueued|
      ensures packetBuf[..n] == Encode(AudioPacket(frames.enqueued[frames.done], seqNum))
    {
      frames.AtHand();
      var pkt := new GoPacket(AudioPacket(Content(frames.sending.value), seqNum));
      var written := pkt.MarshalInto(packetBuf);
      n := written.value;
    }

    /** Every client of the snapshot was served: the buffer returns to the pool. */
    method Recycle()
      requires Valid() && rest == Some([])
      modifies this`rest, frames`pool, frames`sending, frames`done
      ensures Valid() && rest == None && frames.sending == None && frames.done == old(frames.done) + 1
    {
      rest := None;
      frames.Recycle();
    }

    /** `doSendAudio` when nothing comes between: exactly the matching clients get the frame at hand. */
    method DoSendAudio(written: ClientStream -> bool)
      requires Valid() && frames.sending.Some? && rest == None
      modifies this`rest, this`totalPacketsSent, this`totalBytesSent, packetBuf, everyone`seqNum, everyone`sent
      ensures Valid() && rest == Some([])
      ensures forall c :: c in everyone ==>
        c.sent == if old(Chosen(c)) then old(c.sent) + [frames.done] else old(c.sent)
    {
      ghost var before := map c | c in everyone :: c.sent;
      Snapshot();
      ghost var chosen := set c | c in rest.value;
      TransmitRest(before, chosen, written);
    }

    method TransmitRest(ghost before: map<ClientStream, seq<nat>>, ghost chosen: set<ClientStream>,
                        written: ClientStream -> bool)
      requires Valid() && rest.Some? && Progress(before, chosen)
      modifies this`rest, this`totalPacketsSent, this`totalBytesSent, packetBuf, everyone`seqNum, everyone`sent
      ensures Valid() && rest == Some([]) && Progress(before, chosen)
    {
      while rest.value != []
        invariant Valid() && rest.Some? && Progress(before, chosen)
        decreases |rest.value|
      {
        TransmitFirst(before, chosen, written(rest.value[0]));
      }
    }

    method TransmitFirst(ghost before: map<ClientStream, seq<nat>>, ghost chosen: set<ClientStream>, written: bool)
      requires Valid() && rest.Some? && rest.value != [] && Progress(before, chosen)
      modifies this`rest, this`totalPacketsSent, this`totalBytesSent, packetBuf, everyone`seqNum, everyone`sent
      ensures Valid() && rest == Some(old(rest).value[1..]) && Progress(before, chosen)
    {
      var cs := rest.value[0];
      TailOfDistinct(rest.value);
      var _ := TransmitNext(cs, written);
    }

    predicate Chosen(c: ClientStream)
      requires frames.sending.Some?
      reads this, frames, c
    {
      c in clients.Values && c.Wants(frames.sending.value.channel)
    }

    /** The chosen are the active clients in the map for whom the channels agree, or one of the two is the mix. */
    lemma ChosenAre(c: ClientStream)
      requires frames.sending.Some?
      ensures var channel := frames.sending.value.channel;
              Chosen(c) <==>
                (exists id :: id in clients && clients[id] == c) && c.active &&
                (channel == 0xFF || c.channelAssign == 0xFF || c.channelAssign == channel)
    {
    }

    /** What each client was sent so far of a frame chosen clients get, against `before` the frame. */
    ghost predicate Progress(before: map<ClientStream, seq<nat>>, chosen: set<ClientStream>)
      requires rest.Some?
      reads this, frames, everyone
    {
      && before.Keys == everyone
      && (forall c :: c in rest.value ==> c in chosen)
      && forall c :: c in everyone ==>
           c.sent == if c in chosen && c !in rest.value then before[c] + [frames.done] else before[c]
    }
  }
}
