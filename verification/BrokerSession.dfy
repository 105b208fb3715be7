/** One session of the broker: its bounded queue of outgoing packets, sent piece by
    piece, and the framing of what a public client sends.

    The kernel's answers to `send` and what handling a record does to the session are
    read from arbitrary streams. An interrupted `send` is repeated by the source and is not
    modelled as an answer. */
module BrokerSession {
  import opened RuntimePlanModel
  import opened Utf8
  import opened Characters

  type bytes = seq<byte>

  const NEWLINE: byte := 0x0a
  const MAX_PACKET_BYTES := 262144

  // ---- Concatenation ----

  function Concat(packets: seq<bytes>): bytes {
    if packets == [] then [] else packets[0] + Concat(packets[1..])
  }

  lemma {:induction false} ConcatAppend(packets: seq<bytes>, p: bytes)
    ensures Concat(packets + [p]) == Concat(packets) + p
  {
    if packets == [] {
      assert [p][1..] == [] && Concat([p]) == p + Concat([]);
    } else {
      ConcatAppend(packets[1..], p);
      assert (packets + [p])[1..] == packets[1..] + [p];
    }
  }

  // ---- Framing ----

  /** The records of a stream: what stands before each newline. */
  function Records(s: bytes): seq<bytes>
    decreases |s|
  {
    var n := Find(s, NEWLINE);
    if n == |s| then [] else [s[..n]] + Records(s[n+1..])
  }

  /** What stands after the last newline. */
  function Residue(s: bytes): (r: bytes)
    ensures NEWLINE !in r && |r| <= |s|
    decreases |s|
  {
    var n := Find(s, NEWLINE);
    if n == |s| then
      assert s[..n] == s;
      s
    else Residue(s[n+1..])
  }

  lemma FindAppend(a: bytes, b: bytes)
    requires Find(a, NEWLINE) < |a|
    ensures Find(a + b, NEWLINE) == Find(a, NEWLINE)
  {
    var n := Find(a, NEWLINE);
    FindIs(a + b, n);
  }

  lemma FindIs(s: bytes, n: nat)
    requires n < |s| && s[n] == NEWLINE && NEWLINE !in s[..n]
    ensures Find(s, NEWLINE) == n
  {
  }

  lemma FramingStep(s: bytes)
    ensures var n := Find(s, NEWLINE);
      && (n == |s| ==> Records(s) == [] && Residue(s) == s)
      && (n < |s| ==> Records(s) == [s[..n]] + Records(s[n+1..]) && Residue(s) == Residue(s[n+1..]))
  {
    hide Find;
  }

  /** Reading a stream in two pieces: the residue of the first is put before the second. */
  lemma {:induction false} FramingOfPieces(a: bytes, b: bytes)
    ensures Records(a + b) == Records(a) + Records(Residue(a) + b)
    ensures Residue(a + b) == Residue(Residue(a) + b)
    decreases |a|
  {
    hide Find, Records, Residue;
    var n := Find(a, NEWLINE);
    FramingStep(a);
    if n < |a| {
      FindAppend(a, b);
      FramingStep(a + b);
      FramingOfPieces(a[n+1..], b);
      assert (a + b)[n+1..] == a[n+1..] + b && (a + b)[..n] == a[..n];
    }
  }

  /** However a stream is cut into pieces, the same records come out of it. */
  lemma {:induction false} FramingIgnoresChunks(chunks: seq<bytes>)
    ensures Framed(chunks) == (Records(Concat(chunks)), Residue(Concat(chunks)))
  {
    hide Find, Records, Residue;
    if chunks == [] {
      FramingStep([]);
    } else {
      var n := |chunks| - 1;
      FramingIgnoresChunks(chunks[..n]);
      FramingOfPieces(Concat(chunks[..n]), chunks[n]);
      ConcatAppend(chunks[..n], chunks[n]);
      assert chunks == chunks[..n] + [chunks[n]];
    }
  }

  /** Feeding the pieces one after another. */
  function Framed(chunks: seq<bytes>): (seq<bytes>, bytes) {
    if chunks == [] then ([], [])
    else
      var before := Framed(chunks[..|chunks|-1]);
      var text := before.1 + chunks[|chunks|-1];
      (before.0 + Records(text), Residue(text))
  }

  // ---- The outgoing queue ----

  /** Bytes already sent, followed by the unsent part of the queue, are all accepted packets in order. */
  ghost predicate Conserved(outgoing: seq<bytes>, offset: nat, wire: bytes, accepted: seq<bytes>) {
    && (if outgoing == [] then offset == 0 else offset < |outgoing[0]|)
    && (forall k :: 0 <= k < |outgoing| ==> outgoing[k] != [])
    && offset <= |Concat(outgoing)|
    && wire + Concat(outgoing)[offset..] == Concat(accepted)
  }

  /** A packet sent at once, or begun, on an empty queue. */
  lemma BeganSending(wire: bytes, accepted: seq<bytes>, p: bytes, at: nat)
    requires Conserved([], 0, wire, accepted) && p != [] && at <= |p|
    ensures at == |p| ==> Conserved([], 0, wire + p, accepted + [p])
    ensures at < |p| ==> Conserved([p], at, wire + p[..at], accepted + [p])
    ensures |Concat([])| == 0 && |Concat([p])| == |p|
  {
    hide Concat;
    ConcatAppend(accepted, p);
    ConcatOne(p);
    assert Concat([])[0..] == [] && wire + [] == wire;
    assert wire + p + [] == wire + p;
    assert p == p[..at] + p[at..];
  }

  /** A packet put behind others. */
  lemma Queued(outgoing: seq<bytes>, offset: nat, wire: bytes, accepted: seq<bytes>, p: bytes)
    requires Conserved(outgoing, offset, wire, accepted) && p != [] && outgoing != []
    ensures Conserved(outgoing + [p], offset, wire, accepted + [p])
    ensures |Concat(outgoing + [p])| == |Concat(outgoing)| + |p|
  {
    hide Concat;
    ConcatAppend(accepted, p);
    Unsent(outgoing, p, offset);
    Regroup(wire, Concat(outgoing)[offset..], p);
  }

  /** More of the first packet was sent; when all of it was, it leaves the queue. */
  lemma WentOn(outgoing: seq<bytes>, offset: nat, wire: bytes, accepted: seq<bytes>, at: nat)
    requires Conserved(outgoing, offset, wire, accepted) && outgoing != [] && offset <= at <= |outgoing[0]|
    ensures at < |outgoing[0]| ==> Conserved(outgoing, at, wire + outgoing[0][offset..at], accepted)
    ensures at == |outgoing[0]| ==> Conserved(outgoing[1..], 0, wire + outgoing[0][offset..], accepted)
    ensures |Concat(outgoing)| == |outgoing[0]| + |Concat(outgoing[1..])|
  {
    hide Concat;
    var p := outgoing[0];
    ConcatFirst(outgoing, offset);
    ConcatFirst(outgoing, at);
    var rest := Concat(outgoing[1..]);
    assert p[offset..] == p[offset..at] + p[at..];
    Regroup(p[offset..at], p[at..], rest);
    Regroup(wire, p[offset..at], p[at..] + rest);
    assert rest[0..] == rest;
    Regroup(wire, p[offset..], rest);
  }

  // ---- Sessions ----

  /** Does a `send` of the last `left` bytes of a packet fail? A component's channel must take the whole packet at
      once. */
  predicate SendFails(isPublic: bool, answer: Answer, left: nat, size: nat)
    requires left > 0
  {
    answer.Broken? || (answer.Took? && !isPublic && Amount(answer.amount, left) != size)
  }

  /** The kernel takes at least one byte and at most all that are left. */
  function Amount(n: nat, left: nat): (r: nat)
    requires left > 0
    ensures 1 <= r <= left
  {
    1 + n % left
  }

  /** How the kernel answers a `send`: some of the bytes were taken, none can be taken now, or an error. */
  datatype Answer = Took(amount: nat) | Full | Broken

  datatype Outcome = Sent | WouldBlock | SendFailed

  class Session {
    const isPublic: bool
    const maxBytes: nat
    const maxPackets: nat
    const maxPerDispatch: nat
    const kernel: nat -> Answer
    const keeps: nat -> bool
    var tick: nat

    var open: bool
    var outgoing: seq<bytes>
    var offset: nat
    var queuedBytes: nat
    var incoming: bytes

    // History: accepted packets, bytes given to the kernel, bytes received, records handled.
    ghost var accepted: seq<bytes>
    ghost var wire: bytes
    ghost var received: bytes
    ghost var records: seq<bytes>

    /** The outgoing side of an open session: nothing is lost, repeated or reordered, and both bounds hold. */
    ghost predicate OutgoingOk()
      reads this
    {
      && Conserved(outgoing, offset, wire, accepted)
      && queuedBytes == |Concat(outgoing)| <= maxBytes && |outgoing| <= maxPackets
    }

    /** The incoming side: what was handled and what is kept depend only on the bytes received. */
    ghost predicate IncomingOk()
      reads this
    {
      records == Records(received) && incoming == Residue(received) && |incoming| <= MAX_PACKET_BYTES
    }

    ghost predicate Valid()
      reads this
    {
      open ==> OutgoingOk() && IncomingOk()
    }

    constructor (isPublic: bool, maxBytes: nat, maxPackets: nat, maxPerDispatch: nat, kernel: nat -> Answer,
                 keeps: nat -> bool)
      ensures Valid() && open && accepted == [] && wire == [] && received == [] && records == []
    {
      this.isPublic, this.maxBytes, this.maxPackets, this.maxPerDispatch := isPublic, maxBytes, maxPackets,
      maxPerDispatch;
      this.kernel, this.keeps := kernel, keeps;
      tick, open, outgoing, offset, queuedBytes, incoming := 0, true, [], 0, 0, [];
      accepted, wire, received, records := [], [], [], [];
    }

    /** Tries to send the rest of a packet. A component's channel takes a packet whole or fails. */
    method SendOne(packet: bytes, start: nat) returns (outcome: Outcome, at: nat)
      requires start < |packet|
      modifies `tick, `wire
      ensures old(wire) <= wire
      ensures outcome == Sent ==> at == 0 && wire == old(wire) + packet[start..] && kernel(old(tick)).Took?
      ensures outcome == WouldBlock ==> start <= at < |packet| && wire == old(wire) + packet[start..at]
      ensures outcome == SendFailed <==> SendFails(isPublic, kernel(old(tick)), |packet| - start, |packet|)
      ensures kernel(old(tick)).Took? ==> |wire| > |old(wire)|
      ensures kernel(old(tick)).Full? ==> outcome == WouldBlock && at == start && wire == old(wire)
    {
      hide Amount;
      var answer := kernel(tick);
      tick := tick + 1;
      at := start;
      if answer.Full? {
        assert packet[start..start] == [];
        return WouldBlock, start;
      }
      if answer.Broken? {
        return SendFailed, start;
      }
      var count := Amount(answer.amount, |packet| - start);
      ghost var piece := packet[start..start + count];
      assert |piece| == count && (start + count == |packet| ==> piece == packet[start..]);
      wire := wire + packet[start..start + count];
      assert wire == old(wire) + piece;
      if !isPublic && count != |packet| {
        return SendFailed, start;
      }
      at := start + count;
      if at == |packet| {
        return Sent, 0;
      }
      outcome := WouldBlock;
    }

    /** What is put on the wire for a packet: public clients get lines. */
    function Frame(packet: bytes): bytes {
      if isPublic then packet + [NEWLINE] else packet
    }

    /** May the packet, with its newline if it is for a public client, be queued within all bounds? */
    ghost predicate HasRoom(packet: bytes)
      reads this
    {
      var size := |packet| + if isPublic then 1 else 0;
      1 <= |packet| <= 262_144 && size + queuedBytes <= maxBytes && |outgoing| + 1 <= maxPackets
    }

    /** Is there no room for the packet? */
    predicate Refused(packet: bytes)
      reads this
    {
      || packet == [] || |packet| > MAX_PACKET_BYTES || |Frame(packet)| > maxBytes
      || |outgoing| >= maxPackets || queuedBytes > maxBytes - |Frame(packet)|
    }

    /** Accepts a packet for sending. A packet for which there is no room closes the session. */
    method QueuePacket(packet: bytes)
      requires Valid()
      modifies `tick, `wire, `open, `outgoing, `offset, `queuedBytes, `accepted
      ensures Valid() && old(wire) <= wire
      ensures open ==> old(open && HasRoom(packet))
      ensures open ==> accepted == old(accepted) + [if isPublic then packet + [0x0a] else packet]
      ensures old(open && HasRoom(packet)) ==>
        (open <==> old(outgoing) != [] || !SendFails(isPublic, kernel(old(tick)), |Frame(packet)|, |Frame(packet)|))
      ensures open && old(outgoing) != [] ==> outgoing == old(outgoing) + [Frame(packet)] && wire == old(wire)
    {
      hide Concat, Records, Residue, Conserved;
      if !open {
        return;
      }
      if Refused(packet) {
        open := false;
        return;
      }
      var frame := Frame(packet);
      if outgoing == [] {
        NothingQueued(offset, wire, accepted);
        var outcome, at := SendOne(frame, 0);
        if outcome == SendFailed {
          open := false;
          return;
        }
        BeganSending(old(wire), accepted, frame, if outcome == Sent then |frame| else at);
        assert frame[0..] == frame;
        accepted := accepted + [frame];
        if outcome == Sent {
          return;
        }
        outgoing := [frame];
        offset := at;
      } else {
        Queued(outgoing, offset, wire, accepted, frame);
        accepted := accepted + [frame];
        outgoing := outgoing + [frame];
      }
      queuedBytes := queuedBytes + |frame|;
    }

    /** Sends queued packets until the kernel is full or enough were sent. */
    method Flush()
      requires Valid()
      modifies `tick, `wire, `open, `outgoing, `offset, `queuedBytes
      ensures Valid() && old(wire) <= wire && (open ==> old(open))
      ensures old(open) && old(outgoing) != [] && maxPerDispatch > 0 ==>
        && (kernel(old(tick)).Took? ==> |wire| > |old(wire)|)
        && (kernel(old(tick)).Broken? ==> !open)
        && (kernel(old(tick)).Full? ==> open && outgoing == old(outgoing) && wire == old(wire))
    {
      hide Concat, Records, Residue, Conserved;
      if !open {
        return;
      }
      var sent := 0;
      while outgoing != [] && sent < maxPerDispatch
        invariant OutgoingOk() && IncomingOk() && open && old(wire) <= wire
        invariant if sent == 0 then tick == old(tick) && outgoing == old(outgoing) && wire == old(wire)
                  else kernel(old(tick)).Took? && |wire| > |old(wire)|
        decreases |outgoing|
      {
        var packet := outgoing[0];
        FirstUnsent(outgoing, offset, wire, accepted);
        ghost var before, start := wire, offset;
        var outcome, at := SendOne(packet, offset);
        if outcome == WouldBlock {
          WentOn(outgoing, start, before, accepted, at);
          offset := at;
          return;
        }
        if outcome == SendFailed {
          open := false;
          return;
        }
        WentOn(outgoing, start, before, accepted, |packet|);
        queuedBytes := queuedBytes - |packet|;
        outgoing := outgoing[1..];
        offset := 0;
        sent := sent + 1;
      }
    }

    /** Bytes arrive from a public client. The session stays open exactly when no record is too long, there are
        not too many of them, none makes its handler close the session, and what is left over is not too long. */
    method HandlePublicBytes(chunk: bytes)
      requires Valid() && open
      modifies `tick, `open, `incoming, `received, `records
      ensures Valid() && received == old(received) + chunk
      ensures var text := old(incoming) + chunk;
        open <==> Tolerable(Records(text), maxPerDispatch, keeps, old(tick)) && |Residue(text)| <= MAX_PACKET_BYTES
      ensures open ==>
        records == old(records) + Records(old(incoming) + chunk) && incoming == Residue(old(incoming) + chunk)
    {
      hide Concat, Records, Residue, Find, Conserved, Tolerable;
      FramingOfPieces(received, chunk);
      received := received + chunk;
      incoming := incoming + chunk;
      var fine, consumed := DrainRecords();
      if !fine {
        open := false;
        return;
      }
      incoming := incoming[consumed..];
      if |incoming| > MAX_PACKET_BYTES {
        open := false;
      }
    }

    /** Handles the complete records among the bytes that have arrived. */
    method DrainRecords() returns (fine: bool, consumed: nat)
      modifies `tick, `records
      ensures fine <==> Tolerable(Records(incoming), maxPerDispatch, keeps, old(tick))
      ensures fine ==>
        && consumed <= |incoming| && records == old(records) + Records(incoming)
        && Residue(incoming) == incoming[consumed..]
    {
      hide Records, Residue, Find, Handled, Tolerable;
      ghost var handled: seq<bytes> := [];
      NothingHandled(incoming);
      NothingToAccept(maxPerDispatch, keeps, tick);
      consumed := 0;
      var count := 0;
      while true
        invariant Handled(incoming, consumed, handled) && consumed <= |incoming|
        invariant count == |handled| && tick == old(tick) + count && records == old(records) + handled
        invariant Tolerable(handled, maxPerDispatch, keeps, old(tick))
        decreases |incoming| - consumed
      {
        var length := Find(incoming[consumed..], NEWLINE);
        if consumed + length == |incoming| {
          HandleEnd(incoming, consumed, handled);
          return true, consumed;
        }
        HandleOne(incoming, consumed, handled, length);
        ghost var packet := incoming[consumed..consumed + length];
        OneMoreToAccept(handled, packet, maxPerDispatch, keeps, old(tick));
        NoneTolerable(handled + [packet], Records(incoming), maxPerDispatch, keeps, old(tick));
        if count >= maxPerDispatch || length > MAX_PACKET_BYTES {
          return false, consumed;
        }
        records := records + [packet];
        handled := handled + [packet];
        var stays := keeps(tick);
        tick := tick + 1;
        count := count + 1;
        consumed := consumed + length + 1;
        if !stays {
          return false, consumed;
        }
      }
    }
  }

  /** The records before position `consumed` have been handled. */
  ghost predicate Handled(text: bytes, consumed: nat, handled: seq<bytes>) {
    consumed <= |text| && Records(text) == handled + Records(text[consumed..]) &&
    Residue(text) == Residue(text[consumed..])
  }

  /** Not too many records, none too long, and none that makes its handler close the session. */
  ghost predicate Tolerable(records: seq<bytes>, limit: nat, keeps: nat -> bool, from: nat) {
    && |records| <= limit && (forall r :: r in records ==> |r| <= MAX_PACKET_BYTES)
    && (forall k :: from <= k < from + |records| ==> keeps(k))
  }

  lemma NothingToAccept(limit: nat, keeps: nat -> bool, from: nat)
    ensures Tolerable([], limit, keeps, from)
  {
  }

  lemma OneMoreToAccept(handled: seq<bytes>, p: bytes, limit: nat, keeps: nat -> bool, from: nat)
    requires Tolerable(handled, limit, keeps, from)
    ensures Tolerable(handled + [p], limit, keeps, from) <==>
      |handled| < limit && |p| <= MAX_PACKET_BYTES && keeps(from + |handled|)
  {
    assert p in handled + [p];
  }

  /** If the first records are not acceptable, all of them are not. */
  lemma NoneTolerable(first: seq<bytes>, all: seq<bytes>, limit: nat, keeps: nat -> bool, from: nat)
    requires first <= all
    ensures !Tolerable(first, limit, keeps, from) ==> !Tolerable(all, limit, keeps, from)
  {
  }

  lemma NothingHandled(text: bytes)
    ensures Handled(text, 0, [])
  {
    assert text[0..] == text;
  }

  lemma HandleOne(text: bytes, consumed: nat, handled: seq<bytes>, length: nat)
    requires Handled(text, consumed, handled) && consumed + length < |text| && length == Find(text[consumed..], NEWLINE)
    ensures Handled(text, consumed + length + 1, handled + [text[consumed..consumed + length]])
    ensures handled + [text[consumed..consumed + length]] <= Records(text)
  {
    hide Records, Residue, Find;
    var rest := text[consumed..];
    var packet, after := text[consumed..consumed + length], text[consumed + length + 1..];
    FramingStep(rest);
    assert rest[length+1..] == after && rest[..length] == packet;
    Associate(handled, packet, Records(after));
  }

  lemma Associate(a: seq<bytes>, p: bytes, b: seq<bytes>)
    ensures a + ([p] + b) == (a + [p]) + b
  {
  }

  lemma Regroup(a: bytes, b: bytes, c: bytes)
    ensures a + (b + c) == (a + b) + c
  {
  }

  lemma HandleEnd(text: bytes, consumed: nat, handled: seq<bytes>)
    requires Handled(text, consumed, handled) && consumed + Find(text[consumed..], NEWLINE) == |text|
    ensures Records(text) == handled && Residue(text) == text[consumed..]
  {
    hide Records, Residue, Find;
    FramingStep(text[consumed..]);
    assert handled + [] == handled;
  }

  lemma NothingQueued(offset: nat, wire: bytes, accepted: seq<bytes>)
    requires Conserved([], offset, wire, accepted)
    ensures offset == 0
  {
  }

  lemma FirstUnsent(outgoing: seq<bytes>, offset: nat, wire: bytes, accepted: seq<bytes>)
    requires Conserved(outgoing, offset, wire, accepted) && outgoing != []
    ensures offset < |outgoing[0]|
  {
  }

  lemma ConcatOne(p: bytes)
    ensures Concat([]) == [] && Concat([p]) == p
  {
    assert Concat([p]) == p + Concat([]);
  }

  lemma ConcatFirst(packets: seq<bytes>, k: nat)
    requires packets != [] && k <= |packets[0]|
    ensures k <= |Concat(packets)| && Concat(packets)[k..] == packets[0][k..] + Concat(packets[1..])
    ensures |Concat(packets)| == |packets[0]| + |Concat(packets[1..])|
  {
  }

  lemma Unsent(packets: seq<bytes>, p: bytes, k: nat)
    requires k <= |Concat(packets)|
    ensures Concat(packets + [p]) == Concat(packets) + p
    ensures Concat(packets + [p])[k..] == Concat(packets)[k..] + p
  {
    ConcatAppend(packets, p);
  }
}
