/** A byte stream over WebSocket frames (binary frames, section 5.6 of RFC 6455). */
module ByteStream {
  import opened Wrappers

  type Byte = bv8

  /** What ReadMessage yields next: a frame, or the error that ends the connection. */
  datatype Incoming = Binary(data: seq<Byte>) | Control(text: seq<Byte>) | Broken(error: nat)

  /** The bytes a reader can still get out of a frame sequence. */
  function Payload(wire: seq<Incoming>): seq<Byte> {
    if wire == [] || wire[0].Broken? then []
    else (if wire[0].Binary? then wire[0].data else []) + Payload(wire[1..])
  }

  function Concat(writes: seq<seq<Byte>>): seq<Byte> {
    if writes == [] then [] else writes[0] + Concat(writes[1..])
  }

  /**
   * The wire carries the writes: their frames in order, control and empty frames anywhere in
   * between, possibly cut off by an error or not delivered to the end yet.
   */
  ghost predicate Carries(wire: seq<Incoming>, writes: seq<seq<Byte>>)
    decreases |wire|
  {
    wire == [] ||
    match wire[0]
    case Broken(_) => true
    case Control(_) => Carries(wire[1..], writes)
    case Binary(data) =>
      || (data == [] && Carries(wire[1..], writes))
      || (writes != [] && data == writes[0] && Carries(wire[1..], writes[1..]))
  }

  /** Nothing of the writes is missing from the wire. */
  ghost predicate Delivers(wire: seq<Incoming>, writes: seq<seq<Byte>>)
    decreases |wire|
  {
    if wire == [] || wire[0].Broken? then writes == []
    else if wire[0].Control? then Delivers(wire[1..], writes)
    else
      || (wire[0].data == [] && Delivers(wire[1..], writes))
      || (writes != [] && wire[0].data == writes[0] && Delivers(wire[1..], writes[1..]))
  }

  lemma {:induction false} CarriedBytes(wire: seq<Incoming>, writes: seq<seq<Byte>>)
    requires Carries(wire, writes)
    ensures Payload(wire) <= Concat(writes)
    decreases |wire|
  {
    if wire != [] && !wire[0].Broken? {
      if wire[0].Control? || (wire[0].data == [] && Carries(wire[1..], writes)) {
        CarriedBytes(wire[1..], writes);
      } else {
        CarriedBytes(wire[1..], writes[1..]);
      }
    }
  }

  lemma {:induction false} DeliveredBytes(wire: seq<Incoming>, writes: seq<seq<Byte>>)
    requires Delivers(wire, writes)
    ensures Carries(wire, writes) && Payload(wire) == Concat(writes)
    decreases |wire|
  {
    if wire != [] && !wire[0].Broken? {
      if wire[0].Control? || (wire[0].data == [] && Delivers(wire[1..], writes)) {
        DeliveredBytes(wire[1..], writes);
      } else {
        DeliveredBytes(wire[1..], writes[1..]);
      }
    }
  }

  datatype ReadResult = Data(n: nat) | End(error: nat) | WouldBlock

  /** One end of a data channel; in holds what the peer's frames still deliver, out what was written. */
  class WsNetConn {
    var incoming: seq<Incoming>
    var rbuf: seq<Byte>
    var rerr: Option<nat>
    var outgoing: seq<Incoming>
    ghost var written: seq<seq<Byte>>  // the successful writes

    ghost predicate Valid()
      reads this
    {
      Reading() && Writing()
    }

    ghost predicate Reading()
      reads this`rerr, this`rbuf
    {
      rerr.Some? ==> rbuf == []
    }

    /** Every write left in a binary frame of its own. */
    ghost predicate Writing()
      reads this`outgoing, this`written
    {
      Delivers(outgoing, written) && forall m :: m in outgoing ==> m.Binary?
    }

    /** The bytes the peer wrote that Read has not returned. */
    ghost function Pending(): seq<Byte>
      reads this`rerr, this`rbuf, this`incoming
    {
      if rerr.Some? then [] else rbuf + Payload(incoming)
    }

    constructor (wire: seq<Incoming>)
      ensures Valid() && incoming == wire && Pending() == Payload(wire) && rerr == None
      ensures outgoing == [] && written == []
    {
      incoming, rbuf, rerr, outgoing, written := wire, [], None, [], [];
    }

    /** Read: the next bytes in order, the sticky end error, or a wait for a frame not there yet. */
    method Read(p: array<Byte>) returns (r: ReadResult)
      requires Reading()
      modifies this`incoming, this`rbuf, this`rerr, p
      ensures Reading()
      ensures r.Data? ==> r.n <= p.Length && rerr == old(rerr) == None && (p.Length > 0 ==> r.n > 0)
      ensures r.Data? ==> old(Pending()) == p[..r.n] + Pending() && p[r.n..] == old(p[r.n..])
      ensures r.End? ==> rerr == Some(r.error) && old(Pending()) == []
      ensures old(rerr).Some? ==> r == End(old(rerr).value) && incoming == old(incoming)
      ensures r.WouldBlock? ==> rerr == old(rerr) == None && old(Pending()) == Pending() == [] && incoming == []
      ensures !r.Data? ==> p[..] == old(p[..])
    {
      var stop := Fill();
      if stop.Some? {
        return stop.value;
      }
      var n := if p.Length < |rbuf| then p.Length else |rbuf|;
      forall i | 0 <= i < n {
        p[i] := rbuf[i];
      }
      assert p[..n] == rbuf[..n];
      TakeFirst(rbuf, n, Payload(incoming));
      rbuf := rbuf[n..];
      return Data(n);
    }

    /** The loop of Read: skips to the next binary frame with data; stops at an end error or a missing frame. */
    method Fill() returns (stop: Option<ReadResult>)
      requires Reading()
      modifies this`incoming, this`rbuf, this`rerr
      ensures Reading()
      ensures stop.Some? ==> !stop.value.Data?
      ensures stop == None ==> rbuf != [] && rerr == old(rerr) == None && old(Pending()) == Pending()
      ensures stop.Some? && stop.value.End? ==> rerr == Some(stop.value.error) && old(Pending()) == []
      ensures old(rerr).Some? ==> stop == Some(End(old(rerr).value)) && incoming == old(incoming)
      ensures stop == Some(WouldBlock) ==> rerr == old(rerr) == None && old(Pending()) == Pending() == [] && incoming == []
    {
      while rbuf == []
        invariant Reading() && rerr == old(rerr) && Pending() == old(Pending())
        invariant old(rerr).Some? ==> incoming == old(incoming)
        decreases |incoming|, rbuf == []
      {
        if rerr.Some? {
          return Some(End(rerr.value));
        }
        if incoming == [] {
          return Some(WouldBlock);
        }
        var m := incoming[0];
        if m.Broken? {
          rerr := Some(m.error);
          return Some(End(m.error));
        }
        incoming := incoming[1..];
        if m.Binary? && |m.data| > 0 {
          rbuf := m.data;
        }
      }
      return None;
    }

    /** Write: one binary frame with the whole slice, or an error and nothing sent. */
    method Write(p: seq<Byte>, broken: bool) returns (ok: bool)
      requires Writing()
      modifies this`outgoing, this`written
      ensures Writing() && ok == !broken
      ensures written == if ok then old(written) + [p] else old(written)
      ensures outgoing == if ok then old(outgoing) + [Binary(p)] else old(outgoing)
    {
      if broken {
        return false;
      }
      DeliversSnoc(outgoing, written, p);
      outgoing, written := outgoing + [Binary(p)], written + [p];
      return true;
    }
  }

  lemma TakeFirst(buffered: seq<Byte>, n: nat, rest: seq<Byte>)
    requires n <= |buffered|
    ensures buffered + rest == buffered[..n] + (buffered[n..] + rest)
  {
  }

  lemma {:induction false} DeliversSnoc(wire: seq<Incoming>, writes: seq<seq<Byte>>, p: seq<Byte>)
    requires Delivers(wire, writes) && forall m :: m in wire ==> m.Binary?
    ensures Delivers(wire + [Binary(p)], writes + [p])
    decreases |wire|
  {
    var longer := wire + [Binary(p)];
    if wire == [] {
      assert Delivers(longer[1..], []);
    } else {
      assert longer[1..] == wire[1..] + [Binary(p)];
      if wire[0].data == [] && Delivers(wire[1..], writes) {
        DeliversSnoc(wire[1..], writes, p);
      } else {
        DeliversSnoc(wire[1..], writes[1..], p);
        assert (writes + [p])[1..] == writes[1..] + [p];
      }
    }
  }

  lemma {:induction false} ConcatSnoc(writes: seq<seq<Byte>>, p: seq<Byte>)
    ensures Concat(writes + [p]) == Concat(writes) + p
  {
    if writes == [] {
      assert Concat([p]) == p + Concat([]);
    } else {
      assert (writes + [p])[1..] == writes[1..] + [p];
      ConcatSnoc(writes[1..], p);
    }
  }

  // ---- The two-way relay ----

  lemma Append(done: seq<Byte>, chunk: seq<Byte>, rest: seq<Byte>, before: seq<Byte>, whole: seq<Byte>)
    requires done + before == whole && before == chunk + rest
    ensures (done + chunk) + rest == whole
  {
  }

  /** How a copy loop ended. */
  datatype Stop = Drained | WriteFailed

  /**
   * io.Copy(target, tunnel): the target gets a prefix of what the tunnel delivers, all of it unless
   * the target refuses a write, which it does only after it took the given number of them.
   */
  method CopyFromTunnel(tunnel: WsNetConn, buf: array<Byte>, accepts: nat)
    returns (target: seq<Byte>, stop: Stop, ghost pieces: seq<seq<Byte>>)
    requires tunnel.Reading() && buf.Length > 0
    modifies tunnel`incoming, tunnel`rbuf, tunnel`rerr, buf
    ensures tunnel.Reading()
    ensures target <= old(tunnel.Pending())
    ensures stop.Drained? ==> target == old(tunnel.Pending()) && tunnel.Pending() == []
    ensures Concat(pieces) == target && |pieces| <= accepts && (stop.WriteFailed? ==> |pieces| == accepts)
    ensures accepts >= |old(tunnel.Pending())| ==> stop.Drained?
  {
    target, pieces := [], [];
    ghost var whole := tunnel.Pending();
    var left := accepts;
    while true
      invariant tunnel.Reading() && target + tunnel.Pending() == whole
      invariant Concat(pieces) == target && |pieces| + left == accepts && |pieces| <= |target|
      decreases |tunnel.Pending()|
    {
      ghost var before := tunnel.Pending();
      var r := tunnel.Read(buf);
      if !r.Data? {
        return target, Drained, pieces;
      }
      if left == 0 {
        return target, WriteFailed, pieces;
      }
      left := left - 1;
      ConcatSnoc(pieces, buf[..r.n]);
      pieces := pieces + [buf[..r.n]];
      Append(target, buf[..r.n], tunnel.Pending(), before, whole);
      target := target + buf[..r.n];
    }
  }

  lemma NextChunk(written: seq<seq<Byte>>, base: seq<Byte>, source: seq<Byte>, sent: nat, n: nat)
    requires sent + n <= |source| && Concat(written) == base + source[..sent]
    ensures Concat(written + [source[sent..sent + n]]) == base + source[..sent + n]
  {
    ConcatSnoc(written, source[sent..sent + n]);
    assert source[..sent + n] == source[..sent] + source[sent..sent + n];
  }

  /** io.Copy(tunnel, target): chunks of any size up to the copy buffer, in order, until a write fails. */
  method CopyToTunnel(source: seq<Byte>, tunnel: WsNetConn, sizes: seq<nat>, accepts: nat) returns (sent: nat, stop: Stop)
    requires tunnel.Writing()
    modifies tunnel`outgoing, tunnel`written
    ensures tunnel.Writing() && sent <= |source|
    ensures Concat(tunnel.written) == old(Concat(tunnel.written)) + source[..sent]
    ensures stop.Drained? <==> sent == |source|
    ensures |tunnel.written| <= |old(tunnel.written)| + accepts
    ensures stop.WriteFailed? ==> |tunnel.written| == |old(tunnel.written)| + accepts
    ensures accepts >= |source| ==> stop.Drained?
  {
    sent := 0;
    var round := 0;
    while sent < |source|
      invariant tunnel.Writing() && sent <= |source|
      invariant Concat(tunnel.written) == old(Concat(tunnel.written)) + source[..sent]
      invariant |tunnel.written| == |old(tunnel.written)| + round && round <= accepts && round <= sent
      decreases |source| - sent
    {
      var want := if round < |sizes| then sizes[round] else 32768;
      var n := if want == 0 then 1 else if want <= |source| - sent then want else |source| - sent;
      NextChunk(tunnel.written, old(Concat(tunnel.written)), source, sent, n);
      var ok := tunnel.Write(source[sent..sent + n], round >= accepts);
      if !ok {
        return sent, WriteFailed;
      }
      sent, round := sent + n, round + 1;
    }
    assert source[..sent] == source;
    return sent, Drained;
  }

  /** More reads than there are bytes, none of them into an empty buffer. */
  predicate Enough(sizes: seq<nat>, bytes: nat) {
    |sizes| > bytes && forall i :: 0 <= i < |sizes| ==> sizes[i] > 0
  }

  /** Any number of reads with buffers of any sizes. */
  method ReadWith(conn: WsNetConn, sizes: seq<nat>) returns (received: seq<Byte>, drained: bool)
    requires conn.Reading()
    modifies conn`incoming, conn`rbuf, conn`rerr
    ensures conn.Reading() && received + conn.Pending() == old(conn.Pending())
    ensures drained ==> conn.Pending() == []
    ensures Enough(sizes, |old(conn.Pending())|) ==> drained
  {
    received := [];
    ghost var whole := conn.Pending();
    for i := 0 to |sizes|
      invariant conn.Reading() && received + conn.Pending() == whole
      invariant (forall j :: 0 <= j < |sizes| ==> sizes[j] > 0) ==> i <= |received|
    {
      var p := new Byte[sizes[i]];
      ghost var before := conn.Pending();
      var r := conn.Read(p);
      if !r.Data? {
        return received, true;
      }
      Append(received, p[..r.n], conn.Pending(), before, whole);
      received := received + p[..r.n];
    }
    return received, false;
  }

  /** A network that may cut the frames off and put control and empty frames anywhere, but alters none. */
  ghost predicate Honest(net: seq<Incoming> -> seq<Incoming>) {
    forall frames, writes :: Delivers(frames, writes) ==> Carries(net(frames), writes)
  }

  /** Frames that carry no bytes. */
  predicate Quiet(frames: seq<Incoming>) {
    forall m :: m in frames ==> m.Control? || m == Binary([])
  }

  /** A network that puts noise(i) before the i-th frame and breaks off with error e after n frames. */
  function Disturbed(frames: seq<Incoming>, noise: nat -> seq<Incoming>, i: nat, n: nat, e: nat): seq<Incoming> {
    noise(i) + if frames == [] then [] else if n == 0 then [Broken(e)]
               else [frames[0]] + Disturbed(frames[1..], noise, i + 1, n - 1, e)
  }

  lemma {:induction false} QuietCarries(quiet: seq<Incoming>, wire: seq<Incoming>, writes: seq<seq<Byte>>)
    requires Quiet(quiet) && Carries(wire, writes)
    ensures Carries(quiet + wire, writes)
    decreases |quiet|
  {
    if quiet == [] {
      assert quiet + wire == wire;
    } else {
      assert quiet[0] in quiet && Quiet(quiet[1..]);
      QuietCarries(quiet[1..], wire, writes);
      assert (quiet + wire)[0] == quiet[0] && (quiet + wire)[1..] == quiet[1..] + wire;
    }
  }

  lemma {:induction false} DisturbedCarries(frames: seq<Incoming>, writes: seq<seq<Byte>>,
                                            noise: nat -> seq<Incoming>, i: nat, n: nat, e: nat)
    requires Delivers(frames, writes) && forall j :: Quiet(noise(j))
    ensures Carries(Disturbed(frames, noise, i, n, e), writes)
    decreases |frames|
  {
    var rest := if frames == [] then [] else if n == 0 then [Broken(e)]
                else [frames[0]] + Disturbed(frames[1..], noise, i + 1, n - 1, e);
    if frames != [] && n > 0 && !frames[0].Broken? {
      assert rest[1..] == Disturbed(frames[1..], noise, i + 1, n - 1, e);
      if frames[0].Control? || (frames[0].data == [] && Delivers(frames[1..], writes)) {
        DisturbedCarries(frames[1..], writes, noise, i + 1, n - 1, e);
      } else {
        DisturbedCarries(frames[1..], writes[1..], noise, i + 1, n - 1, e);
      }
    }
    assert Carries(rest, writes);
    QuietCarries(noise(i), rest, writes);
  }

  /** Control and empty frames anywhere and a cut anywhere leave a network honest. */
  lemma DisturbedIsHonest(noise: nat -> seq<Incoming>, n: nat, e: nat)
    requires forall j :: Quiet(noise(j))
    ensures Honest((frames: seq<Incoming>) => Disturbed(frames, noise, 0, n, e))
  {
    forall frames: seq<Incoming>, writes: seq<seq<Byte>> | Delivers(frames, writes)
      ensures Carries(Disturbed(frames, noise, 0, n, e), writes)
    {
      DisturbedCarries(frames, writes, noise, 0, n, e);
    }
  }

  /**
   * Target to platform, through the agent's copy loop, the network and the platform's reads: whatever
   * the chunking, the frames in between and the read sizes, the reader gets a prefix of the source,
   * and all of it when the agent's tunnel takes enough writes, the network loses nothing and the
   * reader reads often enough.
   */
  method RelayedRead(source: seq<Byte>, chunks: seq<nat>, accepts: nat,
                     net: seq<Incoming> -> seq<Incoming>, sizes: seq<nat>)
    returns (received: seq<Byte>, drained: bool, stop: Stop, ghost frames: seq<Incoming>, ghost writes: seq<seq<Byte>>)
    requires Honest(net)
    ensures received <= source
    ensures Delivers(frames, writes) && Concat(writes) <= source
    ensures drained && stop.Drained? && Delivers(net(frames), writes) ==> received == source
    ensures stop.WriteFailed? ==> |writes| == accepts
    ensures accepts >= |source| && Delivers(net(frames), writes) && (drained || Enough(sizes, |source|)) ==> received == source
  {
    var agent := new WsNetConn([]);
    var sent;
    sent, stop := CopyToTunnel(source, agent, chunks, accepts);
    frames, writes := agent.outgoing, agent.written;
    assert Concat(writes) == source[..sent];
    var wire := net(agent.outgoing);
    CarriedBytes(wire, writes);
    if Delivers(wire, writes) {
      DeliveredBytes(wire, writes);
    }
    var platform := new WsNetConn(wire);
    received, drained := ReadWith(platform, sizes);
    PrefixOfPrefix(received, Payload(wire), Concat(writes), source);
  }

  /** Platform to target: the same for the other copy loop. */
  method RelayedWrite(chunks: seq<seq<Byte>>, sendable: nat, net: seq<Incoming> -> seq<Incoming>, bufSize: nat, accepts: nat)
    returns (target: seq<Byte>, stop: Stop, ghost frames: seq<Incoming>, ghost writes: seq<seq<Byte>>)
    requires Honest(net) && bufSize > 0
    ensures accepts >= |Concat(chunks)| && sendable >= |chunks| && Delivers(net(frames), writes) ==> target == Concat(chunks)
    ensures target <= Concat(chunks)
    ensures Delivers(frames, writes) && writes <= chunks && (sendable >= |chunks| ==> writes == chunks)
    ensures stop.Drained? && writes == chunks && Delivers(net(frames), writes) ==> target == Concat(chunks)
  {
    var platform := new WsNetConn([]);
    var n := WriteAll(platform, chunks, sendable);
    frames, writes := platform.outgoing, platform.written;
    ConcatPrefix(chunks, n);
    var wire := net(platform.outgoing);
    CarriedBytes(wire, writes);
    if Delivers(wire, writes) {
      DeliveredBytes(wire, writes);
    }
    var agent := new WsNetConn(wire);
    var buf := new Byte[bufSize];
    ghost var pieces;
    target, stop, pieces := CopyFromTunnel(agent, buf, accepts);
    PrefixOfPrefix(target, Payload(wire), Concat(writes), Concat(chunks));
  }

  /** Writes the chunks until the connection breaks. */
  method WriteAll(conn: WsNetConn, chunks: seq<seq<Byte>>, sendable: nat) returns (n: nat)
    requires conn.Writing() && conn.written == []
    modifies conn`outgoing, conn`written
    ensures conn.Writing() && n <= |chunks| && conn.written == chunks[..n]
    ensures sendable >= |chunks| ==> n == |chunks|
  {
    n := 0;
    while n < |chunks|
      invariant conn.Writing() && n <= |chunks| && conn.written == chunks[..n]
    {
      var ok := conn.Write(chunks[n], n >= sendable);
      if !ok {
        return;
      }
      assert chunks[..n + 1] == chunks[..n] + [chunks[n]];
      n := n + 1;
    }
  }

  lemma {:induction false} ConcatPrefix(chunks: seq<seq<Byte>>, n: nat)
    requires n <= |chunks|
    ensures Concat(chunks[..n]) <= Concat(chunks)
    ensures n == |chunks| ==> chunks[..n] == chunks
  {
    if n > 0 {
      assert chunks[..n][1..] == chunks[1..][..n - 1];
      ConcatPrefix(chunks[1..], n - 1);
    }
  }

  lemma PrefixOfPrefix(a: seq<Byte>, b: seq<Byte>, c: seq<Byte>, d: seq<Byte>)
    requires a <= b <= c <= d
    ensures a <= d
  {
  }
}
