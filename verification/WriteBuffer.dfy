/**
 The HTTP/1 write buffer: one flattened vector or a header vector with a queue of body
 buffers, drained by partial writes.
 */
module WriteBuffer {
  import opened Bytes

  const MAX_BUF_LIST_BUFFERS: nat := 16

  /** How one write call is answered: not yet, by taking up to `n` bytes, or with an error. */
  datatype Turn = Blocked | Accept(n: nat) | Broken

  datatype Flush = Pending | Flushed | Failed

  datatype Strategy = Flattened | Queued

  class BufList {
    var bufs: seq<seq<byte>>
    var remaining: nat

    constructor ()
      ensures Valid() && bufs == []
    {
      bufs, remaining := [], 0;
    }

    predicate Valid()
      reads this
    {
      remaining == |Flatten(bufs)| && forall i | 0 <= i < |bufs| :: bufs[i] != []
    }

    function Contents(): seq<byte>
      reads this
    {
      Flatten(bufs)
    }

    method Push(buf: seq<byte>)
      requires Valid() && buf != []
      modifies this
      ensures Valid() && Contents() == old(Contents()) + buf
    {
      FlattenPush(bufs, buf);
      remaining := remaining + |buf|;
      bufs := bufs + [buf];
    }

    method Advance(cnt: nat)
      requires Valid() && cnt <= remaining
      modifies this
      ensures Valid() && Contents() == old(Contents())[cnt..]
    {
      ghost var before := Contents();
      var left: nat := cnt;
      remaining := remaining - cnt;
      while left > 0
        invariant left <= cnt && left <= |Contents()|
        invariant Contents() == before[cnt - left..] && remaining == |Contents()| - left
        invariant forall i | 0 <= i < |bufs| :: bufs[i] != []
        decreases |bufs|
      {
        var front := bufs[0];
        var rest := bufs[1..];
        if |front| > left {
          bufs := [front[left..]] + rest;
          assert bufs[1..] == rest;
          assert Contents() == (front + Flatten(rest))[left..];
          return;
        }
        left := left - |front|;
        bufs := rest;
      }
    }

    /** The next `len` bytes, taken from the front buffer alone when it holds enough. */
    method CopyToBytes(len: nat) returns (out: seq<byte>)
      requires Valid() && len <= remaining
      modifies this
      ensures Valid() && out + Contents() == old(Contents()) && |out| == len
    {
      ghost var before := Contents();
      if bufs != [] && |bufs[0]| == len {
        out := bufs[0];
        bufs := bufs[1..];
        remaining := remaining - len;
      } else if bufs != [] && |bufs[0]| > len {
        out := bufs[0][..len];
        var rest := bufs[1..];
        bufs := [bufs[0][len..]] + rest;
        assert bufs[1..] == rest;
        remaining := remaining - len;
        assert out + Contents() == before;
      } else {
        out := [];
        while |out| < len
          invariant Valid() && |out| <= len && len - |out| <= remaining
          invariant out + Contents() == before
          decreases len - |out|
        {
          ghost var now := Contents();
          var front := bufs[0];
          var n := Min(|front|, len - |out|);
          assert now[..n] == front[..n];
          Advance(n);
          assert now == now[..n] + now[n..];
          out := out + front[..n];
        }
      }
    }
  }

  class WriteBuf {
    var bytes: seq<byte>
    var pos: nat
    const queue: BufList
    const strategy: Strategy
    var maxBufSize: nat

    constructor (strategy: Strategy, max: nat)
      ensures Valid() && Contents() == [] && this.strategy == strategy && fresh(queue)
    {
      bytes, pos, maxBufSize := [], 0, max;
      this.strategy := strategy;
      queue := new BufList();
    }

    /** The flattened strategy keeps everything in the one vector. */
    predicate Valid()
      reads this, queue
    {
      pos <= |bytes| && queue.Valid() && (strategy.Flattened? ==> queue.bufs == [])
    }

    function Contents(): seq<byte>
      requires Valid()
      reads this, queue
    {
      bytes[pos..] + queue.Contents()
    }

    function Remaining(): (n: nat)
      requires Valid()
      reads this, queue
      ensures n == |Contents()|
    {
      |bytes| - pos + queue.remaining
    }

    predicate CanHeadersBuf()
      reads this, queue
    {
      queue.remaining == 0
    }

    predicate CanBuffer()
      requires Valid()
      reads this, queue
    {
      (strategy.Queued? ==> |queue.bufs| < MAX_BUF_LIST_BUFFERS) && Remaining() < maxBufSize
    }

    /** Headers go into the vector, which is only in order while nothing is queued. */
    method AppendHeaders(head: seq<byte>)
      requires Valid() && CanHeadersBuf()
      modifies this
      ensures Valid() && Contents() == old(Contents()) + head
    {
      ghost var before := bytes[pos..];
      bytes := bytes + head;
      assert bytes[pos..] == before + head;
    }

    /** Drops the bytes already written when the vector has no room for what comes. */
    method MaybeUnshift(room: nat, additional: nat)
      requires Valid()
      modifies this
      ensures Valid() && Contents() == old(Contents())
    {
      if pos == 0 || room >= additional {
        return;
      }
      bytes := bytes[pos..];
      pos := 0;
    }

    /** Buffers a body buffer, given as the nonempty slices its `chunk` yields in turn. */
    method Buffer(slices: seq<seq<byte>>, room: nat)
      requires Valid() && Flatten(slices) != []
      modifies this, queue
      ensures Valid() && Contents() == old(Contents()) + Flatten(slices)
    {
      if strategy.Queued? {
        ghost var before := queue.Contents();
        queue.Push(Flatten(slices));
        assert bytes[pos..] + (before + Flatten(slices)) == bytes[pos..] + before + Flatten(slices);
        return;
      }
      MaybeUnshift(room, |Flatten(slices)|);
      ghost var before := Contents();
      var left := slices;
      while left != []
        invariant Valid() && Contents() + Flatten(left) == before + Flatten(slices)
        decreases |left|
      {
        ghost var now := bytes[pos..];
        bytes := bytes + left[0];
        assert bytes[pos..] == now + left[0];
        left := left[1..];
      }
    }

    method Advance(cnt: nat)
      requires Valid() && cnt <= |Contents()|
      modifies this, queue
      ensures Valid() && Contents() == old(Contents())[cnt..]
    {
      ghost var before := Contents();
      var hrem := |bytes| - pos;
      if hrem == cnt {
        bytes, pos := [], 0;
        assert before[cnt..] == queue.Contents();
      } else if hrem > cnt {
        pos := pos + cnt;
      } else {
        bytes, pos := [], 0;
        queue.Advance(cnt - hrem);
        assert before[cnt..] == old(queue.Contents())[cnt - hrem..];
      }
    }
  }

  /** A transport that always takes something. */
  ghost predicate Eager(turns: seq<Turn>) {
    forall i | 0 <= i < |turns| :: turns[i].Accept? && turns[i] != Accept(0)
  }

  /** The write buffer over a transport that remembers what it took. */
  class Buffered {
    const buf: WriteBuf
    var written: seq<byte>
    var turns: seq<Turn>

    constructor (strategy: Strategy, max: nat, turns: seq<Turn>)
      ensures buf.Valid() && written == [] && buf.Contents() == [] && this.turns == turns
      ensures fresh(buf) && fresh(buf.queue)
    {
      buf := new WriteBuf(strategy, max);
      written := [];
      this.turns := turns;
    }

    /** One write call; the transport takes some prefix of what it is offered. */
    method WriteSome() returns (r: Flush, n: nat)
      requires buf.Valid() && turns != []
      modifies this, buf, buf.queue
      ensures buf.Valid() && turns == old(turns)[1..]
      ensures r.Flushed? ==> n <= |old(buf.Contents())|
      ensures r.Flushed? ==> written == old(written) + old(buf.Contents())[..n]
      ensures r.Flushed? ==> buf.Contents() == old(buf.Contents())[n..]
      ensures !r.Flushed? ==> written == old(written) && buf.Contents() == old(buf.Contents())
      ensures r.Pending? <==> old(turns)[0].Blocked?
      ensures r.Failed? <==> old(turns)[0].Broken?
      ensures r.Flushed? && n == 0 && old(buf.Contents()) != [] ==> old(turns)[0] == Accept(0)
    {
      var turn := turns[0];
      turns := turns[1..];
      n := 0;
      match turn
      case Blocked => r := Pending;
      case Broken => r := Failed;
      case Accept(k) =>
        n := Min(k, buf.Remaining());
        written := written + buf.Contents()[..n];
        buf.Advance(n);
        r := Flushed;
    }

    /** Writes until the buffer is empty; taking nothing of a nonempty buffer is an error. */
    method PollFlush() returns (r: Flush)
      requires buf.Valid()
      modifies this, buf, buf.queue
      ensures buf.Valid() && written + buf.Contents() == old(written + buf.Contents())
      ensures |old(written)| <= |written|
      ensures Left(old(turns), turns)
      ensures r.Flushed? <==> buf.Contents() == []
      ensures r.Pending? ==> turns == [] || LastWas(old(turns), turns, Blocked)
      ensures r.Failed? ==> LastWas(old(turns), turns, Broken) || LastWas(old(turns), turns, Accept(0))
      ensures Eager(old(turns)) ==> |old(turns)| - |turns| <= |written| - |old(written)|
    {
      hide Flatten;
      LeftAll(turns);
      if buf.Remaining() == 0 {
        return Flushed;
      }
      ghost var total := written + buf.Contents();
      while turns != []
        invariant buf.Valid() && written + buf.Contents() == total
        invariant |old(written)| <= |written| && buf.Contents() != []
        invariant Left(old(turns), turns)
        invariant Eager(old(turns)) ==> |old(turns)| - |turns| <= |written| - |old(written)|
        decreases |turns|
      {
        LeftNext(old(turns), turns);
        ghost var now := buf.Contents();
        var w, n := WriteSome();
        if !w.Flushed? {
          return w;
        }
        assert now == now[..n] + now[n..];
        if buf.Remaining() == 0 {
          return Flushed;
        }
        if n == 0 {
          return Failed;
        }
      }
      r := Pending;
    }
  }

  // ----- whole runs -----

  datatype Op = Header(head: seq<byte>) | Body(slices: seq<seq<byte>>, room: nat) | Poll

  function Adds(op: Op): seq<byte> {
    match op
    case Header(head) => head
    case Body(slices, _) => Flatten(slices)
    case Poll => []
  }

  /** Everything a run appends, in order; neither strategy nor writes play a part. */
  function Appended(ops: seq<Op>): seq<byte> {
    if ops == [] then [] else Appended(ops[..|ops| - 1]) + Adds(ops[|ops| - 1])
  }

  lemma AppendedPush(ops: seq<Op>, op: Op)
    ensures Appended(ops + [op]) == Appended(ops) + Adds(op)
  {
    assert (ops + [op])[..|ops|] == ops;
  }

  lemma {:induction false} AppendedGrows(ops: seq<Op>, n: nat)
    requires n <= |ops|
    ensures |Appended(ops[..n])| <= |Appended(ops)|
    decreases |ops|
  {
    if n == |ops| {
      assert ops[..n] == ops;
    } else {
      AppendedGrows(ops[..|ops| - 1], n);
      assert ops[..|ops| - 1][..n] == ops[..n];
    }
  }

  /** No turn of an eager transport was wasted. */
  ghost predicate Thrifty(b: Buffered, turns: seq<Turn>)
    reads b
  {
    Left(turns, b.turns) && (Eager(turns) ==> |turns| - |b.turns| <= |b.written|)
  }

  /** Flushes when `wait` says there is no place yet. */
  method MakeRoom(b: Buffered, wait: bool, ghost turns: seq<Turn>) returns (ok: bool)
    requires b.buf.Valid() && Thrifty(b, turns)
    modifies b, b.buf, b.buf.queue
    ensures b.buf.Valid() && Thrifty(b, turns)
    ensures b.written + b.buf.Contents() == old(b.written + b.buf.Contents())
    ensures ok && wait ==> b.buf.Contents() == []
    ensures !wait ==> ok && unchanged(b, b.buf, b.buf.queue)
    ensures !ok && Eager(turns) ==> |turns| < |b.written + b.buf.Contents()|
  {
    hide Flatten;
    if !wait {
      return true;
    }
    ghost var was := b.turns;
    LeftAll(turns);
    var r := b.PollFlush();
    LeftThen(turns, was, b.turns);
    ok := r.Flushed?;
  }

  /** Carries out one operation; a head waits until nothing is queued, a body buffer for room. */
  method Carry(b: Buffered, op: Op, ghost turns: seq<Turn>) returns (ok: bool)
    requires b.buf.Valid() && Thrifty(b, turns) && (op.Body? ==> Flatten(op.slices) != [])
    modifies b, b.buf, b.buf.queue
    ensures b.buf.Valid() && Thrifty(b, turns)
    ensures ok ==> b.written + b.buf.Contents() == old(b.written + b.buf.Contents()) + Adds(op)
    ensures !ok ==> b.written + b.buf.Contents() == old(b.written + b.buf.Contents()) && !op.Poll?
    ensures !ok && Eager(turns) ==> |turns| < |b.written + b.buf.Contents()|
  {
    hide Flatten, Thrifty, Eager;
    match op {
      case Header(head) =>
        ok := MakeRoom(b, !b.buf.CanHeadersBuf(), turns);
        if ok {
          b.buf.AppendHeaders(head);
        }
      case Body(slices, room) =>
        ok := MakeRoom(b, !b.buf.CanBuffer(), turns);
        if ok {
          b.buf.Buffer(slices, room);
        }
      case Poll =>
        var _ := MakeRoom(b, true, turns);
        ok := true;
    }
  }

  /**
   For either strategy and every transport, what was written followed by what is still
   buffered is what the operations carried out so far appended; and a transport that keeps
   taking bytes carries out every operation.
   */
  method Replay(strategy: Strategy, max: nat, turns: seq<Turn>, ops: seq<Op>)
    returns (out: seq<byte>, left: seq<byte>, done: nat)
    requires forall op | op in ops && op.Body? :: Flatten(op.slices) != []
    ensures done <= |ops| && out + left == Appended(ops[..done])
    ensures done < |ops| ==> !ops[done].Poll?
    ensures Eager(turns) && |turns| >= |Appended(ops)| ==> done == |ops|
  {
    hide Flatten, Appended, Adds, Eager;
    assert Appended(ops[..0]) == [] by { NothingAppended(); assert ops[..0] == []; }
    var b := new Buffered(strategy, max, turns);
    done := 0;
    LeftAll(turns);
    while done < |ops|
      invariant done <= |ops| && b.buf.Valid() && fresh(b) && fresh(b.buf) && fresh(b.buf.queue)
      invariant b.written + b.buf.Contents() == Appended(ops[..done]) && Thrifty(b, turns)
    {
      var op := ops[done];
      assert op in ops;
      AppendedPush(ops[..done], op);
      assert ops[..done + 1] == ops[..done] + [op];
      AppendedGrows(ops, done);
      var ok := Carry(b, op, turns);
      if !ok {
        break;
      }
      done := done + 1;
    }
    out, left := b.written, b.buf.Contents();
  }

  lemma NothingAppended()
    ensures Appended([]) == []
  {
  }
}
