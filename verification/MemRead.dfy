/**
 The transport's in-memory reads. What the peer sends and how each read is answered are fixed
 in advance, so every fragmentation of every stream is one value of `rest` and `turns`.
 */
module MemRead {
  import opened Bytes

  /** How one read call is answered: not yet, with up to `n` bytes, or with an I/O error. */
  datatype Turn = Blocked | Upto(n: nat) | Broken

  /** How many of the coming reads return something. */
  function Uptos(turns: seq<Turn>): nat {
    if turns == [] then 0 else (if turns[0].Upto? then 1 else 0) + Uptos(turns[1..])
  }

  predicate NoneBroken(turns: seq<Turn>) {
    forall i | 0 <= i < |turns| :: !turns[i].Broken?
  }

  /** A pending answer has a cause: the turns ran out, or the last one blocked. */
  ghost predicate Stalled(turns: seq<Turn>, later: seq<Turn>) {
    later == [] || (|later| < |turns| && LastUsed(turns, later).Blocked?)
  }

  datatype Read = Pending | Ready(bytes: seq<byte>) | IoError

  class Reader {
    /** Bytes the peer sent that no read returned yet; end of file follows them. */
    var rest: seq<byte>
    var turns: seq<Turn>

    constructor (stream: seq<byte>, turns: seq<Turn>)
      ensures rest == stream && this.turns == turns
    {
      rest := stream;
      this.turns := turns;
    }

    /** Returns a nonempty prefix of at most `len` bytes, or nothing at end of file. */
    method ReadMem(len: nat) returns (r: Read)
      requires len > 0
      modifies this
      ensures turns == if old(turns) == [] then [] else old(turns)[1..]
      ensures r.Pending? <==> old(turns) == [] || old(turns)[0].Blocked?
      ensures r.IoError? <==> old(turns) != [] && old(turns)[0].Broken?
      ensures r.Ready? ==> |r.bytes| <= len && old(rest) == r.bytes + rest
      ensures r.Ready? ==> (r.bytes == [] <==> old(rest) == [])
      ensures !r.Ready? ==> rest == old(rest)
    {
      if turns == [] {
        return Pending;
      }
      var turn := turns[0];
      turns := turns[1..];
      match turn
      case Blocked => r := Pending;
      case Broken => r := IoError;
      case Upto(n) =>
        var k := Min(Min(if n == 0 then 1 else n, len), |rest|);
        r := Ready(rest[..k]);
        rest := rest[k..];
    }
  }
}
