/**
 Reading a CONNECT proxy's response: interim heads and the final head share one fixed buffer,
 and no byte of the tunnel behind them may be taken from the transport.
 */
module ProxyHead {
  import opened Bytes
  import M = MemRead

  const MAX_RESPONSE_HEAD: nat := 8192

  /** What the head parser says about a byte string. */
  datatype Parse = Partial | Complete(size: nat, status: nat) | TooManyHeaders | Invalid

  type Parser = seq<byte> -> Parse

  datatype Outcome =
    | Tunnelled
    | Suspended
    | HeadersTooLong
    | UnexpectedEof
    | IoError
    | Unparsable
    | AuthRequired
    | Unsuccessful(status: nat)

  predicate EndsWith(s: seq<byte>, t: seq<byte>) {
    |t| <= |s| && s[|s| - |t|..] == t
  }

  predicate EndsBlank(s: seq<byte>) {
    EndsWith(s, [LF, LF]) || EndsWith(s, [LF, CR, LF])
  }

  /** A head ends at its blank line and is the same whatever follows it. */
  ghost predicate ReadsHeads(parse: Parser) {
    forall h: seq<byte> {:trigger parse(h)} :: parse(h).Complete? ==>
      var n := parse(h).size;
      0 < n <= |h| && EndsBlank(h[..n]) && parse(h[..n]) == parse(h)
  }

  predicate Whole(parse: Parser, h: seq<byte>) {
    parse(h).Complete? && parse(h).size == |h|
  }

  /** No prefix of `h`, itself included, is a head. */
  predicate Headless(parse: Parser, h: seq<byte>) {
    forall k | 0 <= k <= |h| :: !Whole(parse, h[..k])
  }

  predicate Unended(parse: Parser, h: seq<byte>) {
    forall k | 0 <= k < |h| :: !Whole(parse, h[..k])
  }

  /** A head with no shorter head in it. */
  predicate IsHead(parse: Parser, h: seq<byte>) {
    Whole(parse, h) && Unended(parse, h)
  }

  function Status(parse: Parser, h: seq<byte>): nat {
    if parse(h).Complete? then parse(h).status else 0
  }

  predicate Interim(status: nat) { 100 <= status < 200 && status != 101 }

  predicate Success(status: nat) { 200 <= status < 300 }

  /** Interim heads followed by one head that is not interim. */
  predicate IsResponse(parse: Parser, heads: seq<seq<byte>>) {
    heads != [] &&
    IsHead(parse, heads[0]) &&
    if |heads| == 1 then !Interim(Status(parse, heads[0]))
    else Interim(Status(parse, heads[0])) && IsResponse(parse, heads[1..])
  }

  predicate Interims(parse: Parser, heads: seq<seq<byte>>) {
    forall i | 0 <= i < |heads| :: IsHead(parse, heads[i]) && Interim(Status(parse, heads[i]))
  }

  lemma {:induction false} ResponseEnds(parse: Parser, heads: seq<seq<byte>>, last: seq<byte>)
    requires Interims(parse, heads) && IsHead(parse, last) && !Interim(Status(parse, last))
    ensures IsResponse(parse, heads + [last]) && Flatten(heads + [last]) == Flatten(heads) + last
  {
    if heads == [] {
      assert heads + [last] == [last];
      assert Flatten([last]) == last + Flatten([last][1..]) == last;
    } else {
      assert (heads + [last])[1..] == heads[1..] + [last];
      ResponseEnds(parse, heads[1..], last);
    }
  }

  /** After a line break one byte may end the head, otherwise no fewer than two. */
  predicate AfterBreak(head: seq<byte>) {
    EndsWith(head, [LF]) || EndsWith(head, [LF, CR])
  }

  lemma BlankAfterBreak(h: seq<byte>)
    requires EndsBlank(h)
    ensures AfterBreak(h[..|h| - 1])
  {
    var p := h[..|h| - 1];
    if EndsWith(h, [LF, LF]) {
      assert p[|p| - 1] == h[|h| - 2] == h[|h| - 2..][0];
    } else {
      assert p[|p| - 2] == h[|h| - 3] == h[|h| - 3..][0] && p[|p| - 1] == h[|h| - 2] == h[|h| - 3..][1];
    }
  }

  lemma HeadFacts(parse: Parser, h: seq<byte>)
    requires ReadsHeads(parse) && parse(h).Complete?
    ensures var n := parse(h).size; 0 < n <= |h| && EndsBlank(h[..n]) && parse(h[..n]) == parse(h)
  {
    hide EndsBlank;
  }

  /** A read of the allowed size cannot step over the end of a head. */
  lemma NothingSkipped(parse: Parser, head: seq<byte>, more: seq<byte>)
    requires ReadsHeads(parse) && Headless(parse, head)
    requires |more| == 1 || (|more| == 2 && !AfterBreak(head))
    ensures Unended(parse, head + more)
  {
    hide ReadsHeads;
    var h := head + more;
    forall k | 0 <= k < |h|
      ensures !Whole(parse, h[..k])
    {
      if k <= |head| {
        assert h[..k] == head[..k];
      } else {
        var p := h[..k];
        assert p[..k - 1] == head;
        if Whole(parse, p) {
          assert p[..|p|] == p;
          HeadFacts(parse, p);
          BlankAfterBreak(p);
        }
      }
    }
  }

  function TrimStart(s: seq<byte>): seq<byte> {
    if s != [] && s[0] in {SP, HTAB, LF, CR, 12} then TrimStart(s[1..]) else s
  }

  /** What a head that does parse, or does not end, means for the caller. */
  lemma Parsed(parse: Parser, h: seq<byte>)
    requires ReadsHeads(parse) && Unended(parse, h)
    ensures parse(h).Complete? ==> parse(h).size == |h| && IsHead(parse, h)
    ensures !parse(h).Complete? || !EndsBlank(h) ==> Headless(parse, h)
  {
    hide ReadsHeads;
    assert h[..|h|] == h;
    if parse(h).Complete? {
      HeadFacts(parse, h);
      var n := parse(h).size;
      assert Whole(parse, h[..n]);
    }
  }

  method Fill(buf: array<byte>, len: nat, bytes: seq<byte>) returns (end: nat)
    requires len + |bytes| <= buf.Length
    modifies buf
    ensures end == len + |bytes|
    ensures buf[..len] == old(buf[..len]) && buf[len..end] == bytes
  {
    forall i | 0 <= i < |bytes| {
      buf[len + i] := bytes[i];
    }
    end := len + |bytes|;
  }

  /** Reads no further than the earliest possible end of the current head. */
  method ReadMore(io: M.Reader, parse: Parser, buf: array<byte>, start: nat, len: nat)
    returns (read: M.Read, end: nat)
    requires ReadsHeads(parse) && start <= len < buf.Length
    requires Headless(parse, buf[start..len])
    modifies io, buf
    ensures buf[..start] == old(buf[..start]) && buf[start..len] == old(buf[start..len])
    ensures len <= end <= buf.Length && buf[..end] + io.rest == old(buf[..len] + io.rest)
    ensures read.Ready? ==> (read.bytes == [] <==> end == len)
    ensures read.Ready? && end == len ==> io.rest == []
    ensures io.turns == if old(io.turns) == [] then [] else old(io.turns)[1..]
    ensures read.Pending? <==> old(io.turns) == [] || old(io.turns)[0].Blocked?
    ensures read.IoError? <==> old(io.turns) != [] && old(io.turns)[0].Broken?
    ensures !read.Ready? ==> end == len
    ensures read.Ready? && end > len ==> Unended(parse, buf[start..end])
  {
    hide ReadsHeads, Headless, EndsWith;
    ghost var before := buf[start..len];
    var want := if AfterBreak(buf[start..len]) then 1 else 2;
    var limit := Min(len + want, buf.Length);
    read := io.ReadMem(limit - len);
    end := len;
    if read.Ready? && read.bytes != [] {
      end := Fill(buf, len, read.bytes);
      NothingSkipped(parse, before, read.bytes);
      assert buf[start..end] == before + read.bytes by { Joined(buf, start, len, end, before); }
      assert buf[..start] == old(buf[..len])[..start];
      assert buf[..end] == old(buf[..len]) + read.bytes by { Joined(buf, 0, len, end, old(buf[..len])); }
    }
  }

  lemma Joined(buf: array<byte>, start: nat, len: nat, end: nat, before: seq<byte>)
    requires start <= len <= end <= buf.Length && buf[start..len] == before
    ensures buf[start..end] == before + buf[len..end]
  {
  }

  lemma InterimsPush(parse: Parser, heads: seq<seq<byte>>, h: seq<byte>)
    requires Interims(parse, heads) && IsHead(parse, h) && Interim(Status(parse, h))
    ensures Interims(parse, heads + [h]) && Flatten(heads + [h]) == Flatten(heads) + h
  {
    hide IsHead;
    FlattenPush(heads, h);
  }

  /** Of the turns so far none broke, and each that returned bytes is among the `n` read. */
  predicate Steady(turns: seq<M.Turn>, later: seq<M.Turn>, n: nat) {
    M.Uptos(turns) <= M.Uptos(later) + n && (M.NoneBroken(turns) ==> M.NoneBroken(later))
  }

  lemma Fresh(turns: seq<M.Turn>)
    ensures Steady(turns, turns, 0)
  {
  }

  lemma Waited(turns: seq<M.Turn>, was: seq<M.Turn>, n: nat)
    requires Steady(turns, was, n) && (was == [] || was[0].Blocked?)
    ensures Steady(turns, if was == [] then [] else was[1..], n)
  {
  }

  lemma Answered(turns: seq<M.Turn>, was: seq<M.Turn>, n: nat, m: nat)
    requires Steady(turns, was, n) && was != [] && n < m
    ensures Steady(turns, was[1..], m)
  {
  }

  lemma Ran(turns: seq<M.Turn>, n: nat)
    requires Steady(turns, [], n)
    ensures M.Uptos(turns) <= n
  {
  }

  lemma BrokeOff(turns: seq<M.Turn>, was: seq<M.Turn>, n: nat)
    requires Steady(turns, was, n) && was != [] && was[0].Broken?
    ensures !M.NoneBroken(turns)
  {
  }

  /** What the caller learns from the final head's status. */
  function Verdict(status: nat): Outcome {
    if Success(status) then Tunnelled else if status == 407 then AuthRequired else Unsuccessful(status)
  }

  predicate Final(r: Outcome) { r.Tunnelled? || r.AuthRequired? || r.Unsuccessful? }

  /** Interim heads were taken, and then `partial` of the head that follows them. */
  predicate Started(parse: Parser, stream: seq<byte>, rest: seq<byte>, heads: seq<seq<byte>>, partial: seq<byte>) {
    Interims(parse, heads) && stream == Flatten(heads) + partial + rest
  }

  /**
   Reads the proxy's response. Success means that exactly the interim heads and a final 2xx
   head were taken, in at most 8192 bytes, and everything behind them is still to be read.
   Otherwise the outcome is that of the head which was being read.
   */
  method ReadResponse(io: M.Reader, parse: Parser)
    returns (r: Outcome, ghost heads: seq<seq<byte>>, ghost partial: seq<byte>)
    requires ReadsHeads(parse)
    modifies io
    ensures |old(io.rest)| - |io.rest| <= MAX_RESPONSE_HEAD
    ensures Final(r) ==> IsResponse(parse, heads) && old(io.rest) == Flatten(heads) + io.rest
    ensures r.Tunnelled? ==> Success(Status(parse, heads[|heads| - 1]))
    ensures r.AuthRequired? ==> Status(parse, heads[|heads| - 1]) == 407
    ensures r.Unsuccessful? ==>
              Status(parse, heads[|heads| - 1]) == r.status && !Success(r.status) && r.status != 407
    // A blocked read is resumed where it stopped, so only a transport that stops answering suspends it.
    ensures r.Suspended? ==> io.turns == []
    ensures M.NoneBroken(old(io.turns)) && M.Uptos(old(io.turns)) > MAX_RESPONSE_HEAD ==>
              !r.Suspended? && !r.IoError?
    ensures !Final(r) ==> Started(parse, old(io.rest), io.rest, heads, partial) && Unended(parse, partial)
    ensures r.UnexpectedEof? ==> io.rest == [] && Headless(parse, partial)
    ensures r.Suspended? || r.IoError? ==> Headless(parse, partial)
    ensures r.HeadersTooLong? ==>
              || (|Flatten(heads) + partial| == MAX_RESPONSE_HEAD && Headless(parse, partial))
              || parse(partial).TooManyHeaders?
    ensures r.Unparsable? ==>
              parse(partial).Invalid? || (Whole(parse, partial) && !(100 <= Status(parse, partial) <= 999))
  {
    hide Flatten, IsResponse, EndsWith, ReadsHeads, Headless, Unended, IsHead, Interims, TrimStart, Steady;
    Fresh(io.turns);
    var buf := new byte[MAX_RESPONSE_HEAD];
    var start, len := 0, 0;
    heads, partial := [], [];
    NothingYet(parse);
    assert buf[0..0] == [] && buf[..0] == [];
    while true
      invariant 0 <= start <= len <= buf.Length
      invariant buf[..len] + io.rest == old(io.rest)
      invariant Interims(parse, heads) && Flatten(heads) == buf[..start]
      invariant partial == buf[start..len] && Headless(parse, partial) && Unended(parse, partial)
      invariant Steady(old(io.turns), io.turns, len)
      decreases |io.turns|
    {
      ghost var was, had := io.turns, len;
      assert buf[..start] + partial == buf[..len];
      if len == buf.Length {
        return HeadersTooLong, heads, partial;
      }
      var read, end := ReadMore(io, parse, buf, start, len);
      match read {
        case Pending =>
          Waited(old(io.turns), was, len);
          if io.turns == [] {
            Ran(old(io.turns), len);
            return Suspended, heads, partial;
          }
          continue;
        case IoError =>
          BrokeOff(old(io.turns), was, len);
          return IoError, heads, partial;
        case Ready(bytes) =>
          if bytes == [] {
            return UnexpectedEof, heads, partial;
          }
      }
      len := end;
      Answered(old(io.turns), was, had, len);
      var head := buf[start..len];
      partial := head;
      Parsed(parse, head);
      if !EndsBlank(head) && |TrimStart(head)| > 13 {
        continue;
      }
      assert buf[..start] + head == buf[..len];
      match parse(head) {
        case Partial => continue;
        case TooManyHeaders => return HeadersTooLong, heads, partial;
        case Invalid => return Unparsable, heads, partial;
        case Complete(parsed, status) =>
          if !(100 <= status <= 999) {
            return Unparsable, heads, partial;
          }
          if !Interim(status) {
            ResponseEnds(parse, heads, head);
            heads := heads + [head];
            assert Flatten(heads) == buf[..len];
            return Verdict(status), heads, [];
          }
          InterimsPush(parse, heads, head);
          heads, partial := heads + [head], [];
          start := start + parsed;
          NothingYet(parse);
          assert buf[start..len] == [];
      }
    }
  }

  lemma NothingYet(parse: Parser)
    requires ReadsHeads(parse)
    ensures Headless(parse, []) && Unended(parse, []) && Interims(parse, []) && Flatten([]) == []
  {
    hide ReadsHeads;
    var none: seq<byte> := [];
    if parse(none).Complete? {
      HeadFacts(parse, none);
    }
    assert none[..0] == none && !Whole(parse, none);
  }

  /** Two heads at the front of the same bytes are the same head. */
  lemma OneHead(parse: Parser, a: seq<byte>, b: seq<byte>, s: seq<byte>)
    requires IsHead(parse, a) && IsHead(parse, b) && a <= s && b <= s
    ensures a == b
  {
    var n := Min(|a|, |b|);
    assert a[..n] == s[..n] == b[..n] && a[..|a|] == a && b[..|b|] == b;
  }

  /** A stream has at most one response at its front, so the tunnel begins at one place. */
  lemma {:induction false} OneResponse(parse: Parser, a: seq<seq<byte>>, x: seq<byte>, b: seq<seq<byte>>, y: seq<byte>)
    requires IsResponse(parse, a) && IsResponse(parse, b) && Flatten(a) + x == Flatten(b) + y
    ensures a == b && x == y
  {
    hide IsHead;
    var s, x', y' := Flatten(a) + x, Flatten(a[1..]) + x, Flatten(b[1..]) + y;
    assert s == a[0] + x' && s == b[0] + y';
    OneHead(parse, a[0], b[0], s);
    assert x' == s[|a[0]|..] == y';
    if |a| == 1 {
      assert a[1..] == [] && b[1..] == [];
    } else {
      OneResponse(parse, a[1..], x, b[1..], y);
    }
    assert a == [a[0]] + a[1..] && b == [b[0]] + b[1..];
  }

  /** A head the parser waits for to its last byte and then takes. */
  predicate Recognised(parse: Parser, h: seq<byte>) {
    && Whole(parse, h) && 100 <= Status(parse, h) <= 999
    && forall k | 0 <= k < |h| :: parse(h[..k]).Partial?
  }

  predicate Answers(parse: Parser, hs: seq<seq<byte>>) {
    && IsResponse(parse, hs) && |Flatten(hs)| <= MAX_RESPONSE_HEAD
    && forall i | 0 <= i < |hs| :: Recognised(parse, hs[i])
  }

  /** Interim heads taken from the front of a response are heads of that response. */
  lemma {:induction false} Along(parse: Parser, heads: seq<seq<byte>>, x: seq<byte>,
                                 hs: seq<seq<byte>>, y: seq<byte>)
    requires Interims(parse, heads) && IsResponse(parse, hs) && Flatten(heads) + x == Flatten(hs) + y
    ensures |heads| < |hs| && x == Flatten(hs[|heads|..]) + y
    ensures |Flatten(hs)| == |Flatten(heads)| + |Flatten(hs[|heads|..])|
  {
    hide IsHead;
    if heads == [] {
      assert hs[0..] == hs;
    } else {
      var s, x', y' := Flatten(heads) + x, Flatten(heads[1..]) + x, Flatten(hs[1..]) + y;
      assert s == heads[0] + x' && s == hs[0] + y';
      OneHead(parse, heads[0], hs[0], s);
      assert x' == s[|hs[0]|..] == y';
      Along(parse, heads[1..], x, hs[1..], y);
      assert hs[1..][|heads| - 1..] == hs[|heads|..];
    }
  }

  /** Nothing stops short of a head that is there to be read. */
  lemma NoOtherOutcome(parse: Parser, r: Outcome, read: nat, partial: seq<byte>, rest: seq<byte>,
                       h: seq<byte>, more: seq<byte>)
    requires Recognised(parse, h) && partial + rest == h + more && read + |h| <= MAX_RESPONSE_HEAD
    requires Unended(parse, partial) && !r.Suspended? && !r.IoError?
    requires r.UnexpectedEof? ==> rest == [] && Headless(parse, partial)
    requires r.HeadersTooLong? ==>
               || (read + |partial| == MAX_RESPONSE_HEAD && Headless(parse, partial))
               || parse(partial).TooManyHeaders?
    requires r.Unparsable? ==>
               parse(partial).Invalid? || (Whole(parse, partial) && !(100 <= Status(parse, partial) <= 999))
    ensures Final(r)
  {
    var s := partial + rest;
    if |partial| < |h| {
      assert partial == s[..|partial|] == h[..|partial|];
    } else {
      assert h == s[..|h|] == partial[..|h|];
    }
  }

  /**
   Reads a whole stream through any pattern of reads. When a response of at most 8192 bytes is
   at its front and enough reads answer, it is taken exactly, and the tunnel is left unread.
   */
  method ReadAnswer(parse: Parser, stream: seq<byte>, turns: seq<M.Turn>,
                    ghost hs: seq<seq<byte>>, ghost tunnel: seq<byte>)
    returns (r: Outcome, unread: seq<byte>)
    requires ReadsHeads(parse)
    ensures Answers(parse, hs) && stream == Flatten(hs) + tunnel
            && M.NoneBroken(turns) && M.Uptos(turns) > MAX_RESPONSE_HEAD ==>
              unread == tunnel && r == Verdict(Status(parse, hs[|hs| - 1]))
  {
    hide ReadsHeads, IsResponse, Recognised, Flatten;
    var io := new M.Reader(stream, turns);
    ghost var heads, partial;
    r, heads, partial := ReadResponse(io, parse);
    unread := io.rest;
    if Answers(parse, hs) && stream == Flatten(hs) + tunnel && M.NoneBroken(turns)
       && M.Uptos(turns) > MAX_RESPONSE_HEAD {
      if !Final(r) {
        Finishes(parse, stream, r, heads, partial, io.rest, hs, tunnel);
      }
      OneResponse(parse, heads, io.rest, hs, tunnel);
    }
  }

  lemma Finishes(parse: Parser, stream: seq<byte>, r: Outcome, heads: seq<seq<byte>>, partial: seq<byte>,
                 rest: seq<byte>, hs: seq<seq<byte>>, tunnel: seq<byte>)
    requires Answers(parse, hs) && stream == Flatten(hs) + tunnel
    requires Started(parse, stream, rest, heads, partial)
    requires Unended(parse, partial) && !r.Suspended? && !r.IoError?
    requires r.UnexpectedEof? ==> rest == [] && Headless(parse, partial)
    requires r.HeadersTooLong? ==>
               || (|Flatten(heads) + partial| == MAX_RESPONSE_HEAD && Headless(parse, partial))
               || parse(partial).TooManyHeaders?
    requires r.Unparsable? ==>
               parse(partial).Invalid? || (Whole(parse, partial) && !(100 <= Status(parse, partial) <= 999))
    ensures Final(r)
  {
    hide Recognised, Unended, Headless, IsResponse, Interims;
    assert Flatten(heads) + partial + rest == Flatten(heads) + (partial + rest);
    Along(parse, heads, partial + rest, hs, tunnel);
    var left := hs[|heads|..];
    var h := hs[|heads|];
    assert Flatten(left) == h + Flatten(left[1..]);
    assert partial + rest == h + (Flatten(left[1..]) + tunnel);
    NoOtherOutcome(parse, r, |Flatten(heads)|, partial, rest, h, Flatten(left[1..]) + tunnel);
  }
}
