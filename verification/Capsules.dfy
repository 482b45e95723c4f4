/**
 Capsule framing of a MASQUE UDP tunnel: the streaming DATAGRAM capsule decoder against a
 one-pass reading of the whole stream, and the UDP payload rules on top of it.
 */
module Capsules {
  import opened Bytes
  import Varint

  const MAX_UDP_PAYLOAD: nat := 65527
  const MAX_DATAGRAM: nat := 8 + MAX_UDP_PAYLOAD
  const DATAGRAM: nat := 0

  // ----- one pass over a whole stream -----

  /** What the front of a stream says about its first capsule. */
  datatype Front =
    | More
    | Malformed
    | Datagram(value: seq<byte>, size: nat)
    | Other(header: nat, length: nat)

  function Parse(s: seq<byte>): (f: Front)
    ensures s == [] ==> f == More
    ensures f.Datagram? ==> 2 <= f.size <= |s|
    ensures f.Other? ==> 2 <= f.header <= |s|
  {
    var kind := Varint.Decode(s);
    if kind.None? then More
    else
      var length := Varint.Decode(s[kind.value.1..]);
      if length.None? then More
      else
        var header := kind.value.1 + length.value.1;
        var n := length.value.0;
        if kind.value.0 != DATAGRAM then Other(header, n)
        else if n <= MAX_DATAGRAM then
          if |s| < header + n then More else Datagram(s[header..header + n], header + n)
        else
          match Varint.Decode(s[header..])
          case None => More
          case Some((context, _)) => if context == 0 then Malformed else Other(header, n)
  }

  /** How a stream ends: outside a capsule, inside one, or by breaking the format. */
  datatype Ending = Clean | Partial | Broken

  datatype Reading = Reading(values: seq<seq<byte>>, ending: Ending)

  function Batch(s: seq<byte>): Reading
    decreases |s|, 0
  {
    if s == [] then Reading([], Clean)
    else
      match Parse(s)
      case More => Reading([], Partial)
      case Malformed => Reading([], Broken)
      case Datagram(value, size) =>
        var rest := Batch(s[size..]);
        Reading([value] + rest.values, rest.ending)
      case Other(header, length) => BatchAfter(length, s[header..])
  }

  /** The same with `skip` bytes of an ignored capsule still to come. */
  function BatchAfter(skip: nat, s: seq<byte>): Reading
    decreases |s|, 1
  {
    if skip > |s| then Reading([], Partial) else Batch(s[skip..])
  }

  // ----- the streaming decoder -----

  datatype Result = Need | Value(value: seq<byte>) | Error

  /** One call of `decode` on what is buffered: its result, then `skip` and the buffer. */
  function Decoded(skip: nat, buf: seq<byte>): (r: (Result, nat, seq<byte>))
    decreases |buf|
  {
    if skip > |buf| then (Need, skip - |buf|, [])
    else
      var s := buf[skip..];
      match Parse(s)
      case More => (Need, 0, s)
      case Malformed => (Error, 0, s)
      case Datagram(value, size) => (Value(value), 0, s[size..])
      case Other(header, length) => Decoded(length, s[header..])
  }

  lemma Skipped(skip: nat, buf: seq<byte>)
    ensures Decoded(skip, buf) ==
            if skip > |buf| then (Need, skip - |buf|, []) else Decoded(0, buf[skip..])
  {
    if skip <= |buf| {
      assert buf[skip..][0..] == buf[skip..];
    }
  }

  lemma Unskipped(s: seq<byte>)
    ensures var f := Parse(s);
            && (f.More? ==> Decoded(0, s) == (Need, 0, s))
            && (f.Malformed? ==> Decoded(0, s) == (Error, 0, s))
            && (f.Datagram? ==> Decoded(0, s) == (Value(f.value), 0, s[f.size..]))
            && (f.Other? ==> Decoded(0, s) == Decoded(f.length, s[f.header..]))
  {
    assert s[0..] == s;
  }

  class Decoder {
    var skip: nat

    constructor ()
      ensures skip == 0
    {
      skip := 0;
    }

    method Decode(buf: seq<byte>) returns (r: Result, rest: seq<byte>)
      modifies this
      ensures (r, skip, rest) == Decoded(old(skip), buf)
    {
      hide Varint.Decode, Decoded;
      rest := buf;
      while true
        invariant Decoded(skip, rest) == Decoded(old(skip), buf)
        decreases |rest|
      {
        Skipped(skip, rest);
        if skip > 0 {
          var n := Min(skip, |rest|);
          rest := rest[n..];
          skip := skip - n;
          if skip > 0 {
            assert rest == [];
            return Need, rest;
          }
        }
        Unskipped(rest);
        var kind := Varint.Decode(rest);
        if kind.None? {
          return Need, rest;
        }
        var length := Varint.Decode(rest[kind.value.1..]);
        if length.None? {
          return Need, rest;
        }
        var header := kind.value.1 + length.value.1;
        if kind.value.0 == DATAGRAM {
          var n := length.value.0;
          if n <= MAX_DATAGRAM {
            if |rest| < header + n {
              return Need, rest;
            }
            var s := rest[header..];
            assert s[..n] == rest[header..header + n] && s[n..] == rest[header + n..];
            return Value(s[..n]), s[n..];
          }
          var context := Varint.Decode(rest[header..]);
          if context.None? {
            return Need, rest;
          }
          if context.value.0 == 0 {
            return Error, rest;
          }
        }
        rest := rest[header..];
        skip := length.value.0;
      }
    }

    function IsPartial(buf: seq<byte>): bool
      reads this
    {
      Stopped(skip, buf) == Partial
    }
  }

  function Stopped(skip: nat, buf: seq<byte>): Ending {
    if skip > 0 || buf != [] then Partial else Clean
  }

  // ----- later bytes never change what was decided -----

  lemma ParseExtends(s: seq<byte>, t: seq<byte>)
    ensures !Parse(s).More? ==> Parse(s + t) == Parse(s)
  {
    hide Varint.Decode;
    if !Parse(s).More? {
      Varint.DecodePrefix(s, t);
      var k := Varint.Decode(s).value.1;
      assert (s + t)[k..] == s[k..] + t;
      Varint.DecodePrefix(s[k..], t);
      var n := Varint.Decode(s[k..]).value.0;
      var header := k + Varint.Decode(s[k..]).value.1;
      assert (s + t)[header..] == s[header..] + t;
      if header + n <= |s| {
        assert (s + t)[header..header + n] == s[header..header + n];
      }
      Varint.DecodePrefix(s[header..], t);
    }
  }

  function Prepend(r: Result, rest: Reading): Reading {
    match r
    case Need => rest
    case Value(v) => Reading([v] + rest.values, rest.ending)
    case Error => Reading([], Broken)
  }

  /** One call leaves exactly the rest of the stream to be read, whatever bytes follow. */
  lemma {:induction false} DecodedReads(skip: nat, buf: seq<byte>, tail: seq<byte>)
    ensures var (r, skip', buf') := Decoded(skip, buf);
            BatchAfter(skip, buf + tail) == Prepend(r, BatchAfter(skip', buf' + tail))
    decreases |buf|
  {
    hide Parse;
    if skip > |buf| {
      assert [] + tail == tail;
      if skip <= |buf + tail| {
        assert (buf + tail)[skip..] == tail[skip - |buf|..];
      }
    } else {
      var s := buf[skip..];
      assert (buf + tail)[skip..] == s + tail;
      assert (s + tail)[0..] == s + tail;
      ParseExtends(s, tail);
      match Parse(s) {
        case More =>
        case Malformed =>
        case Datagram(value, size) =>
          assert (s + tail)[size..] == s[size..] + tail;
          assert (s[size..] + tail)[0..] == s[size..] + tail;
        case Other(header, length) =>
          assert (s + tail)[header..] == s[header..] + tail;
          DecodedReads(length, s[header..], tail);
      }
    }
  }

  /** A call that needs more holds a bounded prefix of one capsule and no finished value. */
  lemma {:induction false} NeedIsBounded(skip: nat, buf: seq<byte>)
    ensures var (r, skip', buf') := Decoded(skip, buf);
            r.Need? ==> |buf'| < 16 + 65535 && BatchAfter(skip', buf') == Reading([], Stopped(skip', buf'))
    ensures Decoded(skip, buf).0.Value? ==> |Decoded(skip, buf).2| < |buf|
    ensures |Decoded(skip, buf).2| <= |buf|
    decreases |buf|
  {
    if skip <= |buf| {
      var s := buf[skip..];
      MoreIsShort(s);
      assert s[0..] == s;
      if Parse(s).Other? {
        NeedIsBounded(Parse(s).length, s[Parse(s).header..]);
      }
    }
  }

  lemma MoreIsShort(s: seq<byte>)
    ensures Parse(s).More? ==> |s| < 16 + 65535
  {
    hide Varint.Decode;
  }

  // ----- any split of the stream -----

  datatype Session = Session(values: seq<seq<byte>>, skip: nat, buf: seq<byte>, broken: bool)

  const FRESH: Session := Session([], 0, [], false)

  /** Calls `decode` until it needs more or fails. */
  function Drained(x: Session): Session
    decreases |x.buf|
  {
    var (r, skip, buf) := Decoded(x.skip, x.buf);
    NeedIsBounded(x.skip, x.buf);
    match r
    case Need => x.(skip := skip, buf := buf)
    case Error => x.(skip := skip, buf := buf, broken := true)
    case Value(v) => Drained(x.(values := x.values + [v], skip := skip, buf := buf))
  }

  /** Reads the stream in the given pieces, stopping at the first error. */
  function Fed(x: Session, pieces: seq<seq<byte>>): Session
    decreases |pieces|
  {
    if pieces == [] || x.broken then x
    else Fed(Drained(x.(buf := x.buf + pieces[0])), pieces[1..])
  }

  /** What has been read and what is still to come, given the bytes that will follow. */
  function Meaning(x: Session, tail: seq<byte>): Reading {
    var rest := if x.broken then Reading([], Broken) else BatchAfter(x.skip, x.buf + tail);
    Reading(x.values + rest.values, rest.ending)
  }

  lemma {:induction false} DrainedMeans(x: Session, tail: seq<byte>)
    requires !x.broken
    ensures Meaning(Drained(x), tail) == Meaning(x, tail)
    ensures !Drained(x).broken ==>
              BatchAfter(Drained(x).skip, Drained(x).buf) == Reading([], Stopped(Drained(x).skip, Drained(x).buf))
    decreases |x.buf|
  {
    hide Decoded, BatchAfter;
    var (r, skip, buf) := Decoded(x.skip, x.buf);
    DecodedReads(x.skip, x.buf, tail);
    NeedIsBounded(x.skip, x.buf);
    if r.Value? {
      var y := x.(values := x.values + [r.value], skip := skip, buf := buf);
      DrainedMeans(y, tail);
      var rest := BatchAfter(skip, buf + tail);
      assert x.values + ([r.value] + rest.values) == y.values + rest.values;
    }
  }

  lemma {:induction false} FedMeans(x: Session, pieces: seq<seq<byte>>, tail: seq<byte>)
    ensures Meaning(Fed(x, pieces), tail) == Meaning(x, Flatten(pieces) + tail)
    decreases |pieces|
  {
    hide Drained, BatchAfter;
    if pieces == [] {
      assert Flatten(pieces) + tail == tail;
    } else if !x.broken {
      var y := x.(buf := x.buf + pieces[0]);
      var rest := Flatten(pieces[1..]) + tail;
      assert x.buf + (Flatten(pieces) + tail) == y.buf + rest;
      DrainedMeans(y, rest);
      FedMeans(Drained(y), pieces[1..], tail);
    }
  }

  predicate Waiting(x: Session) {
    !x.broken ==> BatchAfter(x.skip, x.buf) == Reading([], Stopped(x.skip, x.buf))
  }

  lemma {:induction false} FedWaits(x: Session, pieces: seq<seq<byte>>)
    requires Waiting(x)
    ensures Waiting(Fed(x, pieces))
    decreases |pieces|
  {
    hide Drained, BatchAfter;
    if pieces != [] && !x.broken {
      var y := x.(buf := x.buf + pieces[0]);
      DrainedMeans(y, []);
      FedWaits(Drained(y), pieces[1..]);
    }
  }

  /**
   For every byte stream and every split of it, the streaming decoder yields the values and
   the verdict of one pass over the whole stream, and stops inside a capsule exactly when that
   pass does.
   */
  lemma StreamingIsBatch(pieces: seq<seq<byte>>)
    ensures var x := Fed(FRESH, pieces);
            var whole := Batch(Flatten(pieces));
            && x.values == whole.values
            && (x.broken <==> whole.ending == Broken)
            && (!x.broken ==> Stopped(x.skip, x.buf) == whole.ending)
  {
    var s := Flatten(pieces);
    var x := Fed(FRESH, pieces);
    FedMeans(FRESH, pieces, []);
    assert FRESH.buf + (s + []) == s && s[0..] == s;
    assert FRESH.values + Batch(s).values == Batch(s).values;
    FedWaits(FRESH, pieces);
    assert x.buf + [] == x.buf;
    assert Meaning(x, []) == Batch(s);
    hide Fed, Batch;
    if x.broken {
      assert x.values + [] == x.values;
    } else {
      assert x.values + [] == x.values;
    }
  }

  // ----- UDP payloads -----

  datatype Udp = Dropped | Payload(bytes: seq<byte>) | Oversized

  function UdpPayload(datagram: seq<byte>): Udp {
    match Varint.Decode(datagram)
    case None => Dropped
    case Some((context, n)) =>
      if context != 0 then Dropped
      else if |datagram[n..]| > MAX_UDP_PAYLOAD then Oversized
      else Payload(datagram[n..])
  }

  /** A payload the proxy may not send: Context ID 0 and more than fits a UDP datagram. */
  predicate TooLong(value: seq<byte>) {
    var context := Varint.Decode(value);
    context.Some? && context.value.0 == 0 && |value| - context.value.1 > MAX_UDP_PAYLOAD
  }

  /**
   Of the complete capsules, decoder and payload check together refuse exactly the DATAGRAM
   capsules with Context ID 0 and an oversized payload.
   */
  lemma RefusesExactlyOversized(s: seq<byte>, kind: nat, k: nat, length: nat, l: nat)
    requires Varint.Decode(s) == Some((kind, k)) && Varint.Decode(s[k..]) == Some((length, l))
    requires k + l + length <= |s|
    ensures var f := Parse(s);
            (f.Malformed? || (f.Datagram? && UdpPayload(f.value).Oversized?)) <==>
              kind == DATAGRAM && TooLong(s[k + l..k + l + length])
  {
    hide Varint.Decode;
    var value := s[k + l..k + l + length];
    if length > MAX_DATAGRAM {
      assert s[k + l..] == value + s[k + l + length..];
      Varint.DecodePrefix(value, s[k + l + length..]);
    }
  }

  // ----- encoding -----

  function Encoded(payload: seq<byte>): seq<byte>
    requires |payload| + 1 < Varint.VARINT_LIMIT
  {
    Varint.Encode(DATAGRAM) + Varint.Encode(|payload| + 1) + [0] + payload
  }

  method EncodeDatagram(payload: seq<byte>, buf: seq<byte>) returns (out: seq<byte>)
    requires |payload| + 1 < Varint.VARINT_LIMIT
    ensures out == buf + Encoded(payload)
  {
    out := buf;
    out := out + Varint.Encode(DATAGRAM);
    out := out + Varint.Encode(|payload| + 1);
    out := out + [0];
    out := out + payload;
  }

  lemma EncodedParses(payload: seq<byte>, tail: seq<byte>)
    requires |payload| <= MAX_UDP_PAYLOAD
    ensures Parse(Encoded(payload) + tail) == Datagram([0] + payload, |Encoded(payload)|)
    ensures UdpPayload([0] + payload) == Payload(payload)
  {
    var a := Varint.Encode(DATAGRAM);
    var b := Varint.Encode(|payload| + 1);
    var s := Encoded(payload) + tail;
    Varint.RoundTrip(DATAGRAM, b + [0] + payload + tail);
    assert s == a + (b + [0] + payload + tail);
    Varint.RoundTrip(|payload| + 1, [0] + payload + tail);
    assert s[|a|..] == b + ([0] + payload + tail);
    assert s[|a| + |b|..|a| + |b| + |payload| + 1] == [0] + payload;
    Varint.RoundTrip(0, payload);
    assert Varint.Encode(0) == [0] by {
      Varint.RoundTrip(0, []);
      assert Varint.Pow256(0) == 1;
      assert Varint.BigEndian(0, 1) == [0];
    }
    assert ([0] + payload)[1..] == payload;
  }

  function Wire(payloads: seq<seq<byte>>): seq<byte>
    requires forall p | p in payloads :: |p| <= MAX_UDP_PAYLOAD
  {
    if payloads == [] then [] else Encoded(payloads[0]) + Wire(payloads[1..])
  }

  lemma {:induction false} WireReads(payloads: seq<seq<byte>>)
    requires forall p | p in payloads :: |p| <= MAX_UDP_PAYLOAD
    ensures var r := Batch(Wire(payloads));
            && r.ending == Clean && |r.values| == |payloads|
            && forall i | 0 <= i < |payloads| :: UdpPayload(r.values[i]) == Payload(payloads[i])
  {
    if payloads != [] {
      hide Parse, UdpPayload, Encoded;
      var p := payloads[0];
      var tail := Wire(payloads[1..]);
      EncodedParses(p, tail);
      WireReads(payloads[1..]);
      assert (Encoded(p) + tail)[|Encoded(p)|..] == tail;
    }
  }

  /** However the capsules of a list of payloads are split on the way, exactly they arrive. */
  lemma PayloadsSurvive(payloads: seq<seq<byte>>, pieces: seq<seq<byte>>)
    requires forall p | p in payloads :: |p| <= MAX_UDP_PAYLOAD
    requires Flatten(pieces) == Wire(payloads)
    ensures var x := Fed(FRESH, pieces);
            && !x.broken && Stopped(x.skip, x.buf) == Clean && |x.values| == |payloads|
            && forall i | 0 <= i < |payloads| :: UdpPayload(x.values[i]) == Payload(payloads[i])
  {
    hide Batch, Fed, UdpPayload;
    StreamingIsBatch(pieces);
    WireReads(payloads);
  }
}
