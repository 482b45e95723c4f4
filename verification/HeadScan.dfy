/** The scan that decides whether a partly read HTTP/1 head is worth parsing again. */
module HeadScan {
  import opened Bytes

  /** An empty line ends at `p`: LF LF, or LF CR LF. */
  predicate BlankEnd(s: seq<byte>, p: nat) {
    && 2 <= p <= |s| && s[p - 1] == LF
    && (s[p - 2] == LF || (p >= 3 && s[p - 2] == CR && s[p - 3] == LF))
  }

  predicate Blank(s: seq<byte>) {
    exists p | 0 <= p <= |s| :: BlankEnd(s, p)
  }

  /** What the scan looks for at one position. */
  predicate Hit(s: seq<byte>, i: nat)
    requires i < |s|
  {
    if s[i] == CR then i + 3 < |s| && s[i + 1] == LF && s[i + 2] == CR && s[i + 3] == LF
    else
      && s[i] == LF
      && ((i + 1 < |s| && s[i + 1] == LF) || (i + 2 < |s| && s[i + 1] == CR && s[i + 2] == LF))
  }

  lemma HitIsBlank(s: seq<byte>, i: nat)
    requires i < |s| && Hit(s, i)
    ensures Blank(s)
  {
    assert BlankEnd(s, i + 2) || BlankEnd(s, i + 3) || BlankEnd(s, i + 4);
  }

  /**
   Scans only from just before the newly read bytes. When the bytes seen before held no empty
   line, that finds one exactly if there is one anywhere.
   */
  method IsCompleteFast(bytes: seq<byte>, seen: nat) returns (found: bool)
    requires seen <= |bytes|
    ensures found ==> Blank(bytes)
    ensures (forall p | 0 <= p <= seen :: !BlankEnd(bytes, p)) ==> (found <==> Blank(bytes))
  {
    var start := if seen >= 3 then seen - 3 else 0;
    var i := start;
    while i < |bytes|
      invariant start <= i <= |bytes|
      invariant forall j | start <= j < i :: !Hit(bytes, j)
    {
      if Hit(bytes, i) {
        HitIsBlank(bytes, i);
        return true;
      }
      i := i + 1;
    }
    forall p | seen < p <= |bytes|
      ensures !BlankEnd(bytes, p)
    {
      Missed(bytes, start, p);
    }
    found := false;
  }

  lemma Missed(s: seq<byte>, start: nat, p: nat)
    requires p <= |s| && (start + 2 < p || start == 0)
    requires forall j | start <= j < |s| :: !Hit(s, j)
    ensures !BlankEnd(s, p)
  {
    if BlankEnd(s, p) {
      assert Hit(s, if s[p - 2] == LF then p - 2 else p - 3);
    }
  }
}
