/**
 * The torsocks port-disclosure matcher: the regular expression
 *
 *   Connection on fd [0-9]+ originating from [^:]+:([0-9]{1,5})
 *
 * searched for anywhere in a line, returning capture group 1 of the leftmost
 * match, or nothing. MatchAt is the regular expression written out as
 * positions in the line; ExtractPort is a scanner that meets it.
 */
module PortPattern {
  import opened Wrappers
  import opened Text

  const Prefix: string := "Connection on fd "
  const Middle: string := " originating from "
  /** The capture is `[0-9]{1,5}`: greedy, at most five digits. */
  const MaxPortDigits: nat := 5

  /** Every character of line[a..b] is a decimal digit. */
  ghost predicate DigitsIn(line: string, a: nat, b: nat) {
    forall k :: a <= k < b && k < |line| ==> IsDigit(line[k])
  }

  /** No character of line[a..b] is a colon. */
  ghost predicate NoColonIn(line: string, a: nat, b: nat) {
    forall k :: a <= k < b && k < |line| ==> line[k] != ':'
  }

  /** "Connection on fd " at i, followed by the fd digits line[i + |Prefix|..d]. */
  ghost predicate FdAt(line: string, i: nat, d: nat) {
    i + |Prefix| < d <= |line| && line[i..i + |Prefix|] == Prefix && DigitsIn(line, i + |Prefix|, d)
  }

  /** " originating from " at d, then the host text line[d + |Middle|..h] up to the colon at h. */
  ghost predicate HostAt(line: string, d: nat, h: nat) {
    d + |Middle| < h < |line| && line[d..d + |Middle|] == Middle &&
    NoColonIn(line, d + |Middle|, h) && line[h] == ':'
  }

  /**
   * The captured port line[h + 1..e]: one to five digits, and greedy, so the
   * capture stops at five digits or at the first non-digit.
   */
  ghost predicate PortAt(line: string, h: nat, e: nat) {
    h + 1 < e <= |line| && e - (h + 1) <= MaxPortDigits && DigitsIn(line, h + 1, e) &&
    (e - (h + 1) == MaxPortDigits || e == |line| || !IsDigit(line[e]))
  }

  /**
   * The pattern matches at start index i, with the fd digits ending at d, the
   * colon after the host at h and the capture ending at e.
   */
  ghost predicate MatchAt(line: string, i: nat, d: nat, h: nat, e: nat) {
    FdAt(line, i, d) && HostAt(line, d, h) && PortAt(line, h, e)
  }

  /** The pattern matches at start index i. */
  ghost predicate Matches(line: string, i: nat) {
    exists d: nat, h: nat, e: nat :: MatchAt(line, i, d, h, e)
  }

  /** p is capture group 1 of the leftmost match in line, as `re.search` finds it. */
  ghost predicate LeftmostCapture(line: string, p: string) {
    exists i: nat, d: nat, h: nat, e: nat :: MatchAt(line, i, d, h, e) && p == line[h + 1..e] &&
                         forall j: nat :: j < i ==> !Matches(line, j)
  }

  /** End of the run of at most `limit` decimal digits that starts at j. */
  function DigitsEnd(line: string, j: nat, limit: nat): (e: nat)
    requires j <= |line|
    ensures j <= e <= |line| && e - j <= limit
    ensures DigitsIn(line, j, e)
    ensures e - j == limit || e == |line| || !IsDigit(line[e])
    decreases limit
  {
    if limit == 0 || j == |line| || !IsDigit(line[j]) then j
    else DigitsEnd(line, j + 1, limit - 1)
  }

  /** Index of the first ':' at or after j, or |line| when there is none. */
  function ColonIndex(line: string, j: nat): (h: nat)
    requires j <= |line|
    ensures j <= h <= |line|
    ensures NoColonIn(line, j, h)
    ensures h < |line| ==> line[h] == ':'
    decreases |line| - j
  {
    if j == |line| || line[j] == ':' then j else ColonIndex(line, j + 1)
  }

  /** The capture of the pattern anchored at start index i, if it matches there. */
  function TryAt(line: string, i: nat): (r: Option<string>)
    ensures r.Some? ==> 1 <= |r.value| <= MaxPortDigits && AllDigits(r.value)
  {
    if i + |Prefix| > |line| || line[i..i + |Prefix|] != Prefix then None
    else
      var start := i + |Prefix|;
      AfterFd(line, start, DigitsEnd(line, start, |line| - start))
  }

  /** The rest of the match once the fd digits line[start..d] are read. */
  function AfterFd(line: string, start: nat, d: nat): (r: Option<string>)
    requires start <= d <= |line|
    ensures r.Some? ==> 1 <= |r.value| <= MaxPortDigits && AllDigits(r.value)
  {
    if d == start || d + |Middle| > |line| || line[d..d + |Middle|] != Middle then None
    else
      var h := ColonIndex(line, d + |Middle|);
      if h == d + |Middle| || h == |line| then None else AfterColon(line, h)
  }

  /** The capture after the colon at h: one to five digits, as many as there are. */
  function AfterColon(line: string, h: nat): (r: Option<string>)
    requires h < |line|
    ensures r.Some? ==> 1 <= |r.value| <= MaxPortDigits && AllDigits(r.value)
  {
    var e := DigitsEnd(line, h + 1, MaxPortDigits);
    if e == h + 1 then None
    else
      assert forall k :: h + 1 <= k < e ==> line[h + 1..e][k - (h + 1)] == line[k];
      Some(line[h + 1..e])
  }

  /** The leftmost start index at or after i where the pattern matches, and its capture. */
  function ScanFrom(line: string, i: nat): (r: Option<string>)
    ensures r.Some? ==> 1 <= |r.value| <= MaxPortDigits && AllDigits(r.value)
    decreases |line| - i
  {
    if i + |Prefix| > |line| then None
    else
      match TryAt(line, i)
      case Some(p) => Some(p)
      case None => ScanFrom(line, i + 1)
  }

  /** `util.extract_pattern(line, pattern)`: the captured port digits, or nothing. */
  function ExtractPort(line: string): (r: Option<string>)
    ensures r.Some? ==> 1 <= |r.value| <= MaxPortDigits && AllDigits(r.value)
  {
    ScanFrom(line, 0)
  }

  lemma {:induction false} DigitsEndUnique(line: string, j: nat, limit: nat, e: nat)
    requires j <= e <= |line| && e - j <= limit
    requires DigitsIn(line, j, e)
    requires e - j == limit || e == |line| || !IsDigit(line[e])
    ensures DigitsEnd(line, j, limit) == e
    decreases limit
  {
    if e > j {
      DigitsEndUnique(line, j + 1, limit - 1, e);
    }
  }

  lemma {:induction false} ColonIndexUnique(line: string, j: nat, h: nat)
    requires j <= h < |line| && line[h] == ':'
    requires NoColonIn(line, j, h)
    ensures ColonIndex(line, j) == h
    decreases h - j
  {
    if j < h {
      ColonIndexUnique(line, j + 1, h);
    }
  }

  /** Whatever TryAt returns is the capture of a match at i. */
  lemma TryAtSound(line: string, i: nat)
    requires TryAt(line, i).Some?
    ensures exists d: nat, h: nat, e: nat :: MatchAt(line, i, d, h, e) && TryAt(line, i).value == line[h + 1..e]
  {
    var d := DigitsEnd(line, i + |Prefix|, |line| - (i + |Prefix|));
    var h := ColonIndex(line, d + |Middle|);
    var e := DigitsEnd(line, h + 1, MaxPortDigits);
    assert MatchAt(line, i, d, h, e);
  }

  /** A match at i is found by TryAt, with the same capture: the capture at i is unique. */
  lemma TryAtComplete(line: string, i: nat, d: nat, h: nat, e: nat)
    requires MatchAt(line, i, d, h, e)
    ensures TryAt(line, i) == Some(line[h + 1..e])
  {
    FdDigitsEnd(line, i, d, h);
    AfterFdComplete(line, i + |Prefix|, d, h, e);
    TryAtFromFd(line, i, d, h, e);
  }

  lemma FdDigitsEnd(line: string, i: nat, d: nat, h: nat)
    requires FdAt(line, i, d) && HostAt(line, d, h)
    ensures DigitsEnd(line, i + |Prefix|, |line| - (i + |Prefix|)) == d
  {
    MiddleStartsWithSpace(line, d);
    DigitsEndUnique(line, i + |Prefix|, |line| - (i + |Prefix|), d);
  }

  /** TryAt(line, i) once the prefix is seen, the fd digits end at d and the rest matches. */
  lemma TryAtFromFd(line: string, i: nat, d: nat, h: nat, e: nat)
    requires i + |Prefix| <= |line| && line[i..i + |Prefix|] == Prefix
    requires i + |Prefix| <= d <= |line| && h + 1 <= e <= |line|
    requires DigitsEnd(line, i + |Prefix|, |line| - (i + |Prefix|)) == d
    requires AfterFd(line, i + |Prefix|, d) == Some(line[h + 1..e])
    ensures TryAt(line, i) == Some(line[h + 1..e])
  {
  }

  lemma MiddleStartsWithSpace(line: string, d: nat)
    requires d + |Middle| <= |line| && line[d..d + |Middle|] == Middle
    ensures !IsDigit(line[d])
  {
    assert line[d] == line[d..d + |Middle|][0];
  }

  lemma AfterFdComplete(line: string, start: nat, d: nat, h: nat, e: nat)
    requires start < d && HostAt(line, d, h) && PortAt(line, h, e)
    ensures AfterFd(line, start, d) == Some(line[h + 1..e])
  {
    ColonIndexUnique(line, d + |Middle|, h);
    AfterColonComplete(line, h, e);
  }

  lemma AfterColonComplete(line: string, h: nat, e: nat)
    requires PortAt(line, h, e)
    ensures AfterColon(line, h) == Some(line[h + 1..e])
  {
    DigitsEndUnique(line, h + 1, MaxPortDigits, e);
  }

  lemma MatchNeedsRoom(line: string)
    ensures forall j: nat :: Matches(line, j) ==> j + |Prefix| < |line|
  {
  }

  lemma NoMatchWhenTryAtFails(line: string, i: nat)
    requires TryAt(line, i).None?
    ensures !Matches(line, i)
  {
    if Matches(line, i) {
      var d: nat, h: nat, e: nat :| MatchAt(line, i, d, h, e);
      TryAtComplete(line, i, d, h, e);
    }
  }

  lemma {:induction false} ScanFromCorrect(line: string, i: nat)
    requires forall j: nat :: j < i ==> !Matches(line, j)
    ensures ScanFrom(line, i).None? <==> forall j: nat :: !Matches(line, j)
    ensures ScanFrom(line, i).Some? ==> LeftmostCapture(line, ScanFrom(line, i).value)
    decreases |line| - i
  {
    if i + |Prefix| > |line| {
      MatchNeedsRoom(line);
    } else {
      match TryAt(line, i)
      case Some(p) =>
        TryAtSound(line, i);
        var d: nat, h: nat, e: nat :| MatchAt(line, i, d, h, e) && p == line[h + 1..e];
        assert Matches(line, i);
      case None =>
        NoMatchWhenTryAtFails(line, i);
        ScanFromCorrect(line, i + 1);
    }
  }

  lemma LeftmostCaptureUnique(line: string, p: string, q: string)
    requires LeftmostCapture(line, p) && LeftmostCapture(line, q)
    ensures p == q
  {
    var i: nat, d: nat, h: nat, e: nat :| MatchAt(line, i, d, h, e) && p == line[h + 1..e] &&
                      forall j: nat :: j < i ==> !Matches(line, j);
    var i': nat, d': nat, h': nat, e': nat :| MatchAt(line, i', d', h', e') && q == line[h' + 1..e'] &&
                          forall j: nat :: j < i' ==> !Matches(line, j);
    assert Matches(line, i) && Matches(line, i');
    assert i == i';
    TryAtComplete(line, i, d, h, e);
    TryAtComplete(line, i, d', h', e');
  }

  /**
   * The scanner is exactly the leftmost-match search: it returns p precisely
   * when p is the capture of the leftmost match, and nothing precisely when the
   * pattern occurs nowhere in the line.
   */
  lemma ExtractPortCorrect(line: string, p: string)
    ensures ExtractPort(line) == Some(p) <==> LeftmostCapture(line, p)
    ensures ExtractPort(line) == None <==> forall j: nat :: !Matches(line, j)
  {
    ScanFromCorrect(line, 0);
    if LeftmostCapture(line, p) {
      var i: nat, d: nat, h: nat, e: nat :| MatchAt(line, i, d, h, e) && p == line[h + 1..e] &&
                        forall j: nat :: j < i ==> !Matches(line, j);
      assert Matches(line, i);
      LeftmostCaptureUnique(line, p, ExtractPort(line).value);
    }
  }

  /** "Connection on fd " and the fd digits after `pre`. */
  lemma DisclosureFdAt(pre: string, fd: string, host: string, port: string, rest: string)
    requires |fd| >= 1 && AllDigits(fd)
    ensures FdAt(pre + Prefix + fd + Middle + host + ":" + port + rest, |pre|, |pre| + |Prefix| + |fd|)
  {
    var a := pre + Prefix + fd;
    var line := a + Middle + host + ":" + port + rest;
    var i := |pre|;
    assert line[..|a|] == a;
    assert line[i..i + |Prefix|] == a[i..i + |Prefix|] == Prefix;
    assert line[i + |Prefix|..|a|] == a[i + |Prefix|..] == fd;
  }

  /** " originating from ", the host text and the colon after the fd digits. */
  lemma DisclosureHostAt(a: string, host: string, port: string, rest: string)
    requires |host| >= 1 && NoColon(host)
    ensures HostAt(a + Middle + host + ":" + port + rest, |a|, |a| + |Middle| + |host|)
  {
    var b := a + Middle;
    var c := b + host;
    var c' := c + ":";
    var line := c' + port + rest;
    var d := |a|;
    var h := |c|;
    assert line[..h + 1] == c';
    assert c'[..h] == c;
    assert c[..d + |Middle|] == b;
    assert line[d..d + |Middle|] == b[d..] == Middle;
    assert line[d + |Middle|..h] == c[d + |Middle|..] == host;
    assert line[h] == c'[h] == ':';
  }

  /** The port digits after the colon, captured greedily. */
  lemma DisclosurePortAt(c: string, port: string, rest: string)
    requires 1 <= |port| <= MaxPortDigits && AllDigits(port)
    requires |port| == MaxPortDigits || rest == [] || !IsDigit(rest[0])
    ensures var line := c + ":" + port + rest;
            PortAt(line, |c|, |c| + 1 + |port|) && line[|c| + 1..|c| + 1 + |port|] == port
  {
    var t := c + ":" + port;
    var line := t + rest;
    var h := |c|;
    assert line[..|t|] == t;
    assert line[h + 1..|t|] == t[h + 1..] == port;
    assert |t| < |line| ==> line[|t|] == rest[0];
  }

  /** No match can start at a character other than the 'C' that begins "Connection". */
  lemma NoMatchBeforeC(line: string, i: nat)
    requires i <= |line| && forall k :: 0 <= k < i ==> line[k] != 'C'
    ensures forall j: nat :: j < i ==> !Matches(line, j)
  {
    forall j: nat | j < i
      ensures !Matches(line, j)
    {
      if j + |Prefix| <= |line| {
        assert line[j..j + |Prefix|][0] == line[j];
      }
    }
  }

  /**
   * A well-formed disclosure yields its port digits whatever the fd digits
   * and the host text are, also after a log prefix `pre` (which cannot start
   * a match when it holds no 'C') and when text follows the port that does
   * not continue it (a sixth digit is not part of the capture).
   */
  lemma WellFormedLine(pre: string, fd: string, host: string, port: string, rest: string)
    requires forall k :: 0 <= k < |pre| ==> pre[k] != 'C'
    requires |fd| >= 1 && AllDigits(fd)
    requires |host| >= 1 && NoColon(host)
    requires 1 <= |port| <= MaxPortDigits && AllDigits(port)
    requires |port| == MaxPortDigits || rest == [] || !IsDigit(rest[0])
    ensures ExtractPort(pre + Prefix + fd + Middle + host + ":" + port + rest) == Some(port)
  {
    var line := pre + Prefix + fd + Middle + host + ":" + port + rest;
    var i := |pre|;
    var d := i + |Prefix| + |fd|;
    var h := d + |Middle| + |host|;
    var e := h + 1 + |port|;
    DisclosureFdAt(pre, fd, host, port, rest);
    DisclosureHostAt(pre + Prefix + fd, host, port, rest);
    DisclosurePortAt(pre + Prefix + fd + Middle + host, port, rest);
    assert forall k :: 0 <= k < i ==> line[k] == pre[k];
    NoMatchBeforeC(line, i);
    assert MatchAt(line, i, d, h, e) && port == line[h + 1..e];
    ExtractPortCorrect(line, port);
  }
}
