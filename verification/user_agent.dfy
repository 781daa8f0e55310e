/** The user-agent rewrite of `generatePreferences`: the first match of the
    regular expression `Chrome\/\d+` is replaced by `Chrome/<version>`. */
module UserAgent {
  import opened Wrappers
  import opened JsText

  const Token: string := "Chrome/"

  /** The regular expression matches at position `i`: the token, then at
      least one decimal digit. */
  predicate MatchAt(ua: string, i: int) {
    0 <= i && i + |Token| < |ua| && ua[i..i + |Token|] == Token && IsDigit(ua[i + |Token|])
  }

  predicate NoMatchBefore(ua: string, i: int) {
    forall k :: 0 <= k < i ==> !MatchAt(ua, k)
  }

  /** End of the maximal run of digits starting at `j` (the greedy `\d+`). */
  function RunEnd(ua: string, j: nat): (k: nat)
    requires j <= |ua|
    ensures j <= k <= |ua|
    ensures AllDigits(ua[j..k])
    ensures k < |ua| ==> !IsDigit(ua[k])
    decreases |ua| - j
  {
    if j == |ua| || !IsDigit(ua[j]) then j
    else
      var k := RunEnd(ua, j + 1);
      assert ua[j..k] == [ua[j]] + ua[j + 1..k];
      k
  }

  /** The leftmost match at or after `from`, as a regular-expression
      search finds it. */
  function FirstMatch(ua: string, from: nat): (r: Option<nat>)
    requires from <= |ua|
    ensures r.Some? ==> from <= r.value < |ua| && MatchAt(ua, r.value)
    ensures r.Some? ==> forall k :: from <= k < r.value ==> !MatchAt(ua, k)
    ensures r.None? ==> forall k :: from <= k ==> !MatchAt(ua, k)
    decreases |ua| - from
  {
    if from == |ua| then None
    else if MatchAt(ua, from) then Some(from)
    else FirstMatch(ua, from + 1)
  }

  /** `ua.replace(/Chrome\/\d+/, `Chrome/${version}`)`. */
  function Rewrite(ua: string, version: string): (r: string)
    ensures (forall k :: !MatchAt(ua, k)) ==> r == ua
    ensures forall i :: MatchAt(ua, i) && NoMatchBefore(ua, i) ==>
              r == ua[..i] + Token + version + ua[RunEnd(ua, i + |Token|)..]
  {
    match FirstMatch(ua, 0)
    case None => ua
    case Some(i) =>
      assert forall k :: MatchAt(ua, k) && NoMatchBefore(ua, k) ==> k == i by {
        forall k | MatchAt(ua, k) && NoMatchBefore(ua, k)
          ensures k == i
        {
          FirstMatchUnique(ua, i, k);
        }
      }
      ua[..i] + Token + version + ua[RunEnd(ua, i + |Token|)..]
  }

  /** There is only one leftmost match. */
  lemma FirstMatchUnique(ua: string, i: int, k: int)
    requires MatchAt(ua, i) && NoMatchBefore(ua, i)
    requires MatchAt(ua, k) && NoMatchBefore(ua, k)
    ensures i == k
  {
  }

  /** When the version starts with a digit, the rewritten user agent still
      matches at the same place, and everything before it is untouched. */
  lemma RewriteKeepsToken(ua: string, version: string, i: nat)
    requires MatchAt(ua, i) && NoMatchBefore(ua, i)
    requires |version| > 0 && IsDigit(version[0])
    ensures MatchAt(Rewrite(ua, version), i)
    ensures Rewrite(ua, version)[..i] == ua[..i]
  {
    var r := Rewrite(ua, version);
    assert r == ua[..i] + Token + version + ua[RunEnd(ua, i + |Token|)..];
    assert r[i..i + |Token|] == Token;
    assert r[i + |Token|] == version[0];
  }

  /** No match can start inside the inserted token: `Chrome/` does not
      overlap itself, and the token is followed by `C`, not a digit. */
  lemma NoMatchStraddles(r: string, i: nat, k: nat)
    requires i + |Token| <= |r| && r[i..i + |Token|] == Token
    requires k < i <= k + |Token|
    ensures !MatchAt(r, k)
  {
    var d := i - k;
    assert r[i] == 'C';
    if d == |Token| {
      assert !IsDigit(r[k + |Token|]);
    } else if k + |Token| < |r| {
      assert r[k..k + |Token|][d] == r[i];
      assert r[k..k + |Token|] != Token;
    }
  }

  /** A rewritten user agent keeps the untouched prefix free of matches. */
  lemma PrefixStillUnmatched(ua: string, r: string, i: nat)
    requires MatchAt(ua, i) && NoMatchBefore(ua, i)
    requires i + |Token| < |r| && r[..i] == ua[..i] && r[i..i + |Token|] == Token
    ensures NoMatchBefore(r, i)
  {
    assert forall m :: 0 <= m < i ==> r[m] == r[..i][m] == ua[..i][m] == ua[m];
    forall k | 0 <= k < i
      ensures !MatchAt(r, k)
    {
      if k + |Token| < i {
        assert r[k..k + |Token|] == ua[k..k + |Token|];
        assert !MatchAt(ua, k);
      } else {
        NoMatchStraddles(r, i, k);
      }
    }
  }

  /** With an all-digit version, rewriting a second time changes nothing. */
  lemma RewriteIdempotent(ua: string, version: string)
    requires |version| > 0 && AllDigits(version)
    ensures Rewrite(Rewrite(ua, version), version) == Rewrite(ua, version)
  {
    match FirstMatch(ua, 0)
    case None =>
    case Some(i) =>
      RewriteAgain(ua, version, i);
  }

  lemma RewriteAgain(ua: string, version: string, i: nat)
    requires |version| > 0 && AllDigits(version)
    requires MatchAt(ua, i) && NoMatchBefore(ua, i)
    ensures Rewrite(Rewrite(ua, version), version) == Rewrite(ua, version)
  {
    var tail := ua[RunEnd(ua, i + |Token|)..];
    var r := ua[..i] + Token + version + tail;
    var j := i + |Token| + |version|;
    RewrittenParts(ua[..i], version, tail);
    assert MatchAt(r, i) by { assert r[i + |Token|] == version[0]; }
    PrefixStillUnmatched(ua, r, i);
    RunEndSkipsVersion(r, i + |Token|, version, tail);
    assert Rewrite(r, version) == r[..i] + Token + version + r[j..];
  }

  /** The pieces of a rewritten user agent, by position. */
  lemma RewrittenParts(prefix: string, version: string, tail: string)
    ensures var r := prefix + Token + version + tail;
      var i := |prefix|;
      var j := i + |Token| + |version|;
      && r[..i] == prefix && r[i..i + |Token|] == Token && r[i + |Token|..j] == version && r[j..] == tail
  {
  }

  lemma {:induction false} RunEndSkipsVersion(r: string, j: nat, version: string, tail: string)
    requires j + |version| <= |r|
    requires AllDigits(version) && r[j..j + |version|] == version
    requires r[j + |version|..] == tail
    requires |tail| > 0 ==> !IsDigit(tail[0])
    ensures RunEnd(r, j) == j + |version|
    decreases |version|
  {
    if |version| == 0 {
      if j < |r| {
        assert r[j] == tail[0];
      }
    } else {
      assert r[j] == version[0];
      assert r[j + 1..j + 1 + |version[1..]|] == version[1..];
      RunEndSkipsVersion(r, j + 1, version[1..], tail);
    }
  }
}
