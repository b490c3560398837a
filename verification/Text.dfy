/** The string operations the harness relies on. */
module Text {

  /** str.isspace for one character. */
  predicate IsSpace(c: char) {
    || '\U{0009}' <= c <= '\U{000D}' || '\U{001C}' <= c <= '\U{0020}' || c == '\U{0085}' || c == '\U{00A0}'
    || c == '\U{1680}' || '\U{2000}' <= c <= '\U{200A}' || c == '\U{2028}' || c == '\U{2029}' || c == '\U{202F}'
    || c == '\U{205F}' || c == '\U{3000}'
  }

  function TrimLeft(s: string): string {
    if s != [] && IsSpace(s[0]) then TrimLeft(s[1..]) else s
  }

  function TrimRight(s: string): string {
    if s != [] && IsSpace(s[|s| - 1]) then TrimRight(s[..|s| - 1]) else s
  }

  /** str.strip() */
  function Strip(s: string): string {
    TrimRight(TrimLeft(s))
  }

  /** `part in s` */
  predicate Contains(s: string, part: string) {
    part <= s || (s != [] && Contains(s[1..], part))
  }

  predicate OccursAt(s: string, part: string, k: nat) {
    k + |part| <= |s| && s[k..k + |part|] == part
  }

  /** `part` stands somewhere in `s`. */
  ghost predicate Occurs(s: string, part: string) {
    exists k :: OccursAt(s, part, k)
  }

  lemma {:induction false} ContainsIsOccurs(s: string, part: string)
    ensures Contains(s, part) <==> Occurs(s, part)
  {
    if part <= s {
      assert OccursAt(s, part, 0);
    } else if s != [] {
      ContainsIsOccurs(s[1..], part);
      if Occurs(s[1..], part) {
        var k: nat :| OccursAt(s[1..], part, k);
        OccursLater(s, part, k + 1);
      } else if Occurs(s, part) {
        var k: nat :| OccursAt(s, part, k);
        OccursLater(s, part, k);
      }
    }
  }

  lemma OccursLater(s: string, part: string, k: nat)
    requires 0 < k <= |s|
    ensures OccursAt(s, part, k) <==> OccursAt(s[1..], part, k - 1)
  {
    if k + |part| <= |s| {
      assert s[1..][k - 1..k - 1 + |part|] == s[k..k + |part|];
    }
  }

  predicate AllSpace(s: string) {
    forall k :: 0 <= k < |s| ==> IsSpace(s[k])
  }

  lemma {:induction false} TrimLeftSplits(s: string)
    ensures |TrimLeft(s)| <= |s| && TrimLeft(s) == s[|s| - |TrimLeft(s)|..] && AllSpace(s[..|s| - |TrimLeft(s)|])
    ensures TrimLeft(s) != [] ==> !IsSpace(TrimLeft(s)[0])
  {
    if s != [] && IsSpace(s[0]) {
      TrimLeftSplits(s[1..]);
      var n := |s| - |TrimLeft(s)|;
      assert s[..n] == [s[0]] + s[1..][..n - 1];
    }
  }

  lemma {:induction false} TrimRightSplits(s: string)
    ensures |TrimRight(s)| <= |s| && TrimRight(s) == s[..|TrimRight(s)|] && AllSpace(s[|TrimRight(s)|..])
    ensures TrimRight(s) != [] ==> !IsSpace(TrimRight(s)[|TrimRight(s)| - 1])
    decreases |s|
  {
    if s != [] && IsSpace(s[|s| - 1]) {
      TrimRightSplits(s[..|s| - 1]);
      assert s[|TrimRight(s)|..] == s[..|s| - 1][|TrimRight(s)|..] + [s[|s| - 1]];
    }
  }

  /** Stripping takes whitespace from both ends and nothing else; what it leaves neither starts nor ends with any. */
  lemma StripSplits(s: string)
    ensures exists lead, trail :: s == lead + Strip(s) + trail && AllSpace(lead) && AllSpace(trail)
    ensures Strip(s) != "" ==> !IsSpace(Strip(s)[0]) && !IsSpace(Strip(s)[|Strip(s)| - 1])
  {
    var left := TrimLeft(s);
    TrimLeftSplits(s);
    TrimRightSplits(left);
    var lead, trail := s[..|s| - |left|], left[|Strip(s)|..];
    assert s == lead + Strip(s) + trail;
  }

  /** A text is blank exactly when there is nothing but whitespace in it. */
  lemma BlankIsAllSpace(s: string)
    ensures Strip(s) == "" <==> AllSpace(s)
  {
    StripSplits(s);
    var lead, trail :| s == lead + Strip(s) + trail && AllSpace(lead) && AllSpace(trail);
    if Strip(s) != "" {
      assert s[|lead|] == Strip(s)[0];
    }
  }
}
