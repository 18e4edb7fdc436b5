/** Trimming as the daemon does it before it looks at a string; whitespace is the ASCII kind. */
module Text {
  import opened Wrappers

  predicate IsSpace(c: char) { c == ' ' || '\t' <= c <= '\r' }

  function TrimStart(s: string): (r: string)
    ensures r == "" || !IsSpace(r[0])
    ensures s == "" || !IsSpace(s[0]) ==> r == s
  {
    if s != "" && IsSpace(s[0]) then TrimStart(s[1..]) else s
  }

  function TrimEnd(s: string): (r: string)
    ensures r <= s
    ensures r == "" || !IsSpace(r[|r| - 1])
    ensures s == "" || !IsSpace(s[|s| - 1]) ==> r == s
  {
    if s != "" && IsSpace(s[|s| - 1]) then TrimEnd(s[..|s| - 1]) else s
  }

  /** No space at either end. */
  predicate Tight(s: string) { s == "" || (!IsSpace(s[0]) && !IsSpace(s[|s| - 1])) }

  function Trim(s: string): (r: string)
    ensures Tight(r)
    ensures Tight(s) ==> r == s
  {
    TrimEnd(TrimStart(s))
  }

  function NonEmpty(s: Option<string>): (r: Option<string>)
    ensures r.Some? ==> r.value != "" && Tight(r.value)
  {
    if s.Some? && Trim(s.value) != "" then Some(Trim(s.value)) else None
  }

  predicate Blank(s: string) { Trim(s) == "" }

  /** What is left out is space, on both sides. */
  lemma {:induction false} TrimStartCuts(s: string)
    ensures |TrimStart(s)| <= |s| && TrimStart(s) == s[|s| - |TrimStart(s)|..]
    ensures forall i :: 0 <= i < |s| - |TrimStart(s)| ==> IsSpace(s[i])
  {
    if s != "" && IsSpace(s[0]) {
      TrimStartCuts(s[1..]);
      assert forall i :: 1 <= i < |s| ==> s[i] == s[1..][i - 1];
    }
  }

  lemma {:induction false} TrimEndCuts(s: string)
    ensures TrimEnd(s) <= s && forall i :: |TrimEnd(s)| <= i < |s| ==> IsSpace(s[i])
  {
    if s != "" && IsSpace(s[|s| - 1]) {
      TrimEndCuts(s[..|s| - 1]);
    }
  }

  /** Trimming takes the spaces off both ends and nothing else. */
  lemma TrimCuts(s: string) returns (i: nat, j: nat)
    ensures i <= j <= |s| && Trim(s) == s[i..j] && Tight(Trim(s))
    ensures forall k :: 0 <= k < i || j <= k < |s| ==> IsSpace(s[k])
  {
    TrimStartCuts(s);
    TrimEndCuts(TrimStart(s));
    i := |s| - |TrimStart(s)|;
    j := i + |Trim(s)|;
    assert forall k :: 0 <= k < |TrimStart(s)| ==> TrimStart(s)[k] == s[i + k];
    assert s[i..j] == TrimStart(s)[..|Trim(s)|];
  }

  lemma BlankMeans(s: string)
    ensures Blank(s) <==> forall c :: c in s ==> IsSpace(c)
  {
    var i, j := TrimCuts(s);
    if Blank(s) {
      forall c | c in s ensures IsSpace(c) {
        var k :| 0 <= k < |s| && s[k] == c;
      }
    } else {
      assert Trim(s)[0] in s;
    }
    hide Trim;
  }
}
