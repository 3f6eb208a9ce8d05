// Finding one text inside another.

module TextSearch {

  import opened Wrappers

  // Where pattern first occurs in s.
  function IndexOf(s: string, pattern: string): (i: Option<nat>)
    ensures i.Some? ==> i.value + |pattern| <= |s| && s[i.value..i.value + |pattern|] == pattern
  {
    if pattern <= s then Some(0)
    else if s == "" then None
    else match IndexOf(s[1..], pattern) {
      case Some(i) => Some(i + 1)
      case None => None
    }
  }

  predicate Contains(s: string, pattern: string) {
    IndexOf(s, pattern).Some?
  }

  predicate OccursAt(s: string, pattern: string, i: nat) {
    i + |pattern| <= |s| && s[i..i + |pattern|] == pattern
  }

  lemma SliceOfRest(s: string, i: nat, n: nat)
    requires 0 < i && i + n <= |s|
    ensures s[i..i + n] == s[1..][i - 1..i - 1 + n]
  {
    var slice, same := s[i..i + n], s[1..][i - 1..i - 1 + n];
    assert forall j | 0 <= j < n :: slice[j] == same[j];
  }

  // The index is that of the first occurrence, and there is none exactly if pattern occurs nowhere.
  lemma {:induction false} IndexIsFirst(s: string, pattern: string)
    ensures Contains(s, pattern) <==> exists i :: OccursAt(s, pattern, i)
    ensures Contains(s, pattern) ==>
              OccursAt(s, pattern, IndexOf(s, pattern).value) &&
              forall j | 0 <= j < IndexOf(s, pattern).value :: !OccursAt(s, pattern, j)
    decreases |s|
  {
    if pattern <= s {
      assert OccursAt(s, pattern, 0);
    } else if s != "" {
      IndexIsFirst(s[1..], pattern);
      assert !OccursAt(s, pattern, 0);
      forall i: nat | 0 < i ensures OccursAt(s, pattern, i) <==> OccursAt(s[1..], pattern, i - 1) {
        if i + |pattern| <= |s| { SliceOfRest(s, i, |pattern|); }
      }
      if Contains(s[1..], pattern) {
        var k := IndexOf(s[1..], pattern).value;
        assert OccursAt(s, pattern, k + 1);
      }
    }
  }

  // Such a pattern cannot overlap itself.
  predicate Plain(pattern: string) {
    |pattern| == 1 || (|pattern| == 2 && pattern[0] != pattern[1])
  }

  lemma {:induction false} FoundAtJoin(before: string, pattern: string, after: string)
    requires Plain(pattern) && !Contains(before, pattern)
    ensures IndexOf(before + pattern + after, pattern) == Some(|before|)
    decreases |before|
  {
    var s := before + pattern + after;
    if before == "" {
      assert s == pattern + after;
    } else {
      NotAcrossJoin(before, pattern, after);
      assert s[1..] == before[1..] + pattern + after;
      FoundAtJoin(before[1..], pattern, after);
    }
  }

  lemma NotAcrossJoin(before: string, pattern: string, after: string)
    requires Plain(pattern) && !Contains(before, pattern) && before != ""
    ensures !(pattern <= before + pattern + after)
  {
    var s := before + pattern + after;
    if |before| >= |pattern| {
      assert s[..|pattern|] == before[..|pattern|];
    } else {
      assert s[1] == pattern[0];
    }
  }

  lemma {:induction false} NothingBefore(s: string, pattern: string)
    requires pattern != "" && Contains(s, pattern)
    ensures var i := IndexOf(s, pattern).value; Plain(pattern) ==> !Contains(s[..i], pattern)
    decreases |s|
  {
    var i := IndexOf(s, pattern).value;
    if i > 0 {
      NothingBefore(s[1..], pattern);
      assert s[..i][1..] == s[1..][..i - 1];
      assert pattern <= s[..i] ==> pattern <= s;
    }
  }

  lemma {:induction false} SuffixContains(s: string, k: nat, pattern: string)
    requires k <= |s| && Contains(s[k..], pattern)
    ensures Contains(s, pattern)
    decreases k
  {
    if k > 0 {
      assert s[1..][k - 1..] == s[k..];
      SuffixContains(s[1..], k - 1, pattern);
    }
  }

  lemma SplitAt(s: string, pattern: string)
    requires Contains(s, pattern)
    ensures var i := IndexOf(s, pattern).value; s == s[..i] + (pattern + s[i + |pattern|..])
  {
  }

  lemma {:induction false} PrefixContains(s: string, k: nat, pattern: string)
    requires k <= |s| && pattern != "" && Contains(s[..k], pattern)
    ensures Contains(s, pattern)
    decreases |s|
  {
    if k > 0 && !(pattern <= s) {
      assert s[..k][1..] == s[1..][..k - 1];
      PrefixContains(s[1..], k - 1, pattern);
    }
  }
}
