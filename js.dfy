/** Value-level stand-ins for the parts of the JavaScript runtime the screens rely on. */
module Js {

  /** A value that may be `null` or `undefined` (None). */
  datatype Option<+T> = None | Some(value: T)

  /** How an awaited call settled: the promise rejected (the call threw) or it
      fulfilled with a value. Every device or network call is an oracle of this type. */
  datatype Reply<+T> = Threw | Returned(value: T)

  /** JavaScript truthiness of a `string | null | undefined`: the empty string is falsy. */
  predicate Truthy(v: Option<string>) {
    v.Some? && v.value != ""
  }

  /** `pat` occurs in `s` starting at index `i`. */
  predicate OccursAt(s: string, pat: string, i: int) {
    0 <= i && i + |pat| <= |s| && s[i..i + |pat|] == pat
  }

  /** Dropping the first character shifts every occurrence one place left. */
  lemma OccursInTail(s: string, pat: string, j: nat)
    requires |s| > 0
    ensures OccursAt(s[1..], pat, j) <==> OccursAt(s, pat, j + 1)
  {
    if j + |pat| <= |s| - 1 {
      assert s[1..][j..j + |pat|] == s[j + 1..j + 1 + |pat|];
    }
  }

  /** `s.replace(pat, rep)` with a string pattern and a replacement free of `$`
      patterns (`rep` is inserted literally): only the first occurrence of `pat`
      is replaced (an empty pattern matches at index 0). The result is `s`
      itself or `s` with exactly one `pat` exchanged for `rep`, by length. */
  function ReplaceFirst(s: string, pat: string, rep: string): (r: string)
    ensures |r| == |s| || |r| == |s| - |pat| + |rep|
    decreases |s|
  {
    if |s| < |pat| then s
    else if s[..|pat|] == pat then rep + s[|pat|..]
    else [s[0]] + ReplaceFirst(s[1..], pat, rep)
  }

  /** No occurrence before `i` in `s` means none before `i - 1` in its tail. */
  lemma NoEarlierInTail(s: string, pat: string, i: int)
    requires |s| > 0
    requires forall j :: 0 <= j < i ==> !OccursAt(s, pat, j)
    ensures forall j :: 0 <= j < i - 1 ==> !OccursAt(s[1..], pat, j)
  {
    forall j | 0 <= j < i - 1
      ensures !OccursAt(s[1..], pat, j)
    {
      OccursInTail(s, pat, j);
    }
  }

  /** Putting the first character back in front of a split of the tail. */
  lemma ConsSplit(s: string, rep: string, i: int, m: nat)
    requires 0 < i && i + m <= |s|
    ensures [s[0]] + (s[1..][..i - 1] + rep + s[1..][i - 1 + m..]) == s[..i] + rep + s[i + m..]
  {
    assert [s[0]] + s[1..][..i - 1] == s[..i];
    assert s[1..][i - 1 + m..] == s[i + m..];
  }

  /** The first occurrence of `pat`, at index `i`, is the one replaced. */
  lemma {:induction false} ReplaceFirstAt(s: string, pat: string, rep: string, i: int)
    requires OccursAt(s, pat, i)
    requires forall j :: 0 <= j < i ==> !OccursAt(s, pat, j)
    ensures ReplaceFirst(s, pat, rep) == s[..i] + rep + s[i + |pat|..]
    decreases i
  {
    if i == 0 {
      assert s[..|pat|] == pat;
    } else {
      var t := s[1..];
      assert ReplaceFirst(s, pat, rep) == [s[0]] + ReplaceFirst(t, pat, rep) by {
        assert !OccursAt(s, pat, 0);
      }
      assert ReplaceFirst(t, pat, rep) == t[..i - 1] + rep + t[i - 1 + |pat|..] by {
        OccursInTail(s, pat, i - 1);
        NoEarlierInTail(s, pat, i);
        ReplaceFirstAt(t, pat, rep, i - 1);
      }
      ConsSplit(s, rep, i, |pat|);
    }
  }

  /** A string in which `pat` does not occur is returned unchanged. */
  lemma {:induction false} ReplaceFirstAbsent(s: string, pat: string, rep: string)
    requires forall j :: !OccursAt(s, pat, j)
    ensures ReplaceFirst(s, pat, rep) == s
    decreases |s|
  {
    if |s| >= |pat| {
      assert !OccursAt(s, pat, 0);
      var t := s[1..];
      forall j
        ensures !OccursAt(t, pat, j)
      {
        if j >= 0 {
          OccursInTail(s, pat, j);
        }
      }
      ReplaceFirstAbsent(t, pat, rep);
      assert [s[0]] + t == s;
    }
  }
}
