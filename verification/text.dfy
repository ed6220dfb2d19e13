/**
  The three string operations the prefab-path rule relies on: character
  replacement (`str.replace` with one-character arguments), ASCII lowercasing
  (`str.lower` restricted to ASCII) and suffix tests (`str.endswith`).
 */
module Text {

  /** Every occurrence of `from` in `s` replaced by `to`, all other characters kept. */
  function ReplaceChar(s: string, from: char, to: char): (r: string)
    ensures |r| == |s|
    ensures forall i :: 0 <= i < |s| ==> r[i] == (if s[i] == from then to else s[i])
    ensures from != to ==> from !in r
  {
    if s == [] then []
    else [if s[0] == from then to else s[0]] + ReplaceChar(s[1..], from, to)
  }

  /** A string that does not contain `from` is left unchanged. */
  lemma ReplaceCharIdentity(s: string, from: char, to: char)
    requires from !in s
    ensures ReplaceChar(s, from, to) == s
  {
    var r := ReplaceChar(s, from, to);
    assert forall i :: 0 <= i < |s| ==> r[i] == s[i] by {
      forall i | 0 <= i < |s|
        ensures r[i] == s[i]
      {
        assert s[i] in s;
      }
    }
  }

  /** Replacement works piecewise: it commutes with concatenation. */
  lemma {:induction false} ReplaceCharConcat(s: string, t: string, from: char, to: char)
    ensures ReplaceChar(s + t, from, to) == ReplaceChar(s, from, to) + ReplaceChar(t, from, to)
  {
    if s == [] {
      assert s + t == t;
    } else {
      assert (s + t)[0] == s[0];
      assert (s + t)[1..] == s[1..] + t;
      ReplaceCharConcat(s[1..], t, from, to);
    }
  }

  /** A single occurrence of `from` between two stretches free of it is the
      only thing replaced. */
  lemma ReplaceSingle(head: string, tail: string, from: char, to: char)
    requires from !in head && from !in tail
    ensures ReplaceChar(head + [from] + tail, from, to) == head + [to] + tail
  {
    ReplaceCharConcat(head + [from], tail, from, to);
    ReplaceCharConcat(head, [from], from, to);
    ReplaceCharIdentity(head, from, to);
    ReplaceCharIdentity(tail, from, to);
  }

  /** A suffix free of `from` comes through the replacement untouched. */
  lemma ReplaceCharKeepsSuffix(stem: string, suffix: string, from: char, to: char)
    requires from !in suffix
    ensures ReplaceChar(stem + suffix, from, to) == ReplaceChar(stem, from, to) + suffix
  {
    ReplaceCharConcat(stem, suffix, from, to);
    ReplaceCharIdentity(suffix, from, to);
  }

  function LowerChar(c: char): (l: char)
    ensures 'A' <= c <= 'Z' ==> l as int == c as int + 32
    ensures !('A' <= c <= 'Z') ==> l == c
  {
    if 'A' <= c <= 'Z' then (c as int + 32) as char else c
  }

  /** ASCII lowercasing: upper-case letters A-Z mapped to a-z, everything else kept. */
  function Lower(s: string): (r: string)
    ensures |r| == |s|
    ensures forall i :: 0 <= i < |s| ==> r[i] == LowerChar(s[i])
  {
    if s == [] then [] else [LowerChar(s[0])] + Lower(s[1..])
  }

  /** Lowercasing works character by character, so it distributes over concatenation. */
  lemma {:induction false} LowerConcat(s: string, t: string)
    ensures Lower(s + t) == Lower(s) + Lower(t)
  {
    if s == [] {
      assert s + t == t;
    } else {
      assert (s + t)[1..] == s[1..] + t;
      LowerConcat(s[1..], t);
    }
  }

  /** Text without upper-case letters is its own lower-case form. */
  lemma LowerWithoutUpper(s: string)
    requires forall i :: 0 <= i < |s| ==> !('A' <= s[i] <= 'Z')
    ensures Lower(s) == s
  {
    assert forall i :: 0 <= i < |s| ==> Lower(s)[i] == s[i];
  }

  /** A suffix already in lower case comes through lowercasing untouched. */
  lemma LowerKeepsLowerSuffix(stem: string, suffix: string)
    requires Lower(suffix) == suffix
    ensures Lower(stem + suffix) == Lower(stem) + suffix
  {
    LowerConcat(stem, suffix);
  }

  /** `s.endswith(suffix)`: when it holds, `s` splits into a stem followed by
      the suffix. */
  function EndsWith(s: string, suffix: string): (r: bool)
    ensures r ==> |suffix| <= |s| && s == s[..|s| - |suffix|] + suffix
  {
    |suffix| <= |s| && s[|s| - |suffix|..] == suffix
  }

  /** Any stem followed by the suffix ends with it. */
  lemma EndsWithConcat(stem: string, suffix: string)
    ensures EndsWith(stem + suffix, suffix)
  {
    assert (stem + suffix)[|stem|..] == suffix;
  }

  /** `EndsWith` holds exactly when `s` is some stem followed by the suffix. */
  lemma EndsWithIffConcat(s: string, suffix: string)
    ensures EndsWith(s, suffix) <==> exists stem :: s == stem + suffix
  {
    if exists stem :: s == stem + suffix {
      var stem :| s == stem + suffix;
      assert s[|s| - |suffix|..] == suffix;
    }
  }
}
