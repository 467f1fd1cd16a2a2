/** Removal of HTML tags from a directions instruction: the global
    replacement of the pattern `<[^>]+>` by the empty string. A match is
    a `<`, one or more characters other than `>`, and the first `>` after
    them; the string is scanned from left to right and the scan resumes
    after each match. */
module HtmlText {

  /** The index of the first `>` of `s` at or after `from`, or `|s|` when
      there is none. */
  function CloseFrom(s: string, from: nat): (c: nat)
    requires from <= |s|
    ensures from <= c <= |s|
    ensures c < |s| ==> s[c] == '>'
    ensures forall k :: from <= k < c ==> s[k] != '>'
    decreases |s| - from
  {
    if from == |s| then |s|
    else if s[from] == '>' then from
    else CloseFrom(s, from + 1)
  }

  /** The pattern matches at index `i`: `s[i]` is `<`, and the first `>`
      after it comes after at least one other character. */
  predicate TagAt(s: string, i: nat)
    requires i < |s|
  {
    s[i] == '<' && i + 2 <= CloseFrom(s, i + 1) < |s|
  }

  /** No position of `s` starts a match. */
  predicate NoTags(s: string)
  {
    forall i :: 0 <= i < |s| ==> !TagAt(s, i)
  }

  /** `s.replace(/<[^>]+>/g, '')`. Every character kept comes from `s`. */
  function StripTags(s: string): (r: string)
    ensures |r| <= |s|
    ensures forall ch :: ch in r ==> ch in s
    decreases |s|
  {
    if s == [] then []
    else if TagAt(s, 0) then StripTags(s[CloseFrom(s, 1) + 1..])
    else [s[0]] + StripTags(s[1..])
  }

  /** A string without `<` holds no tag and comes back unchanged. */
  lemma {:induction false} StripTagsWithoutAngle(s: string)
    requires '<' !in s
    ensures StripTags(s) == s
  {
    if s != [] {
      assert s[0] != '<';
      assert '<' !in s[1..] by {
        forall ch | ch in s[1..] ensures ch in s { }
      }
      StripTagsWithoutAngle(s[1..]);
    }
  }

  /** Putting a character in front shifts every `>` position by one. */
  lemma {:induction false} CloseFromShift(x: char, t: string, k: nat)
    requires k <= |t|
    ensures CloseFrom([x] + t, k + 1) == CloseFrom(t, k) + 1
    decreases |t| - k
  {
    var s := [x] + t;
    assert s[k + 1..] == t[k..];
    if k < |t| {
      assert s[k + 1] == t[k];
      if t[k] != '>' {
        CloseFromShift(x, t, k + 1);
      }
    }
  }

  /** Matches in `t` are matches one place further on in `[x] + t`. */
  lemma TagAtShift(x: char, t: string, i: nat)
    requires i < |t|
    ensures TagAt([x] + t, i + 1) <==> TagAt(t, i)
  {
    CloseFromShift(x, t, i + 1);
  }

  /** A string that starts with `>` keeps its first character. */
  lemma StripTagsKeepsLeadingClose(t: string)
    requires |t| > 0 && t[0] == '>'
    ensures |StripTags(t)| > 0 && StripTags(t)[0] == '>'
  {
  }

  /** Removing every match leaves a string in which the pattern no
      longer matches anywhere. */
  lemma {:induction false} StripTagsLeavesNoTags(s: string)
    ensures NoTags(StripTags(s))
    decreases |s|
  {
    if s == [] {
    } else if TagAt(s, 0) {
      StripTagsLeavesNoTags(s[CloseFrom(s, 1) + 1..]);
    } else {
      var t := s[1..];
      var rest := StripTags(t);
      var r := [s[0]] + rest;
      assert StripTags(s) == r;
      StripTagsLeavesNoTags(t);
      forall i | 1 <= i < |r| ensures !TagAt(r, i) {
        TagAtShift(s[0], rest, i - 1);
      }
      if |rest| > 0 && s[0] == '<' {
        var c := CloseFrom(s, 1);
        if c == 1 {
          StripTagsKeepsLeadingClose(t);
          assert r[1] == '>';
        } else {
          assert c == |s|;
          assert '>' !in t;
          assert '>' !in rest;
          forall k | 1 <= k < |r| ensures r[k] != '>' {
            assert r[k] == rest[k - 1];
          }
        }
      }
    }
  }

  /** A string without tags comes back unchanged. */
  lemma {:induction false} StripTagsFixesUntagged(s: string)
    requires NoTags(s)
    ensures StripTags(s) == s
    decreases |s|
  {
    if s != [] {
      assert !TagAt(s, 0);
      var t := s[1..];
      assert s == [s[0]] + t;
      forall i | 0 <= i < |t| ensures !TagAt(t, i) {
        TagAtShift(s[0], t, i);
        assert !TagAt(s, i + 1);
      }
      StripTagsFixesUntagged(t);
    }
  }

  /** Stripping twice removes nothing more than stripping once. */
  lemma StripTagsIdempotent(s: string)
    ensures StripTags(StripTags(s)) == StripTags(s)
  {
    StripTagsLeavesNoTags(s);
    StripTagsFixesUntagged(StripTags(s));
  }
}
