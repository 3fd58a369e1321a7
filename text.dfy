/** Text operations the agents apply to prompts and oracle answers: Python's
    `str.strip()` with no argument, and "this prompt carries that input". */
module Text {

  /** The code points for which Python's `str.isspace()` holds, which is the set
      `str.strip()` removes when called without an argument. */
  const Whitespace: set<char> := {
    '\t', '\n', '\U{000B}', '\U{000C}', '\r',
    '\U{001C}', '\U{001D}', '\U{001E}', '\U{001F}', ' ',
    '\U{0085}', '\U{00A0}', '\U{1680}',
    '\U{2000}', '\U{2001}', '\U{2002}', '\U{2003}', '\U{2004}', '\U{2005}',
    '\U{2006}', '\U{2007}', '\U{2008}', '\U{2009}', '\U{200A}',
    '\U{2028}', '\U{2029}', '\U{202F}', '\U{205F}', '\U{3000}'
  }

  predicate IsSpace(c: char) {
    c in Whitespace
  }

  /** `r` is `s` less the whitespace before position `i` and after `r`. */
  ghost predicate TrimmedAt(s: string, r: string, i: int) {
    0 <= i <= |s| - |r| && s[i..i + |r|] == r && AllSpace(s[..i]) && AllSpace(s[i + |r|..])
  }

  ghost predicate AllSpace(s: string) {
    forall i :: 0 <= i < |s| ==> IsSpace(s[i])
  }

  /** Neither end of `s` is whitespace: what `strip()` returns. */
  predicate Unpadded(s: string) {
    s == [] || (!IsSpace(s[0]) && !IsSpace(s[|s| - 1]))
  }

  /** `s` with its leading whitespace removed (`str.lstrip()`). */
  function StripLeading(s: string): (r: string)
    ensures r == [] || !IsSpace(r[0])
    decreases |s|
  {
    if s != [] && IsSpace(s[0]) then StripLeading(s[1..]) else s
  }

  /** `s` with its trailing whitespace removed (`str.rstrip()`). */
  function StripTrailing(s: string): (r: string)
    ensures r == [] || !IsSpace(r[|r| - 1])
    decreases |s|
  {
    if s != [] && IsSpace(s[|s| - 1]) then StripTrailing(s[..|s| - 1]) else s
  }

  /** What `lstrip()` keeps is a suffix of `s`, and all it cuts is whitespace. */
  lemma {:induction false} StripLeadingCuts(s: string)
    ensures var r := StripLeading(s);
            |r| <= |s| && r == s[|s| - |r|..] && AllSpace(s[..|s| - |r|])
    decreases |s|
  {
    if s != [] && IsSpace(s[0]) {
      StripLeadingCuts(s[1..]);
      var r := StripLeading(s[1..]);
      var cut := s[..|s| - |r|];
      forall k | 0 <= k < |cut| ensures IsSpace(cut[k]) {
        if k > 0 {
          assert cut[k] == s[1..][..|s| - 1 - |r|][k - 1];
        }
      }
    }
  }

  /** What `rstrip()` keeps is a prefix of `s`, and all it cuts is whitespace. */
  lemma {:induction false} StripTrailingCuts(s: string)
    ensures var r := StripTrailing(s);
            |r| <= |s| && r == s[..|r|] && AllSpace(s[|r|..])
    decreases |s|
  {
    if s != [] && IsSpace(s[|s| - 1]) {
      var init := s[..|s| - 1];
      StripTrailingCuts(init);
      var r := StripTrailing(init);
      var cut := s[|r|..];
      forall k | 0 <= k < |cut| ensures IsSpace(cut[k]) {
        if k < |cut| - 1 {
          assert cut[k] == init[|r|..][k];
        }
      }
    }
  }

  /** Python's `s.strip()`: `s` with the whitespace at both ends cut off;
      neither end of the result is whitespace. */
  function Strip(s: string): (r: string)
    ensures Unpadded(r)
  {
    var left := StripLeading(s);
    StripTrailingCuts(left);
    StripTrailing(left)
  }

  /** The result of `strip()` is a contiguous piece of `s`, and everything cut
      from either end is whitespace. */
  lemma StripTrims(s: string)
    ensures exists i :: TrimmedAt(s, Strip(s), i)
  {
    var left := StripLeading(s);
    StripLeadingCuts(s);
    StripTrailingCuts(left);
    var r := Strip(s);
    var i := |s| - |left|;
    assert s[i..i + |r|] == r;
    var tail := s[i + |r|..];
    assert AllSpace(tail) by {
      forall k | 0 <= k < |tail| ensures IsSpace(tail[k]) {
        assert tail[k] == left[|r|..][k];
      }
    }
    assert TrimmedAt(s, r, i);
  }

  /** `strip()` changes nothing in a string that is already unpadded. */
  lemma StripUnpadded(s: string)
    requires Unpadded(s)
    ensures Strip(s) == s
  {
  }

  /** Stripping twice is stripping once. */
  lemma StripIdempotent(s: string)
    ensures Strip(Strip(s)) == Strip(s)
  {
    StripUnpadded(Strip(s));
  }

  /** `strip()` undoes padding: whitespace added around an unpadded string is
      exactly what it removes. */
  lemma {:induction false} StripRemovesPadding(pre: string, t: string, post: string)
    requires AllSpace(pre) && AllSpace(post) && Unpadded(t)
    ensures Strip(pre + t + post) == t
  {
    StripLeadingRemoves(pre, t + post);
    assert pre + t + post == pre + (t + post);
    StripTrailingRemoves(t, post);
    if t == [] {
      assert t + post == post + [];
      StripLeadingRemoves(post, []);
    } else {
      assert StripLeading(t + post) == t + post;
    }
  }

  lemma {:induction false} StripLeadingRemoves(pre: string, rest: string)
    requires AllSpace(pre)
    ensures StripLeading(pre + rest) == StripLeading(rest)
    decreases |pre|
  {
    if pre != [] {
      assert (pre + rest)[1..] == pre[1..] + rest;
      StripLeadingRemoves(pre[1..], rest);
    } else {
      assert pre + rest == rest;
    }
  }

  lemma {:induction false} StripTrailingRemoves(rest: string, post: string)
    requires AllSpace(post)
    ensures StripTrailing(rest + post) == StripTrailing(rest)
    decreases |post|
  {
    if post != [] {
      assert (rest + post)[..|rest + post| - 1] == rest + post[..|post| - 1];
      StripTrailingRemoves(rest, post[..|post| - 1]);
    } else {
      assert rest + post == rest;
    }
  }

  /** `part` occurs in `text` as a contiguous piece. */
  ghost predicate Embeds(text: string, part: string) {
    exists i :: OccursAt(text, part, i)
  }

  ghost predicate OccursAt(text: string, part: string, i: int) {
    0 <= i <= |text| - |part| && text[i..i + |part|] == part
  }

  /** A piece is embedded in what ends with it. */
  lemma EmbedsEnd(before: string, part: string)
    ensures Embeds(before + part, part)
  {
    var t := before + part;
    assert t[|before|..|before| + |part|] == part;
    assert OccursAt(t, part, |before|);
  }

  /** Text appended after an embedded piece keeps it embedded. */
  lemma EmbedsExtend(text: string, more: string, part: string)
    requires Embeds(text, part)
    ensures Embeds(text + more, part)
  {
    var i :| OccursAt(text, part, i);
    assert (text + more)[i..i + |part|] == text[i..i + |part|];
    assert OccursAt(text + more, part, i);
  }
}
