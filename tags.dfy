/** Removal of HTML-like tags from class names: `re.sub(r"<[^>]+>", "", s)`.
    The pattern is a '<', one or more characters other than '>' (newlines
    included), and a '>'. Python scans left to right and resumes after each
    match, so the scanner below does the same. */
module Tags {

  /** A match of `<[^>]+>` starts at position `i` of `s`: a '<', a next
      character that is not '>', and a '>' somewhere after that. */
  predicate TagAt(s: string, i: nat) {
    i + 1 < |s| && s[i] == '<' && s[i + 1] != '>' && '>' in s[i + 2..]
  }

  /** No match of the pattern starts anywhere in `s`. */
  predicate TagFree(s: string) {
    forall i :: 0 <= i < |s| ==> !TagAt(s, i)
  }

  /** Position of the first '>' at or after `k`: where a match starting
      before `k` ends, since `[^>]+` cannot pass a '>'. */
  function CloseIndex(s: string, k: nat): (j: nat)
    requires k <= |s| && '>' in s[k..]
    ensures k <= j < |s| && s[j] == '>'
    ensures forall m :: k <= m < j ==> s[m] != '>'
    decreases |s| - k
  {
    if s[k] == '>' then k else
      assert s[k..] == [s[k]] + s[k + 1..];
      CloseIndex(s, k + 1)
  }

  /** Prepending a character that starts no tag keeps a tag-free string tag-free. */
  lemma ConsTagFree(c: char, t: string)
    requires TagFree(t)
    requires !TagAt([c] + t, 0)
    ensures TagFree([c] + t)
  {
    var s := [c] + t;
    forall i | 0 < i < |s|
      ensures !TagAt(s, i)
    {
      assert s[i + 1..] == t[i..];
      if i + 2 <= |s| {
        assert s[i + 2..] == t[i + 1..];
      }
      assert !TagAt(t, i - 1);
    }
  }

  /** A '>' in a suffix of `s` is a '>' in `s`. */
  lemma InSuffix(s: string, k: nat)
    requires k <= |s| && '>' in s[k..]
    ensures '>' in s
  {
  }

  /** When `s` starts no tag, neither does `s[0]` in front of a string `t`
      that brings in no new '>' and keeps a leading '>' of `s[1..]`. */
  lemma KeptHead(s: string, t: string)
    requires |s| >= 1 && !TagAt(s, 0)
    requires '>' in t ==> '>' in s[1..]
    requires |s| >= 2 && s[1] == '>' ==> |t| >= 1 && t[0] == '>'
    ensures !TagAt([s[0]] + t, 0)
  {
  }

  /** The scanner: drop each tag span, keep every other character in order. */
  function StripTags(s: string): (r: string)
    ensures |r| <= |s|
    ensures '>' in r ==> '>' in s
    ensures TagFree(r)
    decreases |s|
  {
    if s == [] then []
    else if TagAt(s, 0) then
      var j := CloseIndex(s, 1);
      var r := StripTags(s[j + 1..]);
      if '>' in r then InSuffix(s, j + 1); r else r
    else
      var t := StripTags(s[1..]);
      assert |s| >= 2 && s[1] == '>' ==> t == [s[1]] + StripTags(s[2..]) by {
        if |s| >= 2 && s[1] == '>' {
          assert s[1..][1..] == s[2..];
        }
      }
      KeptHead(s, t);
      ConsTagFree(s[0], t);
      if '>' in t then InSuffix(s, 1); [s[0]] + t else [s[0]] + t
  }

  /** Dropping the first character of a tag-free string leaves it tag-free. */
  lemma TagFreeTail(s: string)
    requires |s| >= 1 && TagFree(s)
    ensures TagFree(s[1..])
  {
    forall i | 0 <= i < |s[1..]|
      ensures !TagAt(s[1..], i)
    {
      assert !TagAt(s, i + 1);
      if i + 2 <= |s[1..]| {
        assert s[1..][i + 2..] == s[i + 3..];
      }
    }
  }

  /** A string with no tag passes through unchanged. */
  lemma {:induction false} TagFreeUnchanged(s: string)
    requires TagFree(s)
    ensures StripTags(s) == s
    decreases |s|
  {
    if s != [] {
      assert !TagAt(s, 0);
      TagFreeTail(s);
      TagFreeUnchanged(s[1..]);
    }
  }

  /** Stripping twice is stripping once. */
  lemma StripTagsIdempotent(s: string)
    ensures StripTags(StripTags(s)) == StripTags(s)
  {
    TagFreeUnchanged(StripTags(s));
  }

  /** A character that starts no tag is kept, and scanning resumes after it. */
  lemma KeptChar(c: char, t: string)
    requires !TagAt([c] + t, 0)
    ensures StripTags([c] + t) == [c] + StripTags(t)
  {
    assert ([c] + t)[1..] == t;
  }

  /** Text without '<' is kept as it is, in order, before whatever follows. */
  lemma {:induction false} PlainPrefixKept(a: string, rest: string)
    requires '<' !in a
    ensures StripTags(a + rest) == a + StripTags(rest)
    decreases |a|
  {
    if a != [] {
      assert a[0] != '<';
      calc {
        StripTags(a + rest);
        { assert a + rest == [a[0]] + (a[1..] + rest); }
        StripTags([a[0]] + (a[1..] + rest));
        { KeptChar(a[0], a[1..] + rest); }
        [a[0]] + StripTags(a[1..] + rest);
        { PlainPrefixKept(a[1..], rest); }
        [a[0]] + (a[1..] + StripTags(rest));
        { assert a == [a[0]] + a[1..]; }
        a + StripTags(rest);
      }
    } else {
      assert a + rest == rest;
    }
  }

  /** A span '<', then one or more characters other than '>', then '>' is
      removed whole, and scanning resumes right after it. */
  lemma TagSpanRemoved(inner: string, rest: string)
    requires |inner| >= 1 && '>' !in inner
    ensures StripTags("<" + inner + ">" + rest) == StripTags(rest)
  {
    var s := "<" + inner + ">" + rest;
    var n := |inner|;
    assert s[n + 1] == '>';
    assert s[2..][n - 1] == '>';
    assert TagAt(s, 0);
    assert forall m :: 1 <= m <= n ==> s[m] == inner[m - 1];
    var j := CloseIndex(s, 1);
    assert j == n + 1;
    assert s[j + 1..] == rest;
  }

  /** Text without '<' is a fixed point. */
  lemma PlainUnchanged(a: string)
    requires '<' !in a
    ensures StripTags(a) == a
  {
    PlainPrefixKept(a, []);
    assert a + [] == a;
  }

  /** A bold title loses both tags. */
  lemma StripExample(title: string)
    requires title == "<b>Intro</b> to Physics"
    ensures StripTags(title) == "Intro to Physics"
  {
    var rest := "Intro</b> to Physics";
    ExampleOpeningTag(title, rest);
    ExampleRest(rest);
  }

  lemma ExampleOpeningTag(title: string, rest: string)
    requires title == "<b>Intro</b> to Physics" && rest == "Intro</b> to Physics"
    ensures StripTags(title) == StripTags(rest)
  {
    assert title == "<" + "b" + ">" + rest;
    TagSpanRemoved("b", rest);
  }

  lemma ExampleRest(rest: string)
    requires rest == "Intro</b> to Physics"
    ensures StripTags(rest) == "Intro to Physics"
  {
    var tail := " to Physics";
    var closing := "</b> to Physics";
    assert rest == "Intro" + closing;
    assert "Intro" + tail == "Intro to Physics";
    assert '<' !in "Intro";
    ExampleClosingTag(closing, tail);
    PlainPrefixKept("Intro", closing);
  }

  lemma ExampleClosingTag(closing: string, tail: string)
    requires closing == "</b> to Physics" && tail == " to Physics"
    ensures StripTags(closing) == tail
  {
    assert closing == "<" + "/b" + ">" + tail;
    assert '<' !in tail;
    assert '>' !in "/b";
    TagSpanRemoved("/b", tail);
    PlainUnchanged(tail);
  }
}
