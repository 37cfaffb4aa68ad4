/**
 * String helpers the token cleaner relies on: ASCII lower-casing (Python's
 * `str.lower` restricted to ASCII) and the mention substitution
 * `re.sub('(@[A-Za-z0-9_]+)', '', token)`.
 */
module Text {

  /** The character class `[A-Za-z0-9_]` of the mention pattern. */
  predicate IsWordChar(c: char) {
    ('A' <= c <= 'Z') || ('a' <= c <= 'z') || ('0' <= c <= '9') || c == '_'
  }

  predicate IsUpperChar(c: char) {
    'A' <= c <= 'Z'
  }

  function LowerChar(c: char): (d: char)
    ensures !IsUpperChar(d)
    ensures !IsUpperChar(c) ==> d == c
  {
    if IsUpperChar(c) then (c as int + 32) as char else c
  }

  /** A string with no upper-case letter: `s.lower() == s`. */
  predicate IsLower(s: string) {
    forall i :: 0 <= i < |s| ==> !IsUpperChar(s[i])
  }

  /** `s.lower()` */
  function Lower(s: string): (r: string)
    ensures |r| == |s|
    ensures IsLower(r)
  {
    seq(|s|, i requires 0 <= i < |s| => LowerChar(s[i]))
  }

  /** Lower-casing leaves a string alone exactly when it is already lower-case. */
  lemma LowerFixesExactlyLower(s: string)
    ensures Lower(s) == s <==> IsLower(s)
  {
    if IsLower(s) {
      assert forall i :: 0 <= i < |s| ==> Lower(s)[i] == s[i];
    }
  }

  lemma LowerIdempotent(s: string)
    ensures Lower(Lower(s)) == Lower(s)
  {
    LowerFixesExactlyLower(Lower(s));
  }

  /** Length of the longest prefix of `s` made of word characters (the greedy `+`). */
  function WordRun(s: string): (n: nat)
    ensures n <= |s|
    ensures forall i :: 0 <= i < n ==> IsWordChar(s[i])
    ensures n < |s| ==> !IsWordChar(s[n])
  {
    if |s| > 0 && IsWordChar(s[0]) then 1 + WordRun(s[1..]) else 0
  }

  /**
   * `re.sub('(@[A-Za-z0-9_]+)', '', s)`: scanning from the left, an `@`
   * followed by at least one word character is removed together with the
   * longest run of word characters after it; scanning resumes after the match.
   * Every other character is copied.
   */
  function StripMentions(s: string): (r: string)
    ensures |r| <= |s|
    decreases |s|
  {
    if |s| == 0 then ""
    else if s[0] == '@' && |s| > 1 && IsWordChar(s[1]) then
      StripMentions(s[1 + WordRun(s[1..])..])
    else
      [s[0]] + StripMentions(s[1..])
  }

  /** No `@` is directly followed by a word character, so the pattern has no match. */
  predicate NoMention(s: string) {
    forall i :: 0 <= i < |s| - 1 && s[i] == '@' ==> !IsWordChar(s[i + 1])
  }

  predicate StartsWithNonWord(s: string) {
    |s| == 0 || !IsWordChar(s[0])
  }

  /** After stripping, no mention is left, and a non-word first character stays non-word. */
  lemma {:induction false} StripMentionsLeavesNoMention(s: string)
    ensures NoMention(StripMentions(s))
    ensures StartsWithNonWord(s) ==> StartsWithNonWord(StripMentions(s))
    decreases |s|
  {
    if |s| == 0 {
    } else if s[0] == '@' && |s| > 1 && IsWordChar(s[1]) {
      var rest := s[1 + WordRun(s[1..])..];
      StripMentionsLeavesNoMention(rest);
    } else {
      StripMentionsLeavesNoMention(s[1..]);
      var tail := StripMentions(s[1..]);
      assert StripMentions(s) == [s[0]] + tail;
      assert s[0] == '@' ==> StartsWithNonWord(s[1..]);
    }
  }

  /** A string without a mention is left unchanged by the substitution. */
  lemma {:induction false} StripMentionsKeepsMentionFree(s: string)
    requires NoMention(s)
    ensures StripMentions(s) == s
    decreases |s|
  {
    if |s| > 0 {
      assert !(s[0] == '@' && |s| > 1 && IsWordChar(s[1]));
      assert NoMention(s[1..]) by {
        forall i | 0 <= i < |s[1..]| - 1 && s[1..][i] == '@'
          ensures !IsWordChar(s[1..][i + 1])
        {
          assert s[i + 1] == '@';
        }
      }
      StripMentionsKeepsMentionFree(s[1..]);
      assert s == [s[0]] + s[1..];
    }
  }

  /** The substitution leaves `s` unchanged exactly when `s` holds no mention. */
  lemma StripMentionsFixedPoint(s: string)
    ensures StripMentions(s) == s <==> NoMention(s)
  {
    StripMentionsLeavesNoMention(s);
    if NoMention(s) {
      StripMentionsKeepsMentionFree(s);
    }
  }

  /** Stripping twice is the same as stripping once. */
  lemma StripMentionsIdempotent(s: string)
    ensures StripMentions(StripMentions(s)) == StripMentions(s)
  {
    StripMentionsLeavesNoMention(s);
    StripMentionsKeepsMentionFree(StripMentions(s));
  }

  /** In `a @b_1!@` the mention `@b_1` goes; the `!` after it and the final lone `@` stay. */
  lemma StripMentionsExample()
    ensures StripMentions("a @b_1!@") == "a !@"
  {
    var s := "a @b_1!@";
    assert s[2..][1..] == "b_1!@";
    assert WordRun("1!@") == 1;
    assert WordRun("b_1!@") == 3;
    assert s[2..][4..] == "!@";
    assert StripMentions("!@") == "!@" by {
      StripMentionsKeepsMentionFree("!@");
    }
    assert StripMentions(s[2..]) == "!@";
    assert s[1..][1..] == s[2..];
    assert StripMentions(s[1..]) == " !@";
  }
}
