/** The string operations the components use. */
module Text {

  /** The ASCII characters for which `str.isspace` holds. */
  const WHITESPACE: string := " \t\n\U{0B}\U{0C}\r\U{1C}\U{1D}\U{1E}\U{1F}"

  function StripLeft(s: string): string {
    if s != [] && s[0] in WHITESPACE then StripLeft(s[1..]) else s
  }

  function StripRight(s: string): string {
    if s != [] && s[|s| - 1] in WHITESPACE then StripRight(s[..|s| - 1]) else s
  }

  /** `s.strip()` */
  function Strip(s: string): string {
    StripRight(StripLeft(s))
  }

  lemma {:induction false} StripLeftKeeps(s: string, c: char)
    requires c !in WHITESPACE
    ensures c in StripLeft(s) <==> c in s
  {
    if s != [] && s[0] in WHITESPACE {
      assert s == [s[0]] + s[1..];
      StripLeftKeeps(s[1..], c);
    }
  }

  lemma {:induction false} StripRightKeeps(s: string, c: char)
    requires c !in WHITESPACE
    ensures c in StripRight(s) <==> c in s
  {
    if s != [] && s[|s| - 1] in WHITESPACE {
      assert s == s[..|s| - 1] + [s[|s| - 1]];
      StripRightKeeps(s[..|s| - 1], c);
    }
  }

  /** Stripping removes nothing but whitespace. */
  lemma StripKeeps(s: string, c: char)
    requires c !in WHITESPACE
    ensures c in Strip(s) <==> c in s
  {
    StripLeftKeeps(s, c);
    StripRightKeeps(StripLeft(s), c);
  }

  lemma {:induction false} StripRightShrinks(s: string)
    ensures |StripRight(s)| <= |s|
  {
    if s != [] { StripRightShrinks(s[..|s| - 1]); }
  }

  lemma {:induction false} StripLeftMark(s: string, c: char)
    requires c !in WHITESPACE
    ensures StripLeft(s + [c]) == StripLeft(s) + [c]
  {
    if s == [] {
      assert s + [c] == [c];
    } else {
      assert (s + [c])[1..] == s[1..] + [c];
      StripLeftMark(s[1..], c);
    }
  }

  /** One more visible character at the end never strips to the same text. */
  lemma StripMark(s: string, c: char)
    requires c !in WHITESPACE
    ensures Strip(s + [c]) != Strip(s)
  {
    StripLeftMark(s, c);
    StripRightShrinks(StripLeft(s));
    assert |Strip(s + [c])| == |StripLeft(s)| + 1;
  }

  /** `sub in s` */
  predicate Contains(s: string, sub: string) {
    sub <= s || (s != [] && Contains(s[1..], sub))
  }

  /** `s.lower()`, on ASCII letters. */
  function Lower(s: string): string {
    seq(|s|, i requires 0 <= i < |s| => if 'A' <= s[i] <= 'Z' then s[i] - 'A' + 'a' else s[i])
  }

  /** The position of the first `c` in `s`, or the length of `s`. */
  function IndexOf(s: string, c: char): (i: nat)
    ensures i <= |s| && (i < |s| ==> s[i] == c) && c !in s[..i]
    ensures i == |s| <==> c !in s
  {
    if s == [] || s[0] == c then 0
    else
      assert s == [s[0]] + s[1..];
      var i := IndexOf(s[1..], c);
      assert s[..i + 1] == [s[0]] + s[1..][..i];
      i + 1
  }

  function Around(before: string, s: string, after: string): string {
    before + s + after
  }

  /** `s` occurs in `text`. */
  ghost predicate Quotes(text: string, s: string) {
    exists before, after :: text == Around(before, s, after)
  }

  lemma QuotesLater(head: string, text: string, s: string)
    requires Quotes(text, s)
    ensures Quotes(head + text, s)
  {
    var before, after :| text == Around(before, s, after);
    assert head + text == Around(head + before, s, after);
  }

  ghost predicate EndsWith(text: string, s: string) {
    |s| <= |text| && text[|text| - |s|..] == s
  }

  lemma EndsWithTail(head: string, tail: string)
    ensures EndsWith(head + tail, tail)
  {
  }

  lemma EndsWithTransitive(s: string, t: string, u: string)
    requires EndsWith(s, t) && EndsWith(t, u)
    ensures EndsWith(s, u)
  {
  }

  /** What the end of a text quotes, the text quotes. */
  lemma QuotesAtEnd(text: string, tail: string, s: string)
    requires EndsWith(text, tail) && Quotes(tail, s)
    ensures Quotes(text, s)
  {
    var head := text[..|text| - |tail|];
    assert text == head + tail;
    QuotesLater(head, tail, s);
  }

  /** `sub` stands somewhere in `s`. */
  ghost predicate Occurs(s: string, sub: string) {
    exists i :: OccursAt(s, sub, i)
  }

  ghost predicate OccursAt(s: string, sub: string, i: int) {
    0 <= i && i + |sub| <= |s| && s[i..i + |sub|] == sub
  }

  lemma OccursCons(s: string, sub: string, i: int)
    requires s != []
    ensures OccursAt(s[1..], sub, i) <==> OccursAt(s, sub, i + 1) && i >= 0
  {
    if 0 <= i && i + 1 + |sub| <= |s| { assert s[1..][i..i + |sub|] == s[i + 1..i + 1 + |sub|]; }
  }

  lemma OccursFirst(s: string, sub: string)
    ensures OccursAt(s, sub, 0) <==> sub <= s
  {
  }

  lemma {:induction false} ContainsIff(s: string, sub: string)
    ensures Contains(s, sub) <==> Occurs(s, sub)
  {
    hide OccursAt;
    OccursFirst(s, sub);
    if s == [] {
      forall i | i != 0 ensures !OccursAt(s, sub, i) { OnlyAtStart(s, sub, i); }
    } else {
      ContainsIff(s[1..], sub);
      forall i ensures OccursAt(s[1..], sub, i) <==> OccursAt(s, sub, i + 1) && i >= 0 { OccursCons(s, sub, i); }
      if Occurs(s[1..], sub) {
        var i :| OccursAt(s[1..], sub, i);
        assert OccursAt(s, sub, i + 1);
      }
      if i :| OccursAt(s, sub, i) {
        NotBefore(s, sub, i);
        assert i > 0 ==> OccursAt(s[1..], sub, i - 1);
      }
    }
  }

  lemma OnlyAtStart(s: string, sub: string, i: int)
    requires s == [] && i != 0
    ensures !OccursAt(s, sub, i)
  {
  }

  lemma NotBefore(s: string, sub: string, i: int)
    requires OccursAt(s, sub, i)
    ensures i >= 0
  {
  }
}
