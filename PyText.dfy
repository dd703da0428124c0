/**
 * The Python `str` operations the bot relies on: `isspace`, `strip`, `lower`,
 * `title`, `split` on one character, `join`, `isdigit` and `int`.
 *
 * Case mapping covers the ASCII letters and the Cyrillic block U+0400..U+045F
 * (the alphabet of the bot's users); every other character is treated as
 * uncased, so `lower`, `upper` and `title` leave it alone.
 */
module PyText {

  /** Python's `str.isspace()` for one character. */
  predicate IsSpace(c: char) {
    || c == ' '
    || '\t' <= c <= '\r'
    || '\U{1C}' <= c <= '\U{1F}'
    || c == '\U{85}' || c == '\U{A0}' || c == '\U{1680}'
    || '\U{2000}' <= c <= '\U{200A}'
    || c == '\U{2028}' || c == '\U{2029}' || c == '\U{202F}' || c == '\U{205F}' || c == '\U{3000}'
  }

  predicate IsUpper(c: char) {
    'A' <= c <= 'Z' || '\U{400}' <= c <= '\U{42F}'
  }

  predicate IsLower(c: char) {
    'a' <= c <= 'z' || '\U{430}' <= c <= '\U{45F}'
  }

  /** Python's notion of a "cased" character, which drives `title`. */
  predicate IsCased(c: char) {
    IsUpper(c) || IsLower(c)
  }

  function ToLower(c: char): (d: char)
    ensures IsCased(d) == IsCased(c)
    ensures !IsUpper(d)
    ensures !IsCased(c) ==> d == c
  {
    if 'A' <= c <= 'Z' then (c as int + 32) as char
    else if '\U{400}' <= c <= '\U{40F}' then (c as int + 80) as char
    else if '\U{410}' <= c <= '\U{42F}' then (c as int + 32) as char
    else c
  }

  function ToUpper(c: char): (d: char)
    ensures IsCased(d) == IsCased(c)
    ensures !IsLower(d)
    ensures !IsCased(c) ==> d == c
  {
    if 'a' <= c <= 'z' then (c as int - 32) as char
    else if '\U{450}' <= c <= '\U{45F}' then (c as int - 80) as char
    else if '\U{430}' <= c <= '\U{44F}' then (c as int - 32) as char
    else c
  }

  /** Lower- and upper-casing ignore the case the character had before. */
  lemma CaseMappingAbsorbs(c: char)
    ensures ToLower(ToLower(c)) == ToLower(c) && ToLower(ToUpper(c)) == ToLower(c)
    ensures ToUpper(ToUpper(c)) == ToUpper(c) && ToUpper(ToLower(c)) == ToUpper(c)
  {
  }

  predicate AllSpace(s: string) {
    forall i :: 0 <= i < |s| ==> IsSpace(s[i])
  }

  /** No whitespace at either end: what `strip()` returns. */
  predicate Trimmed(s: string) {
    s == [] || (!IsSpace(s[0]) && !IsSpace(s[|s| - 1]))
  }

  /** `s.lstrip()`: a suffix of `s` (see `StripLeftIsSuffix`). */
  function StripLeft(s: string): (t: string)
    ensures |t| <= |s|
    ensures AllSpace(s[..|s| - |t|])
    ensures t == [] || !IsSpace(t[0])
    decreases |s|
  {
    if |s| > 0 && IsSpace(s[0]) then StripLeft(s[1..]) else s
  }

  lemma {:induction false} StripLeftIsSuffix(s: string)
    ensures StripLeft(s) == s[|s| - |StripLeft(s)|..]
    decreases |s|
  {
    if |s| > 0 && IsSpace(s[0]) {
      StripLeftIsSuffix(s[1..]);
    }
  }

  /** `s.rstrip()`: a prefix of `s`. */
  function StripRight(s: string): (t: string)
    ensures |t| <= |s| && t == s[..|t|]
    ensures AllSpace(s[|t|..])
    ensures t == [] || !IsSpace(t[|t| - 1])
    decreases |s|
  {
    if |s| > 0 && IsSpace(s[|s| - 1]) then StripRight(s[..|s| - 1]) else s
  }

  /** `s.strip()`: the slice of `s` left after dropping whitespace at both ends. */
  function Strip(s: string): (t: string)
    ensures Trimmed(t) && |t| <= |s|
    ensures forall c :: c in t ==> c in s
  {
    var l := StripLeft(s);
    var t := StripRight(l);
    StripLeftIsSuffix(s);
    assert forall c :: c in t ==> c in l;
    t
  }

  /** Whatever whitespace surrounds a trimmed string, `strip()` gives back exactly that string. */
  lemma {:induction false} StripOfPadded(pre: string, t: string, post: string)
    requires AllSpace(pre) && AllSpace(post) && Trimmed(t)
    ensures Strip(pre + t + post) == t
  {
    assert pre + t + post == pre + (t + post);
    StripLeftOfPadded(pre, t + post);
    if t == [] {
      assert t + post == post;
      StripLeftIsSuffix(post);
    } else {
      assert (t + post)[0] == t[0];
      assert StripLeft(t + post) == t + post;
      StripRightOfPadded(t, post);
    }
  }

  lemma {:induction false} StripLeftOfPadded(pre: string, rest: string)
    requires AllSpace(pre)
    ensures StripLeft(pre + rest) == StripLeft(rest)
    decreases |pre|
  {
    if pre != [] {
      assert (pre + rest)[1..] == pre[1..] + rest;
      StripLeftOfPadded(pre[1..], rest);
    } else {
      assert pre + rest == rest;
    }
  }

  lemma {:induction false} StripRightOfPadded(rest: string, post: string)
    requires AllSpace(post)
    requires rest == [] || !IsSpace(rest[|rest| - 1])
    ensures StripRight(rest + post) == (if rest == [] then StripRight(post) else rest)
    decreases |post|
  {
    if post != [] {
      var s := rest + post;
      assert s[..|s| - 1] == rest + post[..|post| - 1];
      StripRightOfPadded(rest, post[..|post| - 1]);
    } else {
      assert rest + post == rest;
    }
  }

  /** `strip()` is idempotent. */
  lemma StripIdempotent(s: string)
    ensures Strip(Strip(s)) == Strip(s)
  {
    StripOfPadded([], Strip(s), []);
    assert [] + Strip(s) + [] == Strip(s);
  }

  /** `s.lower()`, character by character. */
  function Lower(s: string): (t: string)
    ensures |t| == |s|
    ensures forall i :: 0 <= i < |s| ==> t[i] == ToLower(s[i])
  {
    seq(|s|, i requires 0 <= i < |s| => ToLower(s[i]))
  }

  /**
   * `s.title()`: a cased character that follows a cased character is
   * lower-cased, every other character is upper-cased.
   */
  function Title(s: string): (t: string)
    ensures |t| == |s|
  {
    seq(|s|, i requires 0 <= i < |s| => if i > 0 && IsCased(s[i - 1]) then ToLower(s[i]) else ToUpper(s[i]))
  }

  /** The strings `title()` leaves unchanged: every word starts upper-case and goes on lower-case. */
  predicate IsTitleCased(s: string) {
    forall i :: 0 <= i < |s| ==> TitleCasedAt(s, i)
  }

  /** A cased character is lower-case after a cased character and upper-case elsewhere. */
  predicate TitleCasedAt(s: string, i: int)
    requires 0 <= i < |s|
  {
    IsCased(s[i]) ==> if i > 0 && IsCased(s[i - 1]) then IsLower(s[i]) else IsUpper(s[i])
  }

  /** `title()` touches only cased characters and never changes which characters are cased. */
  lemma TitleKeepsUncased(s: string, i: int)
    requires 0 <= i < |s|
    ensures IsCased(Title(s)[i]) == IsCased(s[i])
    ensures !IsCased(s[i]) ==> Title(s)[i] == s[i]
  {
  }

  /** The result of `title()` is title-cased, and title-cased strings are exactly its fixed points. */
  lemma TitleFixedPoints(s: string)
    ensures IsTitleCased(Title(s))
    ensures Title(s) == s <==> IsTitleCased(s)
  {
    var t := Title(s);
    forall i | 0 <= i < |s|
      ensures TitleCasedAt(t, i)
    {
      if i > 0 { TitleKeepsUncased(s, i - 1); }
    }
    if IsTitleCased(s) {
      forall i | 0 <= i < |s| ensures t[i] == s[i] {
        assert TitleCasedAt(s, i);
        if IsCased(s[i]) {
          assert ToLower(s[i]) == s[i] <== IsLower(s[i]);
        }
      }
    }
  }

  /** `title()` is idempotent. */
  lemma TitleIdempotent(s: string)
    ensures Title(Title(s)) == Title(s)
  {
    TitleFixedPoints(s);
    TitleFixedPoints(Title(s));
  }

  /** Lower-casing before `title()` makes no difference. */
  lemma TitleOfLower(s: string)
    ensures Title(Lower(s)) == Title(s)
  {
    forall i | 0 <= i < |s| ensures Title(Lower(s))[i] == Title(s)[i] {
      CaseMappingAbsorbs(s[i]);
    }
  }

  /** `title()` keeps whitespace where it was, so it keeps a trimmed string trimmed. */
  lemma TitleKeepsTrimmed(s: string)
    requires Trimmed(s)
    ensures Trimmed(Title(s))
  {
    if s != [] {
      TitleKeepsUncased(s, 0);
      TitleKeepsUncased(s, |s| - 1);
    }
  }

  /** `sep.join(parts)`. */
  function Join(parts: seq<string>, sep: string): string {
    if parts == [] then ""
    else if |parts| == 1 then parts[0]
    else parts[0] + sep + Join(parts[1..], sep)
  }

  /** `s.split(sep)` for a one-character separator: always at least one part, none holding `sep`. */
  function Split(s: string, sep: char): (parts: seq<string>)
    ensures |parts| >= 1
    ensures forall p :: p in parts ==> sep !in p
  {
    if s == [] then [""]
    else
      var rest := Split(s[1..], sep);
      if s[0] == sep then [""] + rest
      else [[s[0]] + rest[0]] + rest[1..]
  }

  /** Joining the parts of a split with the same separator gives back the string. */
  lemma {:induction false} JoinSplit(s: string, sep: char)
    ensures Join(Split(s, sep), [sep]) == s
  {
    if s != [] {
      var rest := Split(s[1..], sep);
      JoinSplit(s[1..], sep);
      if s[0] == sep {
        assert ([""] + rest)[1..] == rest;
      } else {
        var parts := [[s[0]] + rest[0]] + rest[1..];
        if |rest| > 1 {
          assert parts[1..] == rest[1..];
          assert Join(rest, [sep]) == rest[0] + [sep] + Join(rest[1..], [sep]);
        }
      }
    }
  }

  /** Splitting a join recovers the parts, provided no part holds the separator. */
  lemma {:induction false} SplitJoin(parts: seq<string>, sep: char)
    requires |parts| >= 1
    requires forall p :: p in parts ==> sep !in p
    ensures Split(Join(parts, [sep]), sep) == parts
    decreases |parts|, |parts[0]|
  {
    var p := parts[0];
    if p == [] {
      if |parts| > 1 {
        SplitJoin(parts[1..], sep);
        assert Join(parts, [sep]) == [sep] + Join(parts[1..], [sep]);
        assert Join(parts, [sep])[1..] == Join(parts[1..], [sep]);
      }
    } else {
      var shorter := [p[1..]] + parts[1..];
      assert p in parts;
      assert forall q :: q in shorter ==> q == p[1..] || q in parts;
      SplitJoin(shorter, sep);
      assert shorter[1..] == parts[1..];
      assert Join(parts, [sep]) == [p[0]] + Join(shorter, [sep]);
      assert Join(parts, [sep])[1..] == Join(shorter, [sep]);
      assert p == [p[0]] + p[1..];
      assert parts == [[p[0]] + shorter[0]] + shorter[1..];
    }
  }

  /** Python's `str.isdigit()`, restricted to the ASCII digits. */
  predicate IsDigits(s: string) {
    |s| > 0 && forall i :: 0 <= i < |s| ==> '0' <= s[i] <= '9'
  }

  /** `int(s)` for a string of decimal digits. */
  function DecimalValue(s: string): nat
    requires forall i :: 0 <= i < |s| ==> '0' <= s[i] <= '9'
  {
    if s == [] then 0
    else DecimalValue(s[..|s| - 1]) * 10 + (s[|s| - 1] as int - '0' as int)
  }
}
