/**
 * The few functions of Go's `strings` package that the documentation
 * generator relies on, over `string` = `seq<char>`.
 */
module GoStrings {

  /** The separator `strings.Split(line, " ")` is called with. */
  const Space: char := ' '

  /** `strings.Split(s, " ")`: the pieces between single spaces. There is
    * always at least one piece, and no piece holds a space. */
  function Split(s: string): (r: seq<string>)
    ensures |r| >= 1
    ensures forall k :: 0 <= k < |r| ==> Space !in r[k]
  {
    if s == [] then [[]]
    else
      var rest := Split(s[1..]);
      if s[0] == Space then [[]] + rest
      else [[s[0]] + rest[0]] + rest[1..]
  }

  /** `strings.Join(parts, " ")`. */
  function Join(parts: seq<string>): string
  {
    if |parts| == 0 then []
    else if |parts| == 1 then parts[0]
    else parts[0] + [Space] + Join(parts[1..])
  }

  /** Joining the pieces of a split gives the line back. */
  lemma {:induction false} JoinSplit(s: string)
    ensures Join(Split(s)) == s
  {
    if s != [] {
      JoinSplit(s[1..]);
      var rest := Split(s[1..]);
      if s[0] == Space {
        assert Split(s) == [[]] + rest;
      } else {
        assert Split(s) == [[s[0]] + rest[0]] + rest[1..];
        if |rest| > 1 {
          assert rest == [rest[0]] + rest[1..];
        }
      }
    }
  }

  /** Splitting a join of space-free pieces gives the pieces back. */
  lemma {:induction false} SplitJoin(parts: seq<string>)
    requires |parts| >= 1
    requires forall k :: 0 <= k < |parts| ==> Space !in parts[k]
    ensures Split(Join(parts)) == parts
  {
    if |parts| == 1 {
      SplitWord(parts[0]);
    } else {
      SplitJoin(parts[1..]);
      SplitAfterWord(parts[0], Join(parts[1..]));
    }
  }

  /** A space-free word is a single piece. */
  lemma {:induction false} SplitWord(w: string)
    requires Space !in w
    ensures Split(w) == [w]
  {
    if w != [] {
      SplitWord(w[1..]);
      assert w[0] != Space && [w[0]] + w[1..] == w;
    }
  }

  /** A leading space-free word followed by a space becomes the first piece. */
  lemma {:induction false} SplitAfterWord(w: string, rest: string)
    requires Space !in w
    ensures Split(w + [Space] + rest) == [w] + Split(rest)
  {
    if w == [] {
      assert w + [Space] + rest == [Space] + rest;
    } else {
      SplitAfterWord(w[1..], rest);
      var s := w + [Space] + rest;
      assert s[0] == w[0] != Space;
      assert s[1..] == w[1..] + [Space] + rest;
      assert [w[0]] + w[1..] == w;
    }
  }

  /** `strings.HasPrefix`. */
  predicate HasPrefix(s: string, prefix: string)
  {
    |prefix| <= |s| && s[..|prefix|] == prefix
  }

  /** `strings.Contains`: `sub` occurs somewhere in `s`. */
  predicate Contains(s: string, sub: string)
    decreases |s|
  {
    HasPrefix(s, sub) || (s != [] && Contains(s[1..], sub))
  }

  /** `sub` occurs in `s` at offset `i`. */
  predicate OccursAt(s: string, sub: string, i: int)
  {
    0 <= i <= |s| - |sub| && s[i..i + |sub|] == sub
  }

  /** Contains holds exactly when `sub` occurs at some offset. */
  lemma {:induction false} ContainsAt(s: string, sub: string)
    ensures Contains(s, sub) <==> exists i :: OccursAt(s, sub, i)
  {
    if HasPrefix(s, sub) {
      assert OccursAt(s, sub, 0);
    }
    if s != [] {
      ContainsAt(s[1..], sub);
      if Contains(s[1..], sub) {
        var i :| OccursAt(s[1..], sub, i);
        assert OccursAt(s, sub, i + 1);
      }
      if i :| OccursAt(s, sub, i) {
        if i > 0 {
          assert OccursAt(s[1..], sub, i - 1);
        }
      }
    } else {
      if i :| OccursAt(s, sub, i) {
        assert s[..|sub|] == sub;
      }
    }
  }

  /** Text containing `sub` still contains it with more text around it. */
  lemma ContainsWithin(a: string, b: string, c: string, sub: string)
    requires Contains(b, sub)
    ensures Contains(a + b + c, sub)
  {
    ContainsAt(b, sub);
    var i :| OccursAt(b, sub, i);
    assert (a + b + c)[|a| + i..|a| + i + |sub|] == b[i..i + |sub|];
    assert OccursAt(a + b + c, sub, |a| + i);
    ContainsAt(a + b + c, sub);
  }

  /** Unicode White_Space characters above ASCII (`unicode.IsSpace`). */
  predicate IsUnicodeSpace(c: char)
  {
    c == '\U{0085}' || c == '\U{00A0}' || c == '\U{1680}' || ('\U{2000}' <= c <= '\U{200A}') ||
    c == '\U{2028}' || c == '\U{2029}' || c == '\U{202F}' || c == '\U{205F}' || c == '\U{3000}'
  }

  /** Word boundary of `strings.Title`: in ASCII everything except letters,
    * digits and `_`; above ASCII only the Unicode spaces. */
  predicate IsSeparator(c: char)
  {
    if c <= '\U{7F}' then
      !(('0' <= c <= '9') || ('a' <= c <= 'z') || ('A' <= c <= 'Z') || c == '_')
    else
      IsUnicodeSpace(c)
  }

  /** `unicode.ToTitle` on ASCII: lower-case letters become upper case. */
  function ToTitle(c: char): char
  {
    if 'a' <= c <= 'z' then (c as int - 32) as char else c
  }

  /** Title turns no character other than a space into a space. */
  lemma {:induction false} TitleKeepsNonSpaces(s: string, prev: char)
    ensures Space !in s ==> Space !in TitleAfter(s, prev)
  {
    if s != [] {
      TitleKeepsNonSpaces(s[1..], s[0]);
      if Space !in s {
        assert Space !in s[1..];
        assert TitleAfter(s, prev) == [TitleAfter(s, prev)[0]] + TitleAfter(s[1..], s[0]);
      }
    }
  }

  /** `strings.Title` with the previous character `prev`. */
  function TitleAfter(s: string, prev: char): (r: string)
    ensures |r| == |s|
  {
    if s == [] then []
    else [if IsSeparator(prev) then ToTitle(s[0]) else s[0]] + TitleAfter(s[1..], s[0])
  }

  /** `strings.Title`: the first letter of every word in upper case. It
    * keeps the length, title-cases the first character, and never makes a
    * space. */
  function Title(s: string): (r: string)
    ensures |r| == |s|
    ensures s != [] ==> r[0] == ToTitle(s[0])
    ensures Space !in s ==> Space !in r
  {
    TitleKeepsNonSpaces(s, Space);
    TitleAfter(s, Space)
  }

  /** Title changes nothing but the first character of each word, which it
    * turns into its title case. */
  lemma {:induction false} TitleAt(s: string, prev: char, k: nat)
    requires k < |s|
    ensures TitleAfter(s, prev)[k] ==
      if IsSeparator(if k == 0 then prev else s[k - 1]) then ToTitle(s[k]) else s[k]
  {
    if k > 0 {
      TitleAt(s[1..], s[0], k - 1);
    }
  }

  /** Title is idempotent: a title-cased word stays as it is. */
  lemma {:induction false} TitleIdempotent(s: string, prev: char)
    ensures TitleAfter(TitleAfter(s, prev), ToTitle(prev)) == TitleAfter(s, prev)
  {
    if s != [] {
      var head := if IsSeparator(prev) then ToTitle(s[0]) else s[0];
      assert IsSeparator(ToTitle(prev)) == IsSeparator(prev);
      assert IsSeparator(head) == IsSeparator(s[0]);
      TitleIdempotent(s[1..], s[0]);
      if IsSeparator(prev) {
        TitleAfterSameClass(TitleAfter(s[1..], s[0]), s[0], head);
      } else {
        TitleAfterSameClass(TitleAfter(s[1..], s[0]), s[0], ToTitle(s[0]));
      }
    }
  }

  /** `strings.Title` applied twice is `strings.Title` applied once. */
  lemma TitleTitle(s: string)
    ensures Title(Title(s)) == Title(s)
  {
    TitleIdempotent(s, Space);
  }

  /** Only whether the previous character separates words matters. */
  lemma {:induction false} TitleAfterSameClass(s: string, p: char, q: char)
    requires IsSeparator(p) == IsSeparator(q)
    ensures TitleAfter(s, q) == TitleAfter(s, p)
  {
  }

  /** Inside a word (after a letter, digit or `_`) Title changes nothing. */
  lemma {:induction false} TitleInsideWord(s: string, prev: char)
    requires !IsSeparator(prev)
    requires forall k :: 0 <= k < |s| ==> !IsSeparator(s[k])
    ensures TitleAfter(s, prev) == s
  {
    if s != [] {
      TitleInsideWord(s[1..], s[0]);
    }
  }

  /** Title of a single word of letters, digits and `_` changes only its
    * first character, to its title case. */
  lemma TitleWord(w: string)
    requires w != [] && forall k :: 0 <= k < |w| ==> !IsSeparator(w[k])
    ensures Title(w) == [ToTitle(w[0])] + w[1..]
  {
    TitleInsideWord(w[1..], w[0]);
  }

  /** A word that starts with a lower-case letter starts upper case after Title. */
  lemma TitleCapitalises(w: string)
    requires w != [] && 'a' <= w[0] <= 'z'
    ensures Title(w)[0] == ToTitle(w[0]) && 'A' <= Title(w)[0] <= 'Z'
  {
  }
}
