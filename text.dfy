/**
 * Text helpers used by the factory model: decimal rendering of naturals, the ASCII part of
 * Python's `str.title`, the programmatic name built from a display name, substring search and
 * the letter identifiers of the first-generation library.
 */
module Text {
  predicate IsDigitChar(c: char) { '0' <= c <= '9' }
  predicate IsUpper(c: char) { 'A' <= c <= 'Z' }
  predicate IsLower(c: char) { 'a' <= c <= 'z' }
  predicate IsLetter(c: char) { IsUpper(c) || IsLower(c) }

  function ToUpper(c: char): char
  {
    if IsLower(c) then (c as int - 32) as char else c
  }

  function ToLower(c: char): char
  {
    if IsUpper(c) then (c as int + 32) as char else c
  }

  predicate AllDigits(s: string)
  {
    forall i :: 0 <= i < |s| ==> IsDigitChar(s[i])
  }

  function DigitChar(d: nat): char
    requires d < 10
  {
    (48 + d) as char
  }

  /** Python's `str` of a non-negative int: decimal digits, no leading zero. */
  function NatToString(n: nat): (s: string)
    ensures |s| >= 1
    ensures AllDigits(s)
    ensures s[0] == '0' <==> n == 0
    decreases n
  {
    if n < 10 then [DigitChar(n)] else NatToString(n / 10) + [DigitChar(n % 10)]
  }

  /** Reads a string of decimal digits back to the number it denotes. */
  function ParseNat(s: string): nat
    requires AllDigits(s)
    decreases |s|
  {
    if |s| == 0 then 0 else ParseNat(s[..|s| - 1]) * 10 + (s[|s| - 1] as int - 48)
  }

  /** Rendering a number and reading it back gives the number: the strings name their numbers. */
  lemma {:induction false} ParseNatToString(n: nat)
    ensures ParseNat(NatToString(n)) == n
    decreases n
  {
    if n >= 10 {
      var p := NatToString(n / 10);
      ParseNatToString(n / 10);
      var s := p + [DigitChar(n % 10)];
      assert NatToString(n) == s;
      assert s[..|s| - 1] == p;
    }
  }

  /** Distinct numbers render to distinct strings. */
  lemma NatToStringInjective(a: nat, b: nat)
    ensures NatToString(a) == NatToString(b) ==> a == b
  {
    ParseNatToString(a);
    ParseNatToString(b);
  }

  /** Whether position `i` of `s` begins a word, `prevCased` telling whether a letter came before `s`. */
  predicate WordStart(s: string, i: nat, prevCased: bool)
    requires i < |s|
  {
    if i == 0 then !prevCased else !IsLetter(s[i - 1])
  }

  /** One character title-cased: a letter starting a word is upper-cased, other letters lower-cased. */
  function TitleChar(c: char, start: bool): char
  {
    if !IsLetter(c) then c else if start then ToUpper(c) else ToLower(c)
  }

  /**
   * `str.title` over ASCII, continuing after a prefix whose last character was (`prevCased`) or
   * was not a letter: a letter that starts a word is upper-cased, any other letter lower-cased,
   * everything else kept.
   */
  function TitleFrom(s: string, prevCased: bool): (r: string)
    ensures |r| == |s|
    decreases |s|
  {
    if |s| == 0 then ""
    else
      [TitleChar(s[0], !prevCased)] + TitleFrom(s[1..], IsLetter(s[0]))
  }

  function Title(s: string): string
  {
    TitleFrom(s, false)
  }

  /**
   * What `TitleFrom` does to each character: a letter that starts a word is upper-cased, any
   * other letter lower-cased, everything else kept.
   */
  lemma {:induction false} TitleFromChars(s: string, prevCased: bool)
    ensures forall i :: 0 <= i < |s| ==> TitleFrom(s, prevCased)[i] == TitleChar(s[i], WordStart(s, i, prevCased))
    decreases |s|
  {
    if |s| > 0 {
      var tail := s[1..];
      var q := IsLetter(s[0]);
      TitleFromChars(tail, q);
      forall i | 1 <= i < |s|
        ensures TitleFrom(s, prevCased)[i] == TitleChar(s[i], WordStart(s, i, prevCased))
      {
        assert TitleFrom(s, prevCased)[i] == TitleFrom(tail, q)[i - 1];
        assert tail[i - 1] == s[i];
        if i > 1 {
          assert tail[i - 2] == s[i - 1];
        }
      }
    }
  }

  /** Title-casing a title-cased string changes nothing. */
  lemma TitleIdempotent(s: string)
    ensures Title(Title(s)) == Title(s)
  {
    var t := Title(s);
    var u := Title(t);
    TitleFromChars(s, false);
    TitleFromChars(t, false);
    assert forall i :: 0 <= i < |s| ==> IsLetter(t[i]) == IsLetter(s[i]);
    assert forall i :: 0 <= i < |s| ==> WordStart(t, i, false) == WordStart(s, i, false);
    assert forall i :: 0 <= i < |s| ==> u[i] == t[i];
  }

  /** Removes every space and full stop. */
  function StripSeparators(s: string): (r: string)
    ensures |r| <= |s|
    ensures forall i :: 0 <= i < |r| ==> r[i] != ' ' && r[i] != '.'
    ensures (forall i :: 0 <= i < |s| ==> s[i] != ' ' && s[i] != '.') ==> r == s
    decreases |s|
  {
    if |s| == 0 then ""
    else (if s[0] == ' ' || s[0] == '.' then "" else [s[0]]) + StripSeparators(s[1..])
  }

  /** The identifier-like name derived from a display name: title-cased, spaces and dots dropped. */
  function ProgrammaticName(name: string): (r: string)
    ensures forall i :: 0 <= i < |r| ==> r[i] != ' ' && r[i] != '.'
    ensures |r| <= |name|
  {
    StripSeparators(Title(name))
  }

  /** Stripping works piece by piece: what is kept from `a` comes first, in order, then what is kept from `b`. */
  lemma {:induction false} StripSeparatorsAppend(a: string, b: string)
    ensures StripSeparators(a + b) == StripSeparators(a) + StripSeparators(b)
    decreases |a|
  {
    if |a| == 0 {
      assert a + b == b;
    } else {
      var head := if a[0] == ' ' || a[0] == '.' then "" else [a[0]];
      assert (a + b)[0] == a[0] && (a + b)[1..] == a[1..] + b;
      StripSeparatorsAppend(a[1..], b);
      AppendAssoc(head, StripSeparators(a[1..]), StripSeparators(b));
    }
  }

  /** On one character: a space or a full stop is dropped, any other character is kept. */
  lemma StripSeparatorsChar(c: char)
    ensures StripSeparators([c]) == (if c == ' ' || c == '.' then "" else [c])
  {
    assert [c][1..] == "";
  }

  /** Concatenation is associative; stated once so that long proofs need not rediscover it. */
  lemma AppendAssoc<T>(a: seq<T>, b: seq<T>, c: seq<T>)
    ensures a + (b + c) == (a + b) + c
  {
  }

  /** Indexing past the head of a cons; stated once for proofs with crowded contexts. */
  lemma ConsIndex<T>(x: T, s: seq<T>)
    ensures |[x] + s| == |s| + 1 && ([x] + s)[0] == x
    ensures forall m :: 1 <= m <= |s| ==> ([x] + s)[m] == s[m - 1]
  {
  }

  /** `TitleFrom` on a non-empty string: the first character, then the rest after it. */
  lemma TitleFromCons(s: string, prevCased: bool)
    requires |s| > 0
    ensures TitleFrom(s, prevCased) == [TitleChar(s[0], !prevCased)] + TitleFrom(s[1..], IsLetter(s[0]))
  {
  }

  /** Whether a letter comes last in `a`, or (for an empty `a`) before it. */
  function EndsCased(a: string, prevCased: bool): bool
  {
    if |a| == 0 then prevCased else IsLetter(a[|a| - 1])
  }

  /** `TitleFrom` on a concatenation with a non-empty first part: its first character, then the rest. */
  lemma TitleFromConsAppend(a: string, b: string, prevCased: bool)
    requires |a| > 0
    ensures TitleFrom(a + b, prevCased) == [TitleChar(a[0], !prevCased)] + TitleFrom(a[1..] + b, IsLetter(a[0]))
  {
    assert (a + b)[0] == a[0] && (a + b)[1..] == a[1..] + b;
    TitleFromCons(a + b, prevCased);
  }

  /** Dropping the first character of a non-empty string keeps what comes last. */
  lemma EndsCasedTail(a: string, prevCased: bool)
    requires |a| > 0
    ensures EndsCased(a[1..], IsLetter(a[0])) == EndsCased(a, prevCased)
  {
    if |a| > 1 {
      assert a[1..][|a| - 2] == a[|a| - 1];
    }
  }

  /** Title-casing a concatenation: `b` is cased as if it followed the last character of `a`. */
  lemma {:induction false} TitleFromAppend(a: string, b: string, prevCased: bool)
    ensures TitleFrom(a + b, prevCased) == TitleFrom(a, prevCased) + TitleFrom(b, EndsCased(a, prevCased))
    decreases |a|
  {
    if |a| == 0 {
      assert a + b == b;
    } else {
      var tail, c, q := a[1..], TitleChar(a[0], !prevCased), IsLetter(a[0]);
      TitleFromConsAppend(a, b, prevCased);
      TitleFromCons(a, prevCased);
      EndsCasedTail(a, prevCased);
      TitleFromAppend(tail, b, q);
      var x, y := TitleFrom(tail, q), TitleFrom(b, EndsCased(a, prevCased));
      AppendAssoc([c], x, y);
    }
  }

  /** A separator is kept and ends the word before it. */
  lemma TitleAfterSeparator(sep: char, b: string, prevCased: bool)
    requires sep == ' ' || sep == '.'
    ensures TitleFrom([sep] + b, prevCased) == [sep] + Title(b)
  {
    assert ([sep] + b)[0] == sep && ([sep] + b)[1..] == b;
  }

  /** A separator ends a word: after it, `b` is title-cased on its own. */
  lemma TitleJoin(a: string, sep: char, b: string)
    requires sep == ' ' || sep == '.'
    ensures Title(a + [sep] + b) == Title(a) + [sep] + Title(b)
  {
    var q := if |a| == 0 then false else IsLetter(a[|a| - 1]);
    var joined, rest := a + [sep] + b, [sep] + b;
    assert joined == a + rest;
    TitleAfterSeparator(sep, b, q);
    TitleFromAppend(a, rest, false);
    assert EndsCased(a, false) == q;
    var ta, tb := Title(a), Title(b);
    assert Title(joined) == ta + ([sep] + tb);
    assert ta + ([sep] + tb) == ta + [sep] + tb;
  }

  /**
   * A separator splits the programmatic name: the name of `a`, a space or full stop, then `b` is
   * the programmatic name of `a` followed by that of `b`, as `b` starts a new word.
   */
  lemma ProgrammaticNameJoin(a: string, sep: char, b: string)
    requires sep == ' ' || sep == '.'
    ensures ProgrammaticName(a + [sep] + b) == ProgrammaticName(a) + ProgrammaticName(b)
  {
    TitleJoin(a, sep, b);
    var ta, tb := Title(a), Title(b);
    StripSeparatorsAppend(ta + [sep], tb);
    StripSeparatorsAppend(ta, [sep]);
    StripSeparatorsChar(sep);
  }

  /** A single word of letters becomes its first letter upper-cased and the rest lower-cased. */
  lemma ProgrammaticNameWord(w: string)
    requires |w| > 0 && forall i :: 0 <= i < |w| ==> IsLetter(w[i])
    ensures var r := ProgrammaticName(w);
      |r| == |w| && r[0] == ToUpper(w[0]) && forall i :: 1 <= i < |w| ==> r[i] == ToLower(w[i])
  {
    var t := Title(w);
    TitleFromChars(w, false);
    forall i | 0 <= i < |t|
      ensures IsLetter(t[i])
    {
      assert t[i] == TitleChar(w[i], WordStart(w, i, false));
    }
    assert StripSeparators(t) == t;
    forall i | 1 <= i < |w|
      ensures t[i] == ToLower(w[i])
    {
      assert t[i] == TitleChar(w[i], WordStart(w, i, false));
      assert IsLetter(w[i - 1]);
    }
    assert t[0] == TitleChar(w[0], WordStart(w, 0, false));
  }

  predicate IsPrefix(p: string, s: string)
  {
    |p| <= |s| && s[..|p|] == p
  }

  /** Python's `sub in s` for strings. */
  predicate Contains(s: string, sub: string)
    decreases |s|
  {
    IsPrefix(sub, s) || (|s| > 0 && Contains(s[1..], sub))
  }

  /** `sub` occurs in `s` starting at position `i`. */
  predicate OccursAt(s: string, sub: string, i: int)
  {
    0 <= i <= |s| - |sub| && s[i..i + |sub|] == sub
  }

  /** `Contains` holds exactly when `sub` occurs at some position of `s`. */
  lemma {:induction false} ContainsIff(s: string, sub: string)
    ensures Contains(s, sub) <==> exists i :: OccursAt(s, sub, i)
    decreases |s|
  {
    if IsPrefix(sub, s) {
      assert OccursAt(s, sub, 0);
    } else if |s| > 0 {
      ContainsIff(s[1..], sub);
      if Contains(s[1..], sub) {
        var i :| OccursAt(s[1..], sub, i);
        assert OccursAt(s, sub, i + 1);
      }
      if i :| OccursAt(s, sub, i) {
        assert i != 0;
        assert OccursAt(s[1..], sub, i - 1);
      }
    }
  }

  /** The empty string occurs in every string, and every string occurs in itself. */
  lemma ContainsTrivial(s: string)
    ensures Contains(s, "")
    ensures Contains(s, s)
  {
  }

  /** Python's `string.ascii_letters`: the 26 lower-case letters, then the 26 upper-case ones. */
  function AsciiLetter(k: nat): (c: char)
    requires k < 52
    ensures IsLetter(c)
  {
    if k < 26 then (97 + k) as char else (65 + k - 26) as char
  }

  /**
   * The first-generation identifier: a length drawn between 12 and 40, then that many letters
   * each drawn from the ASCII letters; the draws are the parameter.
   */
  function GenerateId(draws: seq<nat>): (id: string)
    requires 12 <= |draws| <= 40
    requires forall i :: 0 <= i < |draws| ==> draws[i] < 52
    ensures 12 <= |id| <= 40
    ensures forall i :: 0 <= i < |id| ==> IsLetter(id[i])
  {
    seq(|draws|, i requires 0 <= i < |draws| => AsciiLetter(draws[i]))
  }
}
