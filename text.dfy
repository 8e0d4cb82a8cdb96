/** Text helpers shared by the models: the few pieces of Python's `str` that the
    source relies on (`isspace`, `lower`, `upper`, `endswith`, `in`, `replace`,
    `strip`, `split()` and `join`), restricted to ASCII. */
module Text {

  /** Python's `str.isspace` on ASCII: tab, line feed, vertical tab, form feed,
      carriage return (9..13), the four separator controls (28..31) and space. */
  predicate IsSpace(c: char) {
    (9 <= c as int <= 13) || (28 <= c as int <= 31) || c == ' '
  }

  predicate NoSpace(s: string) {
    forall i :: 0 <= i < |s| ==> !IsSpace(s[i])
  }

  predicate IsAsciiUpper(c: char) { 'A' <= c <= 'Z' }

  predicate IsAsciiLower(c: char) { 'a' <= c <= 'z' }

  function LowerChar(c: char): char {
    if IsAsciiUpper(c) then (c as int + 32) as char else c
  }

  function UpperChar(c: char): char {
    if IsAsciiLower(c) then (c as int - 32) as char else c
  }

  /** `s.lower()` on ASCII letters. */
  function Lower(s: string): (r: string)
    ensures |r| == |s|
    ensures forall i :: 0 <= i < |s| ==> !IsAsciiUpper(r[i])
  {
    seq(|s|, i requires 0 <= i < |s| => LowerChar(s[i]))
  }

  /** `s.upper()` on ASCII letters. */
  function Upper(s: string): (r: string)
    ensures |r| == |s|
    ensures forall i :: 0 <= i < |s| ==> !IsAsciiLower(r[i])
  {
    seq(|s|, i requires 0 <= i < |s| => UpperChar(s[i]))
  }

  predicate StartsWith(s: string, prefix: string) {
    |prefix| <= |s| && s[..|prefix|] == prefix
  }

  predicate EndsWith(s: string, suffix: string) {
    |suffix| <= |s| && s[|s| - |suffix|..] == suffix
  }

  /** `sub in s`. */
  predicate Contains(s: string, sub: string)
    decreases |s|
  {
    StartsWith(s, sub) || (s != [] && Contains(s[1..], sub))
  }

  /** Number of non-overlapping occurrences of `pat`, scanning left to right as
      `str.replace` does. */
  function Occurrences(s: string, pat: string): nat
    requires pat != []
    decreases |s|
  {
    if |s| < |pat| then 0
    else if s[..|pat|] == pat then 1 + Occurrences(s[|pat|..], pat)
    else Occurrences(s[1..], pat)
  }

  /** `s.replace(pat, rep)`: every non-overlapping occurrence of `pat`, found
      left to right, is replaced by `rep`. */
  function ReplaceAll(s: string, pat: string, rep: string): string
    requires pat != []
    decreases |s|
  {
    if |s| < |pat| then s
    else if s[..|pat|] == pat then rep + ReplaceAll(s[|pat|..], pat, rep)
    else [s[0]] + ReplaceAll(s[1..], pat, rep)
  }

  /** Each replacement trades `|pat|` characters for `|rep|` characters. */
  lemma {:induction false} ReplaceLength(s: string, pat: string, rep: string)
    requires pat != []
    ensures |ReplaceAll(s, pat, rep)| + Occurrences(s, pat) * |pat|
         == |s| + Occurrences(s, pat) * |rep|
    decreases |s|
  {
    if |s| < |pat| {
    } else if s[..|pat|] == pat {
      var c := Occurrences(s[|pat|..], pat);
      ReplaceLength(s[|pat|..], pat, rep);
      MulSucc(c, |pat|);
      MulSucc(c, |rep|);
    } else {
      ReplaceLength(s[1..], pat, rep);
    }
  }

  lemma MulSucc(c: nat, x: nat)
    ensures (1 + c) * x == x + c * x
  {
  }

  /** A string in which the pattern never occurs is left as it is. */
  lemma {:induction false} ReplaceAbsent(s: string, pat: string, rep: string)
    requires pat != [] && !Contains(s, pat)
    ensures ReplaceAll(s, pat, rep) == s
    ensures Occurrences(s, pat) == 0
    decreases |s|
  {
    if |s| >= |pat| {
      assert !StartsWith(s, pat);
      ReplaceAbsent(s[1..], pat, rep);
    }
  }

  /** If the only place `pat` can be found in `d + pat` is its end, replacing
      the pattern by `rep` turns `d + pat` into `d + rep`. */
  lemma {:induction false} ReplaceTrailing(d: string, pat: string, rep: string)
    requires pat != []
    requires forall i :: 0 <= i < |d| ==> !StartsWith((d + pat)[i..], pat)
    ensures ReplaceAll(d + pat, pat, rep) == d + rep
    decreases |d|
  {
    var s := d + pat;
    if d == [] {
      assert s == pat;
      assert s[..|pat|] == pat && s[|pat|..] == [];
    } else {
      assert s[0..] == s;
      assert s[..|pat|] != pat;
      var t := d[1..] + pat;
      assert s[1..] == t;
      forall i | 0 <= i < |d[1..]|
        ensures !StartsWith(t[i..], pat)
      {
        assert t[i..] == s[i + 1..];
      }
      ReplaceTrailing(d[1..], pat, rep);
      calc {
        ReplaceAll(s, pat, rep);
        [s[0]] + ReplaceAll(t, pat, rep);
        [d[0]] + (d[1..] + rep);
        { assert [d[0]] + d[1..] == d; }
        d + rep;
      }
    }
  }

  /** Python's `s.lstrip()` / `s.rstrip()` / `s.strip()` with no argument. */
  function TrimLeft(s: string): (r: string)
    ensures r == [] || !IsSpace(r[0])
    decreases |s|
  {
    if s != [] && IsSpace(s[0]) then TrimLeft(s[1..]) else s
  }

  function TrimRight(s: string): (r: string)
    ensures r == [] || !IsSpace(r[|r| - 1])
    decreases |s|
  {
    if s != [] && IsSpace(s[|s| - 1]) then TrimRight(s[..|s| - 1]) else s
  }

  function Strip(s: string): string {
    TrimRight(TrimLeft(s))
  }

  /** Length of the run of non-whitespace characters that starts `s`. */
  function WordLen(s: string): (k: nat)
    ensures k <= |s|
    ensures forall i :: 0 <= i < k ==> !IsSpace(s[i])
    ensures k < |s| ==> IsSpace(s[k])
    decreases |s|
  {
    if s == [] || IsSpace(s[0]) then 0 else 1 + WordLen(s[1..])
  }

  /** `s.split()` with no separator: the maximal runs of non-whitespace
      characters, in order. No word is empty and no word holds whitespace. */
  function Words(s: string): (ws: seq<string>)
    ensures forall w <- ws :: w != [] && NoSpace(w)
    decreases |s|
  {
    if s == [] then []
    else if IsSpace(s[0]) then Words(s[1..])
    else
      var k := WordLen(s);
      assert NoSpace(s[..k]);
      [s[..k]] + Words(s[k..])
  }

  /** `sep.join(ws)`. */
  function Join(ws: seq<string>, sep: string): string
    decreases |ws|
  {
    if ws == [] then []
    else if |ws| == 1 then ws[0]
    else ws[0] + sep + Join(ws[1..], sep)
  }

  /** The concatenation of a list of strings. */
  function Concat(ws: seq<string>): string
    decreases |ws|
  {
    if ws == [] then [] else ws[0] + Concat(ws[1..])
  }

  /** `s` with every whitespace character deleted. */
  function Squeeze(s: string): string
    decreases |s|
  {
    if s == [] then []
    else if IsSpace(s[0]) then Squeeze(s[1..])
    else [s[0]] + Squeeze(s[1..])
  }

  lemma {:induction false} SqueezeNoSpace(w: string)
    requires NoSpace(w)
    ensures Squeeze(w) == w
    decreases |w|
  {
    if w != [] {
      SqueezeNoSpace(w[1..]);
    }
  }

  lemma {:induction false} SqueezeAppend(a: string, b: string)
    ensures Squeeze(a + b) == Squeeze(a) + Squeeze(b)
    decreases |a|
  {
    if a == [] {
      assert a + b == b;
    } else {
      assert (a + b)[0] == a[0];
      assert (a + b)[1..] == a[1..] + b;
      SqueezeAppend(a[1..], b);
    }
  }

  /** `split()` loses only the whitespace: concatenating the words gives back
      the input with its whitespace removed. */
  lemma {:induction false} WordsKeepText(s: string)
    ensures Concat(Words(s)) == Squeeze(s)
    decreases |s|
  {
    if s != [] {
      if IsSpace(s[0]) {
        WordsKeepText(s[1..]);
      } else {
        var k := WordLen(s);
        WordsKeepText(s[k..]);
        assert s == s[..k] + s[k..];
        SqueezeAppend(s[..k], s[k..]);
        SqueezeNoSpace(s[..k]);
      }
    }
  }

  /** A cut just before whitespace is a cut between words. */
  lemma {:induction false} WordsAppendBeforeSpace(a: string, b: string)
    requires b == [] || IsSpace(b[0])
    ensures Words(a + b) == Words(a) + Words(b)
    decreases |a|
  {
    if a == [] {
      assert a + b == b;
    } else if IsSpace(a[0]) {
      WordsAppendBeforeSpace(a[1..], b);
      SkipSpaceStep(a, b);
    } else {
      WordsAppendBeforeSpace(a[WordLen(a)..], b);
      FirstWordStep(a, b);
    }
  }

  /** One step of `split()`: leading whitespace is skipped, and otherwise the
      leading run of non-whitespace is the first word. */
  lemma WordsStep(s: string)
    requires s != []
    ensures IsSpace(s[0]) ==> Words(s) == Words(s[1..])
    ensures !IsSpace(s[0]) ==> Words(s) == [s[..WordLen(s)]] + Words(s[WordLen(s)..])
  {
  }

  lemma SkipSpaceStep(a: string, b: string)
    requires a != [] && IsSpace(a[0])
    requires Words(a[1..] + b) == Words(a[1..]) + Words(b)
    ensures Words(a + b) == Words(a) + Words(b)
  {
    SliceAppend(a, b, 1);
    WordsStep(a + b);
    WordsStep(a);
  }

  lemma FirstWordStep(a: string, b: string)
    requires a != [] && !IsSpace(a[0]) && (b == [] || IsSpace(b[0]))
    requires Words(a[WordLen(a)..] + b) == Words(a[WordLen(a)..]) + Words(b)
    ensures Words(a + b) == Words(a) + Words(b)
  {
    var k := WordLen(a);
    FirstWordOfAppend(a, b);
    WordsStep(a);
    ConsAppend(a[..k], Words(a[k..]), Words(b), Words(a + b), Words(a), Words(a[k..] + b));
  }

  lemma ConsAppend(x: string, p: seq<string>, q: seq<string>, l: seq<string>, r: seq<string>, m: seq<string>)
    requires l == [x] + m && m == p + q && r == [x] + p
    ensures l == r + q
  {
    assert [x] + (p + q) == ([x] + p) + q;
  }

  /** Text after the first word that starts with whitespace does not change
      the first word. */
  lemma FirstWordOfAppend(a: string, b: string)
    requires a != [] && !IsSpace(a[0]) && (b == [] || IsSpace(b[0]))
    ensures Words(a + b) == [a[..WordLen(a)]] + Words(a[WordLen(a)..] + b)
  {
    WordLenAppend(a, b);
    SliceAppend(a, b, WordLen(a));
    WordsStep(a + b);
  }

  /** Cutting `a + b` inside `a`. */
  lemma SliceAppend(a: string, b: string, k: nat)
    requires 0 < k <= |a|
    ensures (a + b)[0] == a[0] && (a + b)[..k] == a[..k] && (a + b)[k..] == a[k..] + b
  {
  }

  /** A word appended after a space adds exactly that word. */
  lemma WordsAppendWord(a: string, w: string)
    requires w != [] && NoSpace(w)
    ensures Words(a + (" " + w)) == Words(a) + [w]
  {
    WordsAppendBeforeSpace(a, " " + w);
    assert (" " + w)[1..] == w;
    OneWord(w);
  }

  /** A word followed by a space is that one word. */
  lemma WordThenSpace(w: string)
    requires w != [] && NoSpace(w)
    ensures Words(w + " ") == [w]
  {
    WordsAppendBeforeSpace(w, " ");
    SpacesHaveNoWords(" ");
    OneWord(w);
  }

  lemma {:induction false} WordLenAppend(a: string, b: string)
    requires b == [] || IsSpace(b[0])
    ensures WordLen(a + b) == WordLen(a)
    decreases |a|
  {
    if a == [] {
      assert a + b == b;
    } else if !IsSpace(a[0]) {
      assert (a + b)[1..] == a[1..] + b;
      WordLenAppend(a[1..], b);
    }
  }

  /** A non-empty string without whitespace is one word. */
  lemma OneWord(w: string)
    requires w != [] && NoSpace(w)
    ensures Words(w) == [w]
  {
    WordLenNoSpace(w);
    assert !IsSpace(w[0]);
    assert w[..|w|] == w;
    assert Words(w[|w|..]) == [];
  }

  lemma {:induction false} WordLenNoSpace(w: string)
    requires NoSpace(w)
    ensures WordLen(w) == |w|
    decreases |w|
  {
    if w != [] {
      WordLenNoSpace(w[1..]);
    }
  }

  lemma {:induction false} SpacesHaveNoWords(s: string)
    requires forall i :: 0 <= i < |s| ==> IsSpace(s[i])
    ensures Words(s) == []
    decreases |s|
  {
    if s != [] {
      SpacesHaveNoWords(s[1..]);
    }
  }

  /** Joining words with single spaces and splitting again gives the words
      back, as long as no word is empty or holds whitespace. */
  lemma {:induction false} WordsOfJoin(ws: seq<string>)
    requires forall w <- ws :: w != [] && NoSpace(w)
    ensures Words(Join(ws, " ")) == ws
    decreases |ws|
  {
    assert ws != [] ==> ws[0] in ws;
    if ws == [] {
    } else if |ws| == 1 {
      OneWord(ws[0]);
    } else {
      var rest := Join(ws[1..], " ");
      assert Join(ws, " ") == ws[0] + (" " + rest);
      WordsAppendBeforeSpace(ws[0], " " + rest);
      OneWord(ws[0]);
      assert (" " + rest)[1..] == rest;
      assert forall w <- ws[1..] :: w in ws;
      WordsOfJoin(ws[1..]);
    }
  }

  /** `s.strip().split()` is `s.split()`. */
  lemma {:induction false} WordsIgnoreLeft(s: string)
    ensures Words(TrimLeft(s)) == Words(s)
    decreases |s|
  {
    if s != [] && IsSpace(s[0]) {
      WordsIgnoreLeft(s[1..]);
    }
  }

  lemma {:induction false} WordsIgnoreRight(s: string)
    ensures Words(TrimRight(s)) == Words(s)
    decreases |s|
  {
    if s != [] && IsSpace(s[|s| - 1]) {
      var p := s[..|s| - 1];
      assert s == p + [s[|s| - 1]];
      WordsAppendBeforeSpace(p, [s[|s| - 1]]);
      SpacesHaveNoWords([s[|s| - 1]]);
      WordsIgnoreRight(p);
    }
  }

  lemma WordsOfStrip(s: string)
    ensures Words(Strip(s)) == Words(s)
  {
    WordsIgnoreRight(TrimLeft(s));
    WordsIgnoreLeft(s);
  }

  /** A string that does not start or end with whitespace is its own strip. */
  lemma StripUnchanged(s: string)
    requires s == [] || (!IsSpace(s[0]) && !IsSpace(s[|s| - 1]))
    ensures Strip(s) == s
  {
  }
}
