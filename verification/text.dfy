/**
 * The few Python string operations the modelled code relies on: `str.strip()`,
 * `str.split()` with no separator, `" ".join(...)`, `str.startswith`, the
 * substring test `sub in s` and `str.lower()`.
 */
module Text {

  /** The characters Python's `str.isspace()` accepts; `strip()` and `split()` use the same set. */
  predicate IsSpace(c: char) {
    || ('\U{9}' <= c <= '\U{D}')
    || ('\U{1C}' <= c <= '\U{20}')
    || c == '\U{85}' || c == '\U{A0}' || c == '\U{1680}'
    || ('\U{2000}' <= c <= '\U{200A}')
    || c == '\U{2028}' || c == '\U{2029}' || c == '\U{202F}' || c == '\U{205F}' || c == '\U{3000}'
  }

  /** Every character of `s` is whitespace (vacuously true of the empty string). */
  predicate AllSpace(s: string) {
    forall i :: 0 <= i < |s| ==> IsSpace(s[i])
  }

  /** `s` neither starts nor ends with whitespace: what `strip()` produces. */
  predicate IsStripped(s: string) {
    s == [] || (!IsSpace(s[0]) && !IsSpace(s[|s| - 1]))
  }

  /** A token of `split()`: non-empty and free of whitespace. */
  predicate IsToken(s: string) {
    |s| > 0 && forall i :: 0 <= i < |s| ==> !IsSpace(s[i])
  }

  /** `s.lstrip()`: the suffix of `s` left after dropping its leading whitespace. */
  function TrimStart(s: string): (r: string)
    ensures |r| <= |s| && r == s[|s| - |r|..]
    ensures r == [] || !IsSpace(r[0])
    ensures forall i :: 0 <= i < |s| - |r| ==> IsSpace(s[i])
  {
    if |s| > 0 && IsSpace(s[0]) then TrimStart(s[1..]) else s
  }

  /** `s.rstrip()`: the prefix of `s` left after dropping its trailing whitespace. */
  function TrimEnd(s: string): (r: string)
    ensures |r| <= |s| && r == s[..|r|]
    ensures r == [] || !IsSpace(r[|r| - 1])
    ensures forall i :: |r| <= i < |s| ==> IsSpace(s[i])
  {
    if |s| > 0 && IsSpace(s[|s| - 1]) then TrimEnd(s[..|s| - 1]) else s
  }

  /** `r` is `s[a..b]`, and only whitespace lies outside that slice. */
  predicate SliceBetweenSpace(s: string, r: string, a: nat, b: nat) {
    && a <= b <= |s| && r == s[a..b]
    && (forall i :: 0 <= i < a ==> IsSpace(s[i]))
    && (forall i :: b <= i < |s| ==> IsSpace(s[i]))
  }

  /** `r` is a slice of `s` with nothing but whitespace before and after it. */
  ghost predicate TrimmedOf(s: string, r: string) {
    exists a: nat, b: nat :: SliceBetweenSpace(s, r, a, b)
  }

  /** What `rstrip()` keeps of `s[a..]` is a slice of `s` followed only by whitespace. */
  lemma TrimEndOfSuffix(s: string, a: nat)
    requires a <= |s|
    ensures var r := TrimEnd(s[a..]);
      && a + |r| <= |s| && r == s[a..a + |r|]
      && forall i :: a + |r| <= i < |s| ==> IsSpace(s[i])
  {
    var t := s[a..];
    var r := TrimEnd(t);
    assert r == t[..|r|];
    forall i | a + |r| <= i < |s|
      ensures IsSpace(s[i])
    {
      assert s[i] == t[i - a];
    }
  }

  /** `s.strip()`: the slice of `s` left once the whitespace at both ends is gone. */
  function Strip(s: string): (r: string)
    ensures |r| <= |s|
    ensures IsStripped(r)
    ensures TrimmedOf(s, r)
    ensures r == [] <==> AllSpace(s)
  {
    StripSlice(s);
    StripEmpty(s);
    TrimEnd(TrimStart(s))
  }

  /** What `lstrip()` then `rstrip()` keep is a slice of `s` between whitespace. */
  lemma StripSlice(s: string)
    ensures TrimmedOf(s, TrimEnd(TrimStart(s)))
  {
    var t := TrimStart(s);
    var r := TrimEnd(t);
    var a := |s| - |t|;
    TrimEndOfSuffix(s, a);
    assert SliceBetweenSpace(s, r, a, a + |r|);
  }

  /** Only a string of whitespace strips to nothing. */
  lemma StripEmpty(s: string)
    ensures TrimEnd(TrimStart(s)) == [] <==> AllSpace(s)
  {
    var t := TrimStart(s);
    TrimStartEmpty(s);
    assert t != [] ==> !IsSpace(t[0]);
  }

  /** A string that is already stripped is left alone by `strip()`. */
  lemma StripOfStripped(s: string)
    requires IsStripped(s)
    ensures Strip(s) == s
  {
  }

  /** Trailing whitespace appended to a string does not survive `rstrip()`. */
  lemma {:induction false} TrimEndDropsSpace(t: string, w: string)
    requires AllSpace(w)
    ensures TrimEnd(t + w) == TrimEnd(t)
    decreases |w|
  {
    if |w| > 0 {
      var u := t + w;
      assert u[..|u| - 1] == t + w[..|w| - 1];
      TrimEndDropsSpace(t, w[..|w| - 1]);
    } else {
      assert t + w == t;
    }
  }

  /** `strip()` of a stripped string followed by whitespace gives the stripped string back. */
  lemma StripPadded(t: string, w: string)
    requires IsStripped(t) && AllSpace(w)
    ensures Strip(t + w) == t
  {
    if t == [] {
      assert t + w == w;
    } else {
      assert TrimStart(t + w) == t + w;
      TrimEndDropsSpace(t, w);
    }
  }

  /** `rstrip()` never cuts into a prefix that ends with a non-space character. */
  lemma {:induction false} TrimEndKeepsPrefix(p: string, v: string)
    requires |p| > 0 && !IsSpace(p[|p| - 1])
    ensures StartsWith(TrimEnd(p + v), p)
    decreases |v|
  {
    var u := p + v;
    if |v| > 0 && IsSpace(u[|u| - 1]) {
      assert u[..|u| - 1] == p + v[..|v| - 1];
      TrimEndKeepsPrefix(p, v[..|v| - 1]);
    } else {
      assert u[..|p|] == p;
    }
  }

  /** `strip()` of a string that starts with a key whose ends are not whitespace still starts with that key. */
  lemma StripKeepsKey(p: string, v: string)
    requires IsToken(p)
    ensures StartsWith(Strip(p + v), p)
  {
    assert (p + v)[0] == p[0];
    assert TrimStart(p + v) == p + v;
    TrimEndKeepsPrefix(p, v);
  }

  /** `s.startswith(p)`. */
  predicate StartsWith(s: string, p: string) {
    |p| <= |s| && s[..|p|] == p
  }

  /** `sub in s`: `sub` occurs somewhere in `s`. */
  predicate Contains(s: string, sub: string)
    decreases |s|
  {
    StartsWith(s, sub) || (|s| > 0 && Contains(s[1..], sub))
  }

  /** A string contains the text that follows any prefix of it. */
  lemma {:induction false} ContainsSuffix(p: string, sub: string, q: string)
    ensures Contains(p + sub + q, sub)
    decreases |p|
  {
    var s := p + sub + q;
    if |p| == 0 {
      assert s[..|sub|] == sub;
    } else {
      assert s[1..] == p[1..] + sub + q;
      ContainsSuffix(p[1..], sub, q);
    }
  }

  /** Length of the run of non-space characters at the start of `s`. */
  function WordEnd(s: string): (n: nat)
    ensures n <= |s|
    ensures forall i :: 0 <= i < n ==> !IsSpace(s[i])
    ensures n == |s| || IsSpace(s[n])
  {
    if s == [] || IsSpace(s[0]) then 0 else 1 + WordEnd(s[1..])
  }

  /** `s.split()`: the maximal runs of non-space characters of `s`, in order. */
  function Split(s: string): (r: seq<string>)
    ensures forall i :: 0 <= i < |r| ==> IsToken(r[i])
    ensures r == [] <==> AllSpace(s)
    decreases |s|
  {
    var t := TrimStart(s);
    TrimStartEmpty(s);
    if t == [] then []
    else
      var n := WordEnd(t);
      var rest := Split(t[n..]);
      FirstWordIsToken(t);
      TokensCons(t[..n], rest);
      [t[..n]] + rest
  }

  lemma TokensCons(h: string, rest: seq<string>)
    requires IsToken(h) && forall i :: 0 <= i < |rest| ==> IsToken(rest[i])
    ensures forall i :: 0 <= i < |[h] + rest| ==> IsToken(([h] + rest)[i])
  {
    forall i | 0 <= i < |[h] + rest|
      ensures IsToken(([h] + rest)[i])
    {
      if i > 0 {
        assert ([h] + rest)[i] == rest[i - 1];
      }
    }
  }

  /** A string that starts with a non-space character starts with a token. */
  lemma FirstWordIsToken(t: string)
    requires t != [] && !IsSpace(t[0])
    ensures IsToken(t[..WordEnd(t)])
  {
    var n := WordEnd(t);
    assert n != 0;
    forall i | 0 <= i < n
      ensures !IsSpace(t[..n][i])
    {
      assert t[..n][i] == t[i];
    }
  }

  /** Only a string of whitespace has nothing left after `lstrip()`. */
  lemma TrimStartEmpty(s: string)
    ensures TrimStart(s) == [] <==> AllSpace(s)
  {
    var t := TrimStart(s);
    if t != [] {
      assert s[|s| - |t|] == t[0];
    }
  }

  /** `" ".join(ts)`. */
  function JoinSpaced(ts: seq<string>): string {
    if |ts| == 0 then ""
    else if |ts| == 1 then ts[0]
    else ts[0] + " " + JoinSpaced(ts[1..])
  }

  /** The first token of a join of tokens stops at the first separator. */
  lemma {:induction false} WordEndOfToken(a: string, b: string)
    requires IsToken(a)
    requires b == [] || IsSpace(b[0])
    ensures WordEnd(a + b) == |a|
    decreases |a|
  {
    if |a| > 1 {
      assert (a + b)[1..] == a[1..] + b;
      WordEndOfToken(a[1..], b);
    } else {
      assert (a + b)[1..] == b;
    }
  }

  /** Leading whitespace does not change what `split()` yields. */
  lemma SplitSkipsSpace(c: char, rest: string)
    requires IsSpace(c)
    ensures Split([c] + rest) == Split(rest)
  {
    assert ([c] + rest)[1..] == rest;
    assert TrimStart([c] + rest) == TrimStart(rest);
  }

  /** `split()` of a token followed by a separator and more text yields the token, then the rest. */
  lemma SplitAfterToken(a: string, b: string)
    requires IsToken(a)
    requires b == [] || IsSpace(b[0])
    ensures Split(a + b) == [a] + Split(b)
  {
    var s := a + b;
    assert TrimStart(s) == s;
    WordEndOfToken(a, b);
    assert s[..|a|] == a;
    assert s[|a|..] == b;
  }

  /** The first `i + 1` elements are the first `i` and then element `i`. */
  lemma PrefixStep<T>(s: seq<T>, i: nat)
    requires i < |s|
    ensures s[..i + 1] == s[..i] + [s[i]]
  {
  }

  /** Concatenation is associative. */
  lemma Associative<T>(x: seq<T>, y: seq<T>, z: seq<T>)
    ensures x + y + z == x + (y + z)
  {
  }

  /** A non-empty sequence is its head followed by its tail. */
  lemma HeadTail<T>(s: seq<T>)
    requires |s| > 0
    ensures s == [s[0]] + s[1..]
  {
  }

  /** `split()` of a single token is that token alone. */
  lemma SplitOneToken(a: string)
    requires IsToken(a)
    ensures Split(JoinSpaced([a])) == [a]
  {
    assert JoinSpaced([a]) == a;
    calc {
      Split(a);
      { assert a + "" == a; }
      Split(a + "");
      { SplitAfterToken(a, ""); }
      [a] + Split("");
      { assert Split("") == []; }
      [a] + [];
      [a];
    }
  }

  /** One step of the round trip below: a leading token and separator come back as the first token. */
  lemma SplitJoinSpacedStep(ts: seq<string>)
    requires |ts| > 1 && IsToken(ts[0])
    requires Split(JoinSpaced(ts[1..])) == ts[1..]
    ensures Split(JoinSpaced(ts)) == ts
  {
    var tail := ts[1..];
    var rest := JoinSpaced(tail);
    var sep := " " + rest;
    assert JoinSpaced(ts) == ts[0] + sep by {
      var space: string := [' '];
      assert " " == space;
      assert ts[0] + space + rest == ts[0] + (space + rest);
    }
    assert Split(ts[0] + sep) == [ts[0]] + Split(sep) by {
      SplitAfterToken(ts[0], sep);
    }
    assert Split(sep) == tail by {
      SplitSkipsSpace(' ', rest);
    }
    HeadTail(ts);
  }

  /** Splitting a space-joined list of tokens gives the tokens back, in order. */
  lemma {:induction false} SplitJoinSpaced(ts: seq<string>)
    requires forall i :: 0 <= i < |ts| ==> IsToken(ts[i])
    ensures Split(JoinSpaced(ts)) == ts
    decreases |ts|
  {
    if |ts| == 1 {
      SplitOneToken(ts[0]);
      assert ts == [ts[0]];
    } else if |ts| > 1 {
      SplitJoinSpaced(ts[1..]);
      SplitJoinSpacedStep(ts);
    }
  }

  /**
   * `s` with the whitespace at both ends dropped and every inner run of
   * whitespace replaced by one space, read character by character: `emitted`
   * says whether a character has been kept yet, `gap` whether whitespace was
   * skipped since the last kept character.
   */
  function Squeeze(s: string, emitted: bool, gap: bool): string
    decreases |s|
  {
    if s == [] then ""
    else if IsSpace(s[0]) then Squeeze(s[1..], emitted, emitted)
    else (if gap then " " else "") + [s[0]] + Squeeze(s[1..], true, false)
  }

  /** The whitespace-normalised text of `s`. */
  function Collapse(s: string): string {
    Squeeze(s, false, false)
  }

  /** Leading whitespace is skipped by `Squeeze` between words. */
  lemma {:induction false} SqueezeSkipsSpace(s: string, e: bool)
    ensures Squeeze(s, e, e) == Squeeze(TrimStart(s), e, e)
    decreases |s|
  {
    if |s| > 0 && IsSpace(s[0]) {
      SqueezeSkipsSpace(s[1..], e);
    }
  }

  /** `Squeeze` copies a word, preceded by a space when one is pending. */
  lemma {:induction false} SqueezeWord(t: string, e: bool, g: bool)
    requires t != [] && !IsSpace(t[0])
    ensures Squeeze(t, e, g) == (if g then " " else "") + t[..WordEnd(t)] + Squeeze(t[WordEnd(t)..], true, false)
    decreases |t|
  {
    var n := WordEnd(t);
    var u := t[1..];
    var pre: string := if g then " " else "";
    assert Squeeze(t, e, g) == pre + [t[0]] + Squeeze(u, true, false);
    assert n == 1 + WordEnd(u);
    if u != [] && !IsSpace(u[0]) {
      var m := n - 1;
      var after := Squeeze(u[m..], true, false);
      SqueezeWord(u, true, false);
      assert Squeeze(u, true, false) == u[..m] + after;
      assert t[..n] == [t[0]] + u[..m];
      assert t[n..] == u[m..];
      Associative(pre + [t[0]], u[..m], after);
      Associative(pre, [t[0]], u[..m]);
    } else {
      assert t[..n] == [t[0]];
      assert t[n..] == u;
    }
  }

  /** Joining a token onto a list puts one space between it and the rest. */
  lemma JoinCons(a: string, rest: seq<string>)
    ensures JoinSpaced([a] + rest) == a + (if rest == [] then "" else " " + JoinSpaced(rest))
  {
    if rest != [] {
      assert ([a] + rest)[1..] == rest;
    }
  }

  /** Between words, `Squeeze` produces the space-joined tokens, after a space when a word precedes them. */
  lemma {:induction false} SqueezeSplit(s: string, e: bool)
    ensures Squeeze(s, e, e) == if Split(s) == [] then "" else (if e then " " else "") + JoinSpaced(Split(s))
    decreases |s|, 0
  {
    var t := TrimStart(s);
    SqueezeSkipsSpace(s, e);
    TrimStartEmpty(s);
    if t == [] {
      assert Split(s) == [];
      assert Squeeze(s, e, e) == "";
    } else {
      var n := WordEnd(t);
      var a, b := t[..n], t[n..];
      var pre: string := if e then " " else "";
      assert Split(s) != [];
      SqueezeWord(t, e, e);
      assert Squeeze(s, e, e) == pre + a + Squeeze(b, true, false);
      assert Split(s) == [a] + Split(b);
      SqueezeAfterWord(b);
      JoinCons(a, Split(b));
      if Split(b) == [] {
        assert Squeeze(s, e, e) == pre + a;
        assert JoinSpaced(Split(s)) == a;
      } else {
        var rest := " " + JoinSpaced(Split(b));
        assert Squeeze(s, e, e) == pre + a + rest;
        assert JoinSpaced(Split(s)) == a + rest;
        Associative(pre, a, rest);
      }
    }
  }

  /** What follows a word: nothing, or a space and the next words. */
  lemma {:induction false} SqueezeAfterWord(b: string)
    requires b == [] || IsSpace(b[0])
    ensures Squeeze(b, true, false) == if Split(b) == [] then "" else " " + JoinSpaced(Split(b))
    decreases |b|, 1
  {
    if b != [] {
      assert Squeeze(b, true, false) == Squeeze(b[1..], true, true);
      SqueezeSplit(b[1..], true);
      HeadTail(b);
      SplitSkipsSpace(b[0], b[1..]);
    }
  }

  /** `s.split()` joined by single spaces is the whitespace-normalised text of `s`. */
  lemma SplitCollapses(s: string)
    ensures JoinSpaced(Split(s)) == Collapse(s)
  {
    SqueezeSplit(s, false);
  }

  /**
   * `s.split()` is the one list of tokens whose single-space join is the
   * whitespace-normalised text of `s`.
   */
  lemma SplitMeaning(s: string, ts: seq<string>)
    ensures ts == Split(s) <==> (forall i :: 0 <= i < |ts| ==> IsToken(ts[i])) && JoinSpaced(ts) == Collapse(s)
  {
    SplitCollapses(s);
    SplitJoinSpaced(Split(s));
    if (forall i :: 0 <= i < |ts| ==> IsToken(ts[i])) && JoinSpaced(ts) == Collapse(s) {
      SplitJoinSpaced(ts);
    }
  }

  /** A space-joined list of tokens is already stripped. */
  lemma {:induction false} JoinSpacedStripped(ts: seq<string>)
    requires forall i :: 0 <= i < |ts| ==> IsToken(ts[i])
    ensures IsStripped(JoinSpaced(ts))
    ensures |ts| > 0 ==> |JoinSpaced(ts)| > 0
    decreases |ts|
  {
    if |ts| > 1 {
      JoinSpacedStripped(ts[1..]);
    }
  }

  /** ASCII lower-casing of one character, as `str.lower()` does for ASCII letters. */
  function LowerChar(c: char): (d: char)
    ensures 'A' <= c <= 'Z' ==> 'a' <= d <= 'z' && d as int == c as int + 32
    ensures !('A' <= c <= 'Z') ==> d == c
  {
    if 'A' <= c <= 'Z' then (c as int - 'A' as int + 'a' as int) as char else c
  }

  /** `s.lower()` (see README for the non-ASCII letters this leaves alone). */
  function Lower(s: string): (r: string)
    ensures |r| == |s|
    ensures forall i :: 0 <= i < |s| ==> r[i] == LowerChar(s[i])
  {
    seq(|s|, i requires 0 <= i < |s| => LowerChar(s[i]))
  }

  /** Lower-casing twice is lower-casing once. */
  lemma LowerIdempotent(s: string)
    ensures Lower(Lower(s)) == Lower(s)
  {
  }
}
