/**
 * The line rewrite that `update_flyway_config` applies to `flyway.conf`:
 * every line is stripped, and a line that starts with one of five setting
 * keys is replaced by that key followed by the configured value.
 */
module Flyway {
  import opened Text
  import opened Wrappers

  /**
   * The five values written into the file; the caller supplies them from the
   * settings. `baselineOnMigrate` is the `PERSISTENCE_MIGRATION_BASELINE`
   * setting, the one baseline flag the settings define.
   */
  datatype Settings = Settings(
    locations: string,
    url: string,
    user: string,
    password: string,
    baselineOnMigrate: bool)

  const LocationsKey: string := "flyway.locations="
  const UrlKey: string := "flyway.url="
  const UserKey: string := "flyway.user="
  const PasswordKey: string := "flyway.password="
  const BaselineKey: string := "flyway.baselineOnMigrate="

  /** The five keys, in the order the rewrite tests them. */
  const Keys: seq<string> := [LocationsKey, UrlKey, UserKey, PasswordKey, BaselineKey]

  /** `str(b).lower()` for a Python bool. */
  function BoolText(b: bool): (t: string)
    ensures t == "true" || t == "false"
    ensures b <==> t == "true"
  {
    if b then "true" else "false"
  }

  /** The value written after each key of `Keys`, position by position. */
  function Values(s: Settings): (vs: seq<string>)
    ensures |vs| == |Keys|
  {
    [s.locations, s.url, s.user, s.password, BoolText(s.baselineOnMigrate)]
  }

  /**
   * The if/elif chain of the loop body, from the `k`-th test on: the first key
   * that starts the stripped line, followed by its value, or else the line.
   */
  function ReplaceFrom(line: string, vs: seq<string>, k: nat): string
    requires |vs| == |Keys|
    decreases |Keys| - k
  {
    if k >= |Keys| then line
    else if StartsWith(line, Keys[k]) then Keys[k] + vs[k]
    else ReplaceFrom(line, vs, k + 1)
  }

  /** What one input line becomes. */
  function RewriteLine(raw: string, s: Settings): (out: string)
    ensures |out| > 0 && out[|out| - 1] == '\n'
  {
    var text := ReplaceFrom(Strip(raw), Values(s), 0);
    assert (text + "\n")[|text|] == '\n';
    text + "\n"
  }

  /** The chain picks the one key that starts the line. */
  lemma {:induction false} ReplaceFromKey(line: string, vs: seq<string>, j: nat, k: nat)
    requires |vs| == |Keys| && j <= k < |Keys| && StartsWith(line, Keys[k])
    requires forall i :: j <= i < |Keys| && i != k ==> !StartsWith(line, Keys[i])
    ensures ReplaceFrom(line, vs, j) == Keys[k] + vs[k]
    decreases k - j
  {
    if j < k {
      ReplaceFromKey(line, vs, j + 1, k);
    }
  }

  /** Without a key at its start the line is kept. */
  lemma {:induction false} ReplaceFromNone(line: string, vs: seq<string>, j: nat)
    requires |vs| == |Keys| && j <= |Keys|
    requires forall i :: j <= i < |Keys| ==> !StartsWith(line, Keys[i])
    ensures ReplaceFrom(line, vs, j) == line
    decreases |Keys| - j
  {
    if j < |Keys| {
      ReplaceFromNone(line, vs, j + 1);
    }
  }

  /** Two prefixes of one string: the shorter is a prefix of the longer. */
  lemma PrefixesNest(l: string, p: string, q: string)
    requires StartsWith(l, p) && StartsWith(l, q) && |p| <= |q|
    ensures StartsWith(q, p)
  {
    assert q[..|p|] == l[..|q|][..|p|] == l[..|p|];
  }

  /** No key is a prefix of another key. */
  lemma KeysPrefixFree(i: nat, j: nat)
    requires i < |Keys| && j < |Keys| && i != j
    ensures !StartsWith(Keys[j], Keys[i])
  {
    var p, q := Keys[i], Keys[j];
    if |p| <= |q| {
      // Each pair differs at a position inside the shorter key.
      var k := if p[7] != q[7] then 7 else if p[8] != q[8] then 8 else 9;
      assert p[k] != q[k];
      assert q[..|p|][k] == q[k];
    }
  }

  /** At most one of the five keys starts any given line. */
  lemma AtMostOneKey(line: string, i: nat, j: nat)
    requires i < |Keys| && j < |Keys|
    requires StartsWith(line, Keys[i]) && StartsWith(line, Keys[j])
    ensures i == j
  {
    if i != j {
      if |Keys[i]| <= |Keys[j]| {
        PrefixesNest(line, Keys[i], Keys[j]);
        KeysPrefixFree(i, j);
      } else {
        PrefixesNest(line, Keys[j], Keys[i]);
        KeysPrefixFree(j, i);
      }
    }
  }

  /** A line that starts with key k starts with no other key. */
  lemma OnlyKey(line: string, k: nat)
    requires k < |Keys| && StartsWith(line, Keys[k])
    ensures forall j :: 0 <= j < |Keys| && j != k ==> !StartsWith(line, Keys[j])
  {
    forall j | 0 <= j < |Keys| && j != k && StartsWith(line, Keys[j]) ensures false {
      AtMostOneKey(line, j, k);
    }
  }

  /** A line whose stripped text starts with key k becomes key k followed by its value. */
  lemma RewriteKeyLine(raw: string, s: Settings, k: nat)
    requires k < |Keys| && StartsWith(Strip(raw), Keys[k])
    ensures RewriteLine(raw, s) == Keys[k] + Values(s)[k] + "\n"
  {
    OnlyKey(Strip(raw), k);
    ReplaceFromKey(Strip(raw), Values(s), 0, k);
  }

  /** A line whose stripped text starts with no key becomes that stripped text. */
  lemma RewriteOtherLine(raw: string, s: Settings)
    requires forall j :: 0 <= j < |Keys| ==> !StartsWith(Strip(raw), Keys[j])
    ensures RewriteLine(raw, s) == Strip(raw) + "\n"
  {
    ReplaceFromNone(Strip(raw), Values(s), 0);
  }

  /** The text of a key line has the key at the start once it is stripped again. */
  lemma KeyLineRestrips(k: nat, v: string)
    requires k < |Keys|
    ensures StartsWith(Strip(Keys[k] + v + "\n"), Keys[k])
  {
    var p := Keys[k];
    assert IsToken(p) by {
      assert p[0] == 'f';
      assert forall i :: 0 <= i < |p| ==> !IsSpace(p[i]);
    }
    assert p + v + "\n" == p + (v + "\n");
    StripKeepsKey(p, v + "\n");
  }

  /** Rewriting a rewritten line changes nothing. */
  lemma RewriteLineIdempotent(raw: string, s: Settings)
    ensures RewriteLine(RewriteLine(raw, s), s) == RewriteLine(raw, s)
  {
    var line := Strip(raw);
    var out := RewriteLine(raw, s);
    if k :| 0 <= k < |Keys| && StartsWith(line, Keys[k]) {
      RewriteKeyLine(raw, s, k);
      KeyLineRestrips(k, Values(s)[k]);
      RewriteKeyLine(out, s, k);
    } else {
      RewriteOtherLine(raw, s);
      StripPadded(line, "\n");
      RewriteOtherLine(out, s);
    }
  }

  /** The updated file: one rewritten line per input line, in the same order. */
  function Rewritten(lines: seq<string>, s: Settings): (out: seq<string>)
    ensures |out| == |lines|
  {
    seq(|lines|, i requires 0 <= i < |lines| => RewriteLine(lines[i], s))
  }

  /** Rewriting the rewritten file again with the same settings gives the same file. */
  lemma RewrittenIdempotent(lines: seq<string>, s: Settings)
    ensures Rewritten(Rewritten(lines, s), s) == Rewritten(lines, s)
  {
    var once := Rewritten(lines, s);
    forall i | 0 <= i < |lines|
      ensures Rewritten(once, s)[i] == once[i]
    {
      RewriteLineIdempotent(lines[i], s);
    }
  }

  /** The loop of `update_flyway_config` that builds `updated_lines`. */
  method RewriteLines(lines: seq<string>, s: Settings) returns (updated: seq<string>)
    ensures updated == Rewritten(lines, s)
  {
    updated := [];
    ghost var target := Rewritten(lines, s);
    for i := 0 to |lines|
      invariant updated == target[..i]
    {
      PrefixStep(target, i);
      updated := updated + [RewriteLine(lines[i], s)];
    }
    assert target[..|lines|] == target;
  }

  /**
   * The observable outcome of the intended update: `False` with nothing
   * written when the file is missing, otherwise the lines written back, after
   * which the function returns `None`. As the source is written it raises
   * instead (`RunEnd`, `AsWrittenRun` below).
   */
  datatype Outcome = NotFound | Written(lines: seq<string>)

  /** `update_flyway_config` reading the baseline flag the settings define, with the file's lines (or its absence) given as input. */
  method UpdateFlywayConfig(file: Option<seq<string>>, s: Settings) returns (r: Outcome)
    ensures file.None? <==> r.NotFound?
    ensures file.Some? ==> r == Written(Rewritten(file.value, s))
  {
    if file.None? {
      return NotFound;
    }
    var updated := RewriteLines(file.value, s);
    return Written(updated);
  }

  /**
   * How the update ends as the source is written. It reads the baseline flag
   * under a name the settings do not define, and that read raises
   * `AttributeError`. It raises in the loop at the first line that starts with
   * the baseline key, before anything is written. Otherwise it raises in the
   * closing report, after the rewritten lines have been written.
   */
  datatype RunEnd = Missing | RaisedInLoop | RaisedAfterWrite(written: seq<string>)

  /** Some line of the file, once stripped, starts with the baseline key. */
  predicate HasBaselineLine(lines: seq<string>) {
    exists i | 0 <= i < |lines| :: StartsWith(Strip(lines[i]), BaselineKey)
  }

  /** The update as written: it never returns normally once the file exists. */
  function AsWrittenRun(file: Option<seq<string>>, s: Settings): (e: RunEnd)
    ensures file.None? <==> e.Missing?
    ensures file.Some? ==> (e.RaisedInLoop? <==> HasBaselineLine(file.value))
    ensures e.RaisedAfterWrite? ==> e.written == Rewritten(file.value, s)
  {
    if file.None? then Missing
    else if HasBaselineLine(file.value) then RaisedInLoop
    else RaisedAfterWrite(Rewritten(file.value, s))
  }

  /**
   * A file holding a baseline line: as written, the update raises before
   * writing anything, where the intended update writes the configured flag.
   */
  lemma BaselineLineAborts(s: Settings, v: string)
    ensures var file := [BaselineKey + v + "\n"];
      && AsWrittenRun(Some(file), s) == RaisedInLoop
      && Rewritten(file, s) == [BaselineKey + BoolText(s.baselineOnMigrate) + "\n"]
  {
    var line := Keys[4] + v + "\n";
    KeyLineRestrips(4, v);
    assert HasBaselineLine([line]) by {
      assert [line][0] == line;
    }
    RewriteKeyLine(line, s, 4);
  }
}
