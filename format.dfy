/** `intoLogFormat` and the first-occurrence `String.prototype.replace` it is built from. */
module Format {
  import opened Options
  import opened LogTypes

  /** `pat` occurs in `s` at index `k`. */
  predicate OccursAt(s: string, pat: string, k: nat) {
    k + |pat| <= |s| && s[k..k + |pat|] == pat
  }

  /** `k` is the first index at which `pat` occurs in `s`. */
  predicate IsFirstOccurrence(s: string, pat: string, k: nat) {
    OccursAt(s, pat, k) && forall j: nat :: j < k ==> !OccursAt(s, pat, j)
  }

  ghost predicate Contains(s: string, pat: string) {
    exists k: nat :: OccursAt(s, pat, k)
  }

  /** `s.indexOf(pat, from)`, with `None` for -1. */
  function IndexOf(s: string, pat: string, from: nat): (r: Option<nat>)
    decreases |s| - from
    ensures r.Some? ==> from <= r.value && r.value + |pat| <= |s|
  {
    if from + |pat| > |s| then None
    else if s[from..from + |pat|] == pat then Some(from)
    else IndexOf(s, pat, from + 1)
  }

  /**
   * `indexOf` finds the first occurrence at or after `from`, and reports none only when
   * there is none.
   */
  lemma {:induction false} IndexOfFinds(s: string, pat: string, from: nat)
    decreases |s| - from
    ensures IndexOf(s, pat, from).Some? ==>
      var k := IndexOf(s, pat, from).value;
      from <= k && OccursAt(s, pat, k) && forall j: nat :: from <= j < k ==> !OccursAt(s, pat, j)
    ensures IndexOf(s, pat, from).None? ==> forall j: nat :: from <= j ==> !OccursAt(s, pat, j)
  {
    if from + |pat| <= |s| && s[from..from + |pat|] != pat {
      IndexOfFinds(s, pat, from + 1);
    }
  }

  /**
   * The text that replaces a match of a string pattern (ECMAScript GetSubstitution with
   * no capture groups): `$$` is `$`, `$&` the match, `` $` `` the text before it, `$'`
   * the text after it; any other `$` stands for itself.
   */
  function Substitution(matched: string, str: string, position: nat, rep: string): string
    requires position + |matched| <= |str|
    decreases |rep|
  {
    if rep == [] then []
    else if rep[0] == '$' && |rep| >= 2 && rep[1] == '$' then
      "$" + Substitution(matched, str, position, rep[2..])
    else if rep[0] == '$' && |rep| >= 2 && rep[1] == '&' then
      matched + Substitution(matched, str, position, rep[2..])
    else if rep[0] == '$' && |rep| >= 2 && rep[1] == '`' then
      str[..position] + Substitution(matched, str, position, rep[2..])
    else if rep[0] == '$' && |rep| >= 2 && rep[1] == '\'' then
      str[position + |matched|..] + Substitution(matched, str, position, rep[2..])
    else
      [rep[0]] + Substitution(matched, str, position, rep[1..])
  }

  /** A replacement string without `$` is inserted verbatim. */
  lemma {:induction false} SubstitutionVerbatim(matched: string, str: string, position: nat, rep: string)
    requires position + |matched| <= |str|
    requires '$' !in rep
    ensures Substitution(matched, str, position, rep) == rep
    decreases |rep|
  {
    if rep != [] {
      SubstitutionVerbatim(matched, str, position, rep[1..]);
    }
  }

  /** `s.replace(pat, rep)` for a string `pat`: only the first occurrence is replaced. */
  function Replace(s: string, pat: string, rep: string): string {
    match IndexOf(s, pat, 0)
    case None => s
    case Some(k) => s[..k] + Substitution(pat, s, k, rep) + s[k + |pat|..]
  }

  /**
   * A string without the pattern is unchanged; otherwise the first occurrence is
   * replaced and the text around it is kept.
   */
  lemma ReplaceFirst(s: string, pat: string, rep: string)
    ensures !Contains(s, pat) ==> Replace(s, pat, rep) == s
    ensures forall k: nat :: IsFirstOccurrence(s, pat, k) ==>
      Replace(s, pat, rep) == s[..k] + Substitution(pat, s, k, rep) + s[k + |pat|..]
  {
    IndexOfFinds(s, pat, 0);
    match IndexOf(s, pat, 0)
    case None =>
    case Some(k) =>
      forall k': nat | IsFirstOccurrence(s, pat, k') ensures k' == k {
      }
  }

  /** `intoLogFormat`: replace `LEVEL`, then `TIMESTAMP`, then `MESSAGE`, each once. */
  function IntoLogFormat(format: string, level: Level, timestamp: string, message: string): string {
    Replace(Replace(Replace(format, "LEVEL", Name(level)), "TIMESTAMP", timestamp), "MESSAGE", message)
  }

  /** If `pat` is not found earlier, its occurrence right after `a` is the first. */
  lemma FirstOccurrenceAfter(a: string, pat: string, b: string)
    requires |pat| > 0 && !Contains(a + pat[..|pat| - 1], pat)
    ensures IsFirstOccurrence(a + pat + b, pat, |a|)
  {
    var s := a + pat + b;
    var c := a + pat[..|pat| - 1];
    var rest := pat[|pat| - 1..] + b;
    assert pat == pat[..|pat| - 1] + pat[|pat| - 1..];
    assert s == c + rest;
    assert s[|a|..|a| + |pat|] == pat;
    forall j: nat | j < |a| ensures !OccursAt(s, pat, j) {
      if j + |pat| <= |s| {
        PrefixSlice(c, rest, j, j + |pat|);
        assert !OccursAt(c, pat, j);
      }
    }
  }

  /** A slice that ends inside `x` is the same slice of `x`. */
  lemma PrefixSlice(x: string, y: string, i: nat, j: nat)
    requires i <= j <= |x|
    ensures (x + y)[i..j] == x[i..j]
  {
  }

  /** No occurrence can start in `x` when `x` lacks the first character of `pat`. */
  lemma NotContainsStart(x: string, y: string, pat: string)
    requires |pat| > 0 && pat[0] !in x && !Contains(y, pat)
    ensures !Contains(x + y, pat)
  {
    var s := x + y;
    forall k: nat ensures !OccursAt(s, pat, k) {
      if k + |pat| <= |s| {
        if k < |x| {
          assert s[k..k + |pat|][0] == x[k];
        } else {
          assert s[k..k + |pat|] == y[k - |x|..k - |x| + |pat|];
          assert !OccursAt(y, pat, k - |x|);
        }
      }
    }
  }

  /** No occurrence can straddle `x` and `y` when `y` starts with a character not in `pat`. */
  lemma NotContainsJoin(x: string, y: string, pat: string)
    requires !Contains(x, pat) && !Contains(y, pat) && y != [] && y[0] !in pat
    ensures !Contains(x + y, pat)
  {
    var s := x + y;
    forall k: nat ensures !OccursAt(s, pat, k) {
      if k + |pat| <= |s| {
        if k + |pat| <= |x| {
          assert s[k..k + |pat|] == x[k..k + |pat|];
          assert !OccursAt(x, pat, k);
        } else if k >= |x| {
          assert s[k..k + |pat|] == y[k - |x|..k - |x| + |pat|];
          assert !OccursAt(y, pat, k - |x|);
        } else {
          assert s[k..k + |pat|][|x| - k] == y[0];
        }
      }
    }
  }

  /** Replacing the first occurrence of `pat` found right after `a`. */
  lemma ReplaceAfter(a: string, pat: string, b: string, rep: string)
    requires |pat| > 0 && !Contains(a + pat[..|pat| - 1], pat) && '$' !in rep
    ensures Replace(a + pat + b, pat, rep) == a + rep + b
  {
    var s := a + pat + b;
    FirstOccurrenceAfter(a, pat, b);
    ReplaceFirst(s, pat, rep);
    SubstitutionVerbatim(pat, s, |a|, rep);
    assert s[..|a|] == a && s[|a| + |pat|..] == b;
  }

  /** The level names contain none of the characters the proofs below rely on being absent. */
  lemma NameCharacters(level: Level)
    ensures '$' !in Name(level) && 'T' !in Name(level) && 'M' !in Name(level)
  {
    match level
    case _ =>
  }

  /**
   * Rendering a template `a + "LEVEL" + b + "TIMESTAMP" + c + "MESSAGE" + d` in which each
   * token's occurrence shown is the first one at the time it is replaced: every token is
   * replaced once, in that order, and every other character is kept.
   */
  lemma {:induction false} RenderTemplate(a: string, b: string, c: string, d: string,
                                          level: Level, timestamp: string, message: string)
    requires '$' !in Name(level) && '$' !in timestamp && '$' !in message
    requires !Contains(a + "LEVE", "LEVEL")
    requires !Contains(a + Name(level) + b + "TIMESTAM", "TIMESTAMP")
    requires !Contains(a + Name(level) + b + timestamp + c + "MESSAG", "MESSAGE")
    ensures IntoLogFormat(a + "LEVEL" + b + "TIMESTAMP" + c + "MESSAGE" + d, level, timestamp, message)
         == a + Name(level) + b + timestamp + c + message + d
  {
    var name := Name(level);
    var t1 := a + name + b + "TIMESTAMP" + c + "MESSAGE" + d;
    var t2 := a + name + b + timestamp + c + "MESSAGE" + d;
    assert "LEVEL"[..4] == "LEVE";
    ReplaceToken(a, "LEVEL", b + "TIMESTAMP" + c + "MESSAGE" + d, name);
    assert "TIMESTAMP"[..8] == "TIMESTAM";
    ReplaceToken(a + name + b, "TIMESTAMP", c + "MESSAGE" + d, timestamp);
    assert "MESSAGE"[..6] == "MESSAG";
    ReplaceToken(a + name + b + timestamp + c, "MESSAGE", d, message);
    Regroup(a, "LEVEL", b, "TIMESTAMP", c, "MESSAGE", d);
    Regroup(a, name, b, "TIMESTAMP", c, "MESSAGE", d);
    Regroup(a, name, b, timestamp, c, "MESSAGE", d);
    Regroup(a, name, b, timestamp, c, message, d);
  }

  /** `ReplaceAfter` for a token given whole, with its last character split off. */
  lemma ReplaceToken(a: string, token: string, b: string, rep: string)
    requires |token| > 0 && !Contains(a + token[..|token| - 1], token) && '$' !in rep
    ensures Replace(a + token + b, token, rep) == a + rep + b
  {
    ReplaceAfter(a, token, b, rep);
  }

  /** The groupings of a seven-part concatenation the rendering proof moves between. */
  lemma Regroup(a: string, x: string, b: string, y: string, c: string, z: string, d: string)
    ensures a + x + b + y + c + z + d == a + x + (b + y + c + z + d)
    ensures a + x + b + y + c + z + d == (a + x + b) + y + (c + z + d)
    ensures a + x + b + y + c + z + d == (a + x + b + y + c) + z + d
  {
  }

  /**
   * The default template `"[LEVEL]: TIMESTAMP - MESSAGE"` renders as
   * `"[" + level + "]: " + timestamp + " - " + message`, provided the inserted
   * texts hold no `$` pattern and the timestamp does not itself contain `MESSAGE`.
   * (The template is a parameter so that the verifier does not evaluate the search on
   * the literal.)
   */
  lemma RenderDefaultTemplate(format: string, level: Level, timestamp: string, message: string)
    requires format == DEFAULT_LOG_SETTINGS.format
    requires '$' !in timestamp && '$' !in message && !Contains(timestamp, "MESSAGE")
    ensures IntoLogFormat(format, level, timestamp, message)
         == "[" + Name(level) + "]: " + timestamp + " - " + message
  {
    NameCharacters(level);
    DefaultTemplateTokensFirst(Name(level), timestamp);
    assert format == "[" + "LEVEL" + "]: " + "TIMESTAMP" + " - " + "MESSAGE" + [];
    RenderTemplate("[", "]: ", " - ", [], level, timestamp, message);
    assert "[" + Name(level) + "]: " + timestamp + " - " + message + [] ==
           "[" + Name(level) + "]: " + timestamp + " - " + message;
  }

  /** In the default template each token is found first where the template has it. */
  lemma DefaultTemplateTokensFirst(name: string, timestamp: string)
    requires 'T' !in name && 'M' !in name && !Contains(timestamp, "MESSAGE")
    ensures !Contains("[" + "LEVE", "LEVEL")
    ensures !Contains("[" + name + "]: " + "TIMESTAM", "TIMESTAMP")
    ensures !Contains("[" + name + "]: " + timestamp + " - " + "MESSAG", "MESSAGE")
  {
    NotContainsStart("[", "LEVE", "LEVEL");
    NotContainsStart("[" + name + "]: ", "TIMESTAM", "TIMESTAMP");
    NotContainsStart(" - ", "MESSAG", "MESSAGE");
    NotContainsJoin(timestamp, " - MESSAG", "MESSAGE");
    NotContainsStart("[" + name + "]: ", timestamp + " - MESSAG", "MESSAGE");
    assert "[" + name + "]: " + timestamp + " - " + "MESSAG" == "[" + name + "]: " + (timestamp + " - MESSAG");
  }
}
