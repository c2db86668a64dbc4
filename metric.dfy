/** exporter/vmonitorexporter/metric.go: the record that travels through the
    exporter, and the name and value sanitizers.

    In this module a `string` is the byte sequence of a Go string, one `char`
    per byte: Go's `len`, `str[:n]` and the regexes' character classes work on
    bytes here, and every byte outside ASCII is outside every class. */
module Metric {
  import opened Common

  /** `Metric`: name, dimensions, value, timestamp in milliseconds, value meta.
      Every writer of `Dimensions` in the exporter stores strings. */
  datatype Record = Record(
    name: string,
    dimensions: map<string, string>,
    value: real,
    timestamp: int,
    valueMeta: map<string, string>)

  /** `NewMetric`: empty name, empty dimensions and value meta, zero value. */
  function NewMetric(): (r: Record)
    ensures r.name == [] && r.dimensions == map[] && r.valueMeta == map[]
    ensures r.value == 0.0 && r.timestamp == 0
  {
    Record([], map[], 0.0, 0, map[])
  }

  /** `SanitizeMetricName`, `SanitizeDimensionName` and
      `SanitizeDimensionValue` are not part of this model: their string
      results are parameters wherever they are called. */
  datatype Sanitizers = Sanitizers(
    metricName: string -> string,
    dimensionName: string -> string,
    dimensionValue: string -> string)

  // ---------------------------------------------------------------------
  // Character classes of the regexes

  /** The first character of a name: a letter or '_'. */
  predicate Lead(c: char)
  {
    'a' <= c <= 'z' || 'A' <= c <= 'Z' || c == '_'
  }

  predicate Digit(c: char)
  {
    '0' <= c <= '9'
  }

  /** The two name regexes: the metric name allows '/', the dimension name
      does not. */
  datatype Pattern = MetricName | DimensionName

  /** A character allowed after the first one. For `MetricName` this is also
      the whitelist class that the blacklist regex complements. */
  predicate Body(p: Pattern, c: char)
  {
    Lead(c) || Digit(c) || c == '-' || c == '.' || (p.MetricName? && c == '/')
  }

  /** `f.MatchString(str)` for the anchored pattern `p`. */
  predicate Matches(p: Pattern, s: string)
  {
    |s| >= 1 && Lead(s[0]) && forall i | 1 <= i < |s| :: Body(p, s[i])
  }

  // ---------------------------------------------------------------------
  // `ReplaceAllString(str, "_")` with the blacklist `[^keep]+`

  /** Drop the leading characters outside `keep`. */
  function SkipRun(s: string, keep: Pattern): (r: string)
    ensures |r| <= |s|
  {
    if s == [] || Body(keep, s[0]) then s else SkipRun(s[1..], keep)
  }

  /** What is left after a run is a suffix that starts, if at all, with an
      allowed character. */
  lemma {:induction false} SkipRunSuffix(s: string, keep: Pattern)
    ensures var r := SkipRun(s, keep);
            r == s[|s| - |r|..] && (r == [] || Body(keep, r[0]))
            && forall i | 0 <= i < |s| - |r| :: !Body(keep, s[i])
  {
    if s != [] && !Body(keep, s[0]) {
      SkipRunSuffix(s[1..], keep);
    }
  }

  /** Every maximal run of characters outside `keep` becomes one "_"; the
      other characters stay in place. */
  function Collapse(s: string, keep: Pattern): string
    decreases |s|
  {
    if s == [] then []
    else if Body(keep, s[0]) then [s[0]] + Collapse(s[1..], keep)
    else "_" + Collapse(SkipRun(s[1..], keep), keep)
  }

  /** The result is no longer than the input, holds only allowed
      characters, is empty only for the empty input, and keeps an allowed
      first character. */
  lemma {:induction false} CollapseShape(s: string, keep: Pattern)
    ensures var r := Collapse(s, keep);
            |r| <= |s|
            && (forall i | 0 <= i < |r| :: Body(keep, r[i]))
            && (s != [] ==> r != [] && (Body(keep, s[0]) ==> r[0] == s[0]))
    decreases |s|
  {
    if s != [] {
      if Body(keep, s[0]) {
        CollapseShape(s[1..], keep);
      } else {
        CollapseShape(SkipRun(s[1..], keep), keep);
      }
    }
  }

  /** A string of allowed characters is left as it is, so collapsing twice
      is collapsing once. */
  lemma {:induction false} CollapseClean(s: string, keep: Pattern)
    requires forall i | 0 <= i < |s| :: Body(keep, s[i])
    ensures Collapse(s, keep) == s
    decreases |s|
  {
    if s != [] {
      CollapseClean(s[1..], keep);
    }
  }

  lemma CollapseIdempotent(s: string, keep: Pattern)
    ensures Collapse(Collapse(s, keep), keep) == Collapse(s, keep)
  {
    CollapseShape(s, keep);
    CollapseClean(Collapse(s, keep), keep);
  }

  /** Allowed characters in front are copied. */
  lemma {:induction false} CollapseCleanPrefix(a: string, b: string, keep: Pattern)
    requires forall i | 0 <= i < |a| :: Body(keep, a[i])
    ensures Collapse(a + b, keep) == a + Collapse(b, keep)
    decreases |a|
  {
    if a != [] {
      assert (a + b)[1..] == a[1..] + b;
      assert a == [a[0]] + a[1..] && (a + b)[0] == a[0];
      CollapseCleanPrefix(a[1..], b, keep);
    } else {
      assert a + b == b;
    }
  }

  lemma {:induction false} SkipRunPrefix(a: string, b: string, keep: Pattern)
    requires forall i | 0 <= i < |a| :: !Body(keep, a[i])
    requires b == [] || Body(keep, b[0])
    ensures SkipRun(a + b, keep) == b
    decreases |a|
  {
    if a != [] {
      assert (a + b)[1..] == a[1..] + b;
      SkipRunPrefix(a[1..], b, keep);
    } else {
      assert a + b == b;
    }
  }

  /** A whole run of refused characters in front becomes one "_". */
  lemma CollapseRunPrefix(a: string, b: string, keep: Pattern)
    requires a != [] && forall i | 0 <= i < |a| :: !Body(keep, a[i])
    requires b == [] || Body(keep, b[0])
    ensures Collapse(a + b, keep) == "_" + Collapse(b, keep)
  {
    assert (a + b)[1..] == a[1..] + b;
    SkipRunPrefix(a[1..], b, keep);
  }

  /** A trailing run of refused characters after allowed ones becomes one
      "_". */
  lemma CollapseTrailingRun(a: string, r: string, keep: Pattern)
    requires forall i | 0 <= i < |a| :: Body(keep, a[i])
    requires r != [] && forall i | 0 <= i < |r| :: !Body(keep, r[i])
    ensures Collapse(a + r, keep) == a + "_"
  {
    CollapseCleanPrefix(a, r, keep);
    assert r + [] == r;
    CollapseRunPrefix(r, [], keep);
  }

  /** Two blacklisted characters in a row give one "_", and '/' is kept by
      the metric-name whitelist. */
  lemma CollapseExamples()
    ensures Collapse("cpu<<", MetricName) == "cpu_"
    ensures Collapse("a/b", MetricName) == "a/b"
    ensures Collapse("/b", DimensionName) == "_b"
  {
    assert Collapse("cpu<<", MetricName) == "cpu_" by {
      assert "cpu<<" == "cpu" + "<<";
      CollapseTrailingRun("cpu", "<<", MetricName);
    }
    assert Collapse("a/b", MetricName) == "a/b" by {
      CollapseClean("a/b", MetricName);
    }
    assert Collapse("/b", DimensionName) == "_b" by {
      assert "/b" == "/" + "b";
      CollapseRunPrefix("/", "b", DimensionName);
      CollapseClean("b", DimensionName);
    }
  }

  /** Runs of spaces and '*' collapse: "select * from db" becomes
      "select_from_db" (written with its words as parameters). */
  lemma CollapseSelectExample(s: string, sel: string, from: string, db: string)
    requires sel == "select" && from == "from" && db == "db"
    requires s == sel + " * " + from + " " + db
    ensures Collapse(s, MetricName) == "select_from_db"
  {
    var k := MetricName;
    var tail := from + (" " + db);
    assert s == sel + (" * " + tail);
    assert Collapse(" " + db, k) == "_" + db by {
      CollapseClean(db, k);
      CollapseRunPrefix(" ", db, k);
    }
    assert Collapse(tail, k) == from + ("_" + db) by {
      CollapseCleanPrefix(from, " " + db, k);
    }
    assert Collapse(" * " + tail, k) == "_" + (from + ("_" + db)) by {
      CollapseRunPrefix(" * ", tail, k);
    }
    assert Collapse(s, k) == sel + ("_" + (from + ("_" + db))) by {
      CollapseCleanPrefix(sel, " * " + tail, k);
    }
  }

  // ---------------------------------------------------------------------
  // `valid` and `validDimensionValue`

  /** `str[:n]` when the string is longer than n. */
  function Truncate(s: string, n: nat): (r: string)
    ensures |r| == Min(|s|, n) && r == s[..|r|]
  {
    if |s| > n then s[..n] else s
  }

  /** `valid(str, f)` with `MinCharMetricName` and `MaxCharMetricName` given
      as `minChars` and `maxChars`: a short string is refused unchanged;
      otherwise the string is truncated, returned as it is if it matches,
      and else gets "_" for a first character the pattern refuses and has
      its blacklisted runs collapsed. The blacklist is the metric name's
      whitelist whatever the pattern. */
  function ValidName(str: string, p: Pattern, minChars: nat, maxChars: nat): (string, bool)
    requires minChars >= 1 && maxChars >= 1
  {
    if |str| < minChars then (str, false)
    else
      var t := Truncate(str, maxChars);
      if Matches(p, t) then (t, true)
      else
        var u := if !Lead(t[0]) then "_" + t[1..] else t;
        (Collapse(u, MetricName), true)
  }

  /** The same with the blacklist taken from the pattern itself. */
  function ValidFor(str: string, p: Pattern, minChars: nat, maxChars: nat): (string, bool)
    requires minChars >= 1 && maxChars >= 1
  {
    if |str| < minChars then (str, false)
    else
      var t := Truncate(str, maxChars);
      if Matches(p, t) then (t, true)
      else
        var u := if !Lead(t[0]) then "_" + t[1..] else t;
        (Collapse(u, p), true)
  }

  /** A string shorter than the minimum is refused and returned unchanged;
      every other string is accepted, and the result is never longer than
      the maximum. */
  lemma ValidBounds(str: string, p: Pattern, minChars: nat, maxChars: nat)
    requires minChars >= 1 && maxChars >= 1
    ensures var (r, ok) := ValidName(str, p, minChars, maxChars);
            (!ok <==> |str| < minChars)
            && (!ok ==> r == str)
            && (ok ==> 1 <= |r| <= maxChars)
  {
    if |str| >= minChars {
      var t := Truncate(str, maxChars);
      CollapseShape(if !Lead(t[0]) then "_" + t[1..] else t, MetricName);
    }
  }

  /** A string that matches after truncation comes back as the truncated
      string. */
  lemma ValidKeepsMatching(str: string, p: Pattern, minChars: nat, maxChars: nat)
    requires minChars >= 1 && maxChars >= 1 && |str| >= minChars
    requires Matches(p, Truncate(str, maxChars))
    ensures ValidName(str, p, minChars, maxChars) == (Truncate(str, maxChars), true)
  {
  }

  /** Every accepted result of the corrected sanitizer matches its pattern. */
  lemma ValidForMatches(str: string, p: Pattern, minChars: nat, maxChars: nat)
    requires minChars >= 1 && maxChars >= 1
    ensures var (r, ok) := ValidFor(str, p, minChars, maxChars);
            ok ==> Matches(p, r)
  {
    if |str| >= minChars {
      var t := Truncate(str, maxChars);
      CollapseShape(if !Lead(t[0]) then "_" + t[1..] else t, p);
    }
  }

  /** For metric names the two agree, so every accepted metric name
      matches `IsMetricName`. */
  lemma ValidMetricName(str: string, minChars: nat, maxChars: nat)
    requires minChars >= 1 && maxChars >= 1
    ensures ValidName(str, MetricName, minChars, maxChars) == ValidFor(str, MetricName, minChars, maxChars)
    ensures var (r, ok) := ValidName(str, MetricName, minChars, maxChars);
            ok ==> Matches(MetricName, r)
  {
    ValidForMatches(str, MetricName, minChars, maxChars);
  }

  /** For dimension names '/' survives the metric-name blacklist, so an
      accepted result need not match `IsDimensionName`. */
  lemma DimensionNameSlashSurvives(minChars: nat, maxChars: nat)
    requires 1 <= minChars <= 3 && maxChars >= 3
    ensures ValidName("a/b", DimensionName, minChars, maxChars) == ("a/b", true)
    ensures !Matches(DimensionName, "a/b")
    ensures ValidFor("a/b", DimensionName, minChars, maxChars) == ("a_b", true)
  {
    assert !Matches(DimensionName, "a/b") by { assert !Body(DimensionName, "a/b"[1]); }
    CollapseExamples();
    assert "a/b"[1..] == "/b";
    assert Collapse("a/b", DimensionName) == "a_b";
  }

  /** A string within the bounds that does not match is rewritten. */
  lemma ValidRewrites(str: string, p: Pattern, minChars: nat, maxChars: nat)
    requires 1 <= minChars <= |str| <= maxChars && !Matches(p, str)
    ensures ValidName(str, p, minChars, maxChars)
            == (Collapse(if Lead(str[0]) then str else "_" + str[1..], MetricName), true)
  {
    assert Truncate(str, maxChars) == str;
  }

  /** A name of allowed characters followed by one run of blacklisted
      ones comes back with the run replaced by a single "_". */
  lemma ValidTrailingRun(a: string, r: string, p: Pattern, minChars: nat, maxChars: nat)
    requires a != [] && Lead(a[0]) && forall i | 0 <= i < |a| :: Body(MetricName, a[i])
    requires r != [] && !Body(p, r[0]) && forall i | 0 <= i < |r| :: !Body(MetricName, r[i])
    requires 1 <= minChars <= |a + r| <= maxChars
    ensures ValidName(a + r, p, minChars, maxChars) == (a + "_", true)
  {
    CollapseTrailingRun(a, r, MetricName);
    assert (a + r)[0] == a[0] && (a + r)[|a|] == r[0];
    ValidRewritesLead(a + r, p, minChars, maxChars, |a|);
  }

  /** The exporter's name test, trailing characters: each blacklisted run
      at the end or inside becomes one "_" (any minimum up to 4, any
      maximum of at least 16). */
  lemma ValidTrailingExamples(minChars: nat, maxChars: nat)
    requires 1 <= minChars <= 4 && maxChars >= 16
    ensures ValidName("cpu<", MetricName, minChars, maxChars) == ("cpu_", true)
    ensures ValidName("cpu<<", MetricName, minChars, maxChars) == ("cpu_", true)
    ensures ValidName("cpu<a<", MetricName, minChars, maxChars) == ("cpu_a_", true)
  {
    assert "cpu" + "_" == "cpu_";
    assert ValidName("cpu<", MetricName, minChars, maxChars) == ("cpu_", true) by {
      assert "cpu<" == "cpu" + "<";
      ValidTrailingRun("cpu", "<", MetricName, minChars, maxChars);
    }
    assert ValidName("cpu<<", MetricName, minChars, maxChars) == ("cpu_", true) by {
      assert "cpu<<" == "cpu" + "<<";
      ValidTrailingRun("cpu", "<<", MetricName, minChars, maxChars);
    }
    assert ValidName("cpu<a<", MetricName, minChars, maxChars) == ("cpu_a_", true) by {
      ValidInnerRun(minChars, maxChars);
    }
  }

  lemma ValidInnerRun(minChars: nat, maxChars: nat)
    requires 1 <= minChars <= 4 && maxChars >= 16
    ensures ValidName("cpu<a<", MetricName, minChars, maxChars) == ("cpu_a_", true)
  {
    assert "cpu<a<" == "cpu" + "<a<" && "<a<" == "<" + "a<" && "a<" == "a" + "<";
    assert Collapse("cpu<a<", MetricName) == "cpu_a_" by {
      CollapseTrailingRun("a", "<", MetricName);
      CollapseRunPrefix("<", "a<", MetricName);
      CollapseCleanPrefix("cpu", "<a<", MetricName);
      assert "cpu" + ("_" + ("a" + "_")) == "cpu_a_";
    }
    ValidRewritesLead("cpu<a<", MetricName, minChars, maxChars, 3);
  }

  /** A string within the bounds with an allowed first character and a
      refused one at `k` is collapsed as it is. */
  lemma ValidRewritesLead(str: string, p: Pattern, minChars: nat, maxChars: nat, k: nat)
    requires 1 <= minChars <= |str| <= maxChars && 1 <= k < |str| && Lead(str[0]) && !Body(p, str[k])
    ensures ValidName(str, p, minChars, maxChars) == (Collapse(str, MetricName), true)
  {
    ValidRewrites(str, p, minChars, maxChars);
  }

  /** The exporter's name test, leading characters: a digit, '-', '.' or a
      blacklisted character in front becomes "_". */
  lemma ValidLeadingExamples(minChars: nat, maxChars: nat)
    requires 1 <= minChars <= 4 && maxChars >= 16
    ensures ValidName("<cpu<", MetricName, minChars, maxChars) == ("_cpu_", true)
    ensures ValidName("0cpu", MetricName, minChars, maxChars) == ("_cpu", true)
    ensures ValidName("5cpu", MetricName, minChars, maxChars) == ("_cpu", true)
    ensures ValidName("-cpu", MetricName, minChars, maxChars) == ("_cpu", true)
    ensures ValidName(".cpu", MetricName, minChars, maxChars) == ("_cpu", true)
  {
    assert "_" + "<cpu<"[1..] == "_cpu<";
    assert "_" + "0cpu"[1..] == "_cpu";
    assert "_" + "5cpu"[1..] == "_cpu";
    assert "_" + "-cpu"[1..] == "_cpu";
    assert "_" + ".cpu"[1..] == "_cpu";
    CollapseClean("_cpu", MetricName);
    assert "_cpu<" == "_cpu" + "<";
    CollapseCleanPrefix("_cpu", "<", MetricName);
    assert Collapse("<", MetricName) == "_";
    assert Collapse("_cpu<", MetricName) == "_cpu_";
    ValidRewrites("<cpu<", MetricName, minChars, maxChars);
    assert !Lead("<cpu<"[0]);
  }

  /** "select * from db" comes back as "select_from_db". */
  lemma ValidSelectExample(s: string, sel: string, from: string, db: string, minChars: nat, maxChars: nat)
    requires sel == "select" && from == "from" && db == "db"
    requires s == sel + " * " + from + " " + db
    requires 1 <= minChars <= 16 && maxChars >= 16
    ensures ValidName(s, MetricName, minChars, maxChars) == ("select_from_db", true)
  {
    assert |s| == 16 && s[6] == ' ';
    assert !Matches(MetricName, s) by { assert !Body(MetricName, s[6]); }
    CollapseSelectExample(s, sel, from, db);
  }

  /** `validDimensionValue(str)` with `MaxCharMetricName` as `maxChars`:
      truncate, then collapse blacklisted runs; the first character gets no
      special treatment. */
  function ValidDimensionValue(str: string, maxChars: nat): string
  {
    Collapse(Truncate(str, maxChars), MetricName)
  }

  /** The result is no longer than the maximum, holds only whitelisted
      characters, is non-empty for a non-empty input when the maximum is
      positive, and sanitizing it again changes nothing. */
  lemma ValidDimensionValueProperties(str: string, maxChars: nat)
    ensures var r := ValidDimensionValue(str, maxChars);
            |r| <= maxChars
            && (forall i | 0 <= i < |r| :: Body(MetricName, r[i]))
            && (str != [] && maxChars >= 1 ==> r != [])
            && ValidDimensionValue(r, maxChars) == r
  {
    var r := ValidDimensionValue(str, maxChars);
    CollapseShape(Truncate(str, maxChars), MetricName);
    CollapseClean(r, MetricName);
  }

  /** Unlike a name, a value may start with a digit. */
  lemma ValidDimensionValueExample(maxChars: nat)
    requires maxChars >= 4
    ensures ValidDimensionValue("0cpu", maxChars) == "0cpu"
    ensures ValidDimensionValue("cpu<<", maxChars) == "cpu_"
  {
    assert ValidDimensionValue("0cpu", maxChars) == "0cpu" by {
      CollapseClean("0cpu", MetricName);
    }
    assert ValidDimensionValue("cpu<<", maxChars) == "cpu_" by {
      var t := Truncate("cpu<<", maxChars);
      assert t == "cpu" + t[3..];
      assert t[3..] == "<" || t[3..] == "<<";
      CollapseTrailingRun("cpu", t[3..], MetricName);
    }
  }
}
