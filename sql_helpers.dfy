/** receiver/sqlqueryreceiver/logs_receiver.go: the pure helpers the
    receiver applies to sampled queries and EXPLAIN results.

    `refactorQuery` replaces every `'` by `"`, removes every comment that
    opens with slash-star and closes with star-slash before the next
    newline (leftmost and shortest match first), trims surrounding white
    space, and reports whether
    the query may be explained: not when it starts, in any letter case, with
    one of eight statement keywords.

    `refactorExplainResult` blanks the value of every
    `"attached_condition": "…"` pair (the regular expression
    `"attached_condition": ".*?"`).

    `hashTo16Bytes` is the first 16 lower-case hex digits of the SHA-256
    digest of its input; the digest itself is the parameter `sha256`. */
module SqlHelpers {
  import opened Common

  // ---------------------------------------------------------------------
  // refactorQuery

  /** `strings.ReplaceAll(query, "'", "\"")`. */
  function ReplaceQuotes(s: string): (r: string)
    ensures |r| == |s|
    ensures forall i | 0 <= i < |s| :: r[i] == if s[i] == '\'' then '"' else s[i]
  {
    seq(|s|, i requires 0 <= i < |s| => if s[i] == '\'' then '"' else s[i])
  }

  /** Where the comment opened before index `j` of `s` closes: the first
      star-slash at or after `j` with no newline before it. */
  function CommentEnd(s: string, j: nat): (r: Option<nat>)
    ensures r.Some? ==> j <= r.value && r.value + 1 < |s| && s[r.value] == '*' && s[r.value + 1] == '/'
    decreases |s| - j
  {
    if j + 1 >= |s| then None
    else if s[j] == '\n' then None
    else if s[j] == '*' && s[j + 1] == '/' then Some(j)
    else CommentEnd(s, j + 1)
  }

  /** A comment starts at the head of `s`: slash-star, then a close. */
  predicate CommentAtHead(s: string)
  {
    |s| >= 2 && s[0] == '/' && s[1] == '*' && CommentEnd(s, 2).Some?
  }

  /** `commandRegex.ReplaceAllString(query, "")`: scanning left to right,
      each comment found is dropped and the scan resumes after it. */
  function StripComments(s: string): (r: string)
    decreases |s|
  {
    if CommentAtHead(s) then StripComments(s[CommentEnd(s, 2).value + 2..])
    else if s == [] then []
    else [s[0]] + StripComments(s[1..])
  }

  /** The white space `strings.TrimSpace` removes (Unicode White_Space). */
  predicate IsSpace(c: char)
  {
    c == ' ' || c == '\t' || c == '\n' || c == '\r' || c == '\U{000B}' || c == '\U{000C}'
    || c == '\U{0085}' || c == '\U{00A0}' || c == '\U{1680}' || ('\U{2000}' <= c <= '\U{200A}')
    || c == '\U{2028}' || c == '\U{2029}' || c == '\U{202F}' || c == '\U{205F}' || c == '\U{3000}'
  }

  function TrimLeft(s: string): (r: string)
    ensures |r| <= |s| && r == s[|s| - |r|..]
    ensures r != [] ==> !IsSpace(r[0])
    ensures forall i | 0 <= i < |s| - |r| :: IsSpace(s[i])
  {
    if s != [] && IsSpace(s[0]) then TrimLeft(s[1..]) else s
  }

  function TrimRight(s: string): (r: string)
    ensures |r| <= |s| && r == s[..|r|]
    ensures r != [] ==> !IsSpace(r[|r| - 1])
    ensures forall i | |r| <= i < |s| :: IsSpace(s[i])
  {
    if s != [] && IsSpace(s[|s| - 1]) then TrimRight(s[..|s| - 1]) else s
  }

  /** `strings.TrimSpace`. */
  function TrimSpace(s: string): (r: string)
  {
    TrimRight(TrimLeft(s))
  }

  /** ASCII lower case, which is all the folding that can matter here: the
      keywords are ASCII and `query[:n]` slices bytes, so a prefix that
      holds any other character never matches. */
  function Lower(c: char): (r: char)
  {
    if 'A' <= c <= 'Z' then (c as int + 32) as char else c
  }

  /** `len(q) >= len(kw) && strings.EqualFold(q[:len(kw)], kw)`. */
  predicate StartsWithFold(q: string, kw: string)
  {
    |q| >= |kw| && forall i | 0 <= i < |kw| :: Lower(q[i]) == kw[i]
  }

  /** The statements the receiver does not explain, in the order checked. */
  const NotExplained: seq<string> := ["set", "use", "call", "show", "drop", "begin", "create", "commit"]

  /** The statement keywords, in the order the source checks them. */
  predicate Refused(q: string)
  {
    StartsWithFold(q, "set") || StartsWithFold(q, "use")
    || StartsWithFold(q, "call") || StartsWithFold(q, "show")
    || StartsWithFold(q, "drop") || StartsWithFold(q, "begin")
    || StartsWithFold(q, "create") || StartsWithFold(q, "commit")
  }

  /** The query with quotes replaced, comments removed and white space
      trimmed. */
  function Clean(query: string): (r: string)
  {
    TrimSpace(StripComments(ReplaceQuotes(query)))
  }

  /** `refactorQuery`: the cleaned query, and whether it may be explained. */
  function RefactorQuery(query: string): (r: (string, bool))
  {
    var cleaned := Clean(query);
    if Refused(cleaned) then (cleaned, false) else (cleaned, true)
  }

  // ---------------------------------------------------------------------
  // Properties of refactorQuery

  /** Removing comments only deletes characters, in order. */
  lemma {:induction false} StripCommentsSubsequence(s: string)
    ensures |StripComments(s)| <= |s|
    ensures forall c | c in StripComments(s) :: c in s
    decreases |s|
  {
    if CommentAtHead(s) {
      var e := CommentEnd(s, 2).value;
      StripCommentsSubsequence(s[e + 2..]);
      assert forall c | c in s[e + 2..] :: c in s;
    } else if s != [] {
      StripCommentsSubsequence(s[1..]);
      assert forall c | c in s[1..] :: c in s;
    }
  }

  /** Text without a `/` has no comment to remove. */
  lemma {:induction false} NoSlashUnchanged(s: string)
    requires '/' !in s
    ensures StripComments(s) == s
    decreases |s|
  {
    if s != [] {
      assert !CommentAtHead(s);
      assert '/' !in s[1..];
      NoSlashUnchanged(s[1..]);
    }
  }

  /** A comment closed on its own line is removed whole, and the scan goes
      on after it. */
  lemma CommentRemoved(body: string, rest: string)
    requires '\n' !in body
    requires forall k | 0 <= k < |body| - 1 :: !(body[k] == '*' && body[k + 1] == '/')
    requires body != [] ==> body[|body| - 1] != '*'
    ensures StripComments("/*" + body + "*/" + rest) == StripComments(rest)
  {
    var s := "/*" + body + "*/" + rest;
    CommentEndAt(s, 2, |body| + 2);
    assert s[|body| + 4..] == rest;
  }

  /** `CommentEnd` finds the close at `e` when nothing before it, from `j`,
      is a newline or a close. */
  lemma {:induction false} CommentEndAt(s: string, j: nat, e: nat)
    requires j <= e && e + 1 < |s| && s[e] == '*' && s[e + 1] == '/'
    requires forall k | j <= k < e :: s[k] != '\n' && !(s[k] == '*' && s[k + 1] == '/')
    ensures CommentEnd(s, j) == Some(e)
    decreases e - j
  {
    if j < e {
      CommentEndAt(s, j + 1, e);
    }
  }

  /** A comment that runs over a newline is not a match: its opening
      characters stay and the scan goes on with the next character. */
  lemma CommentOverNewlineKept(s: string, n: nat)
    requires |s| >= 2 && s[0] == '/' && s[1] == '*'
    requires 2 <= n < |s| && s[n] == '\n'
    requires forall k | 2 <= k < n - 1 :: !(s[k] == '*' && s[k + 1] == '/')
    ensures StripComments(s) == [s[0]] + StripComments(s[1..])
  {
    NoCloseBeforeNewline(s, 2, n);
  }

  lemma {:induction false} NoCloseBeforeNewline(s: string, j: nat, n: nat)
    requires j <= n < |s| && s[n] == '\n'
    requires forall k | j <= k < n - 1 :: !(s[k] == '*' && s[k + 1] == '/')
    ensures CommentEnd(s, j) == None
    decreases n - j
  {
    if j < n {
      NoCloseBeforeNewline(s, j + 1, n);
    }
  }

  /** The cleaned query has no single quote: each became a double quote
      and removing comments and white space adds nothing. */
  lemma QuotesReplaced(query: string)
    ensures '\'' !in RefactorQuery(query).0
  {
    var replaced := ReplaceQuotes(query);
    assert '\'' !in replaced;
    var stripped := StripComments(replaced);
    assert '\'' !in stripped by {
      StripCommentsSubsequence(replaced);
    }
    TrimKeepsOnly(stripped);
  }

  /** Trimming only removes characters. */
  lemma TrimKeepsOnly(s: string)
    ensures forall c | c in TrimSpace(s) :: c in s
  {
    var left := TrimLeft(s);
    assert forall c | c in left :: c in s;
    assert forall c | c in TrimRight(left) :: c in left;
  }

  /** The cleaned query neither starts nor ends with white space. */
  lemma Trimmed(query: string)
    ensures var cleaned := RefactorQuery(query).0;
            cleaned != [] ==> !IsSpace(cleaned[0]) && !IsSpace(cleaned[|cleaned| - 1])
  {
    var left := TrimLeft(StripComments(ReplaceQuotes(query)));
    var cleaned := TrimRight(left);
    if cleaned != [] {
      assert cleaned[0] == left[0];
    }
  }

  /** A query is refused exactly when its cleaned text starts, ignoring
      letter case, with one of the eight statement keywords. */
  lemma RefusedIff(query: string)
    ensures !RefactorQuery(query).1 <==> exists kw | kw in NotExplained :: StartsWithFold(Clean(query), kw)
  {
    var q := Clean(query);
    if Refused(q) {
      RefusedHasKeyword(q);
    }
    if exists kw | kw in NotExplained :: StartsWithFold(q, kw) {
      var kw :| kw in NotExplained && StartsWithFold(q, kw);
      KeywordRefused(q, kw);
    }
  }

  lemma RefusedHasKeyword(q: string)
    requires Refused(q)
    ensures exists kw | kw in NotExplained :: StartsWithFold(q, kw)
  {
    var kws := NotExplained;
    if StartsWithFold(q, "set") { assert kws[0] == "set"; }
    else if StartsWithFold(q, "use") { assert kws[1] == "use"; }
    else if StartsWithFold(q, "call") { assert kws[2] == "call"; }
    else if StartsWithFold(q, "show") { assert kws[3] == "show"; }
    else if StartsWithFold(q, "drop") { assert kws[4] == "drop"; }
    else if StartsWithFold(q, "begin") { assert kws[5] == "begin"; }
    else if StartsWithFold(q, "create") { assert kws[6] == "create"; }
    else { assert kws[7] == "commit"; }
  }

  lemma KeywordRefused(q: string, kw: string)
    requires kw in NotExplained && StartsWithFold(q, kw)
    ensures Refused(q)
  {
  }

  /** Text before the first `/` passes through comment removal as it is. */
  lemma {:induction false} PrefixWithoutSlash(s: string, k: nat)
    requires k <= |s| && forall i | 0 <= i < k :: s[i] != '/'
    ensures StripComments(s) == s[..k] + StripComments(s[k..])
    decreases k
  {
    if k > 0 {
      assert StripComments(s) == [s[0]] + StripComments(s[1..]);
      PrefixWithoutSlash(s[1..], k - 1);
      SliceShift(s, k);
      Assoc([s[0]], s[1..][..k - 1], StripComments(s[k..]));
    }
  }

  /** The head of a query up to its first slash or quote, when it starts
      and ends with a character other than white space, survives cleaning. */
  lemma CleanKeepsHead(q: string, k: nat)
    requires 0 < k <= |q|
    requires forall i | 0 <= i < k :: q[i] != '/' && q[i] != '\''
    requires !IsSpace(q[0]) && !IsSpace(q[k - 1])
    ensures |Clean(q)| >= k && Clean(q)[..k] == q[..k]
  {
    var r := ReplaceQuotes(q);
    assert forall i | 0 <= i < k :: r[i] == q[i];
    var st := StripComments(r);
    assert st[..k] == q[..k] by {
      PrefixWithoutSlash(r, k);
    }
    assert TrimLeft(st) == st;
    var cleaned := TrimRight(st);
    assert |cleaned| >= k;
    assert cleaned[..k] == st[..k];
  }

  /** A statement that opens with `SET ` is refused whatever follows. */
  lemma SetRefused(tail: string)
    ensures !RefactorQuery("SET " + tail).1
  {
    var q := "SET " + tail;
    CleanKeepsHead(q, 3);
    var c := Clean(q);
    assert c[0] == 'S' && c[1] == 'E' && c[2] == 'T';
    assert StartsWithFold(c, "set");
  }

  /** A query without quotes, slashes or surrounding white space is
      already clean. */
  lemma AlreadyClean(q: string)
    requires '\'' !in q && '/' !in q
    requires q != [] ==> !IsSpace(q[0]) && !IsSpace(q[|q| - 1])
    ensures Clean(q) == q
  {
    assert ReplaceQuotes(q) == q;
    NoSlashUnchanged(q);
  }

  /** A keyword is not a prefix when one of its letters differs. */
  lemma Mismatch(q: string, kw: string, i: nat)
    requires i < |kw| && i < |q| && Lower(q[i]) != kw[i]
    ensures !StartsWithFold(q, kw)
  {
  }

  /** `select 1` may be explained. */
  lemma SelectAccepted()
    ensures RefactorQuery("select 1") == ("select 1", true)
  {
    SelectClean();
    SelectNotRefused();
  }

  lemma SelectClean()
    ensures Clean("select 1") == "select 1"
  {
    AlreadyClean("select 1");
  }

  lemma SelectNotRefused()
    ensures !Refused("select 1")
  {
    var q := "select 1";
    assert q[0] == 's' && q[1] == 'e' && q[2] == 'l';
    Mismatch(q, "set", 2);
    Mismatch(q, "use", 0);
    Mismatch(q, "call", 0);
    Mismatch(q, "show", 1);
    Mismatch(q, "drop", 0);
    Mismatch(q, "begin", 0);
    Mismatch(q, "create", 0);
    Mismatch(q, "commit", 0);
  }

  /** A leading comment closed on its own line changes nothing: the
      query behind it is cleaned and judged as if it stood alone. */
  lemma LeadingCommentIgnored(body: string, q: string)
    requires '\n' !in body && '\'' !in body
    requires forall k | 0 <= k < |body| - 1 :: !(body[k] == '*' && body[k + 1] == '/')
    requires body != [] ==> body[|body| - 1] != '*'
    ensures RefactorQuery("/*" + body + "*/" + q) == RefactorQuery(q)
  {
    var c := "/*" + body + "*/" + q;
    var rb := ReplaceQuotes(body);
    assert rb == body;
    assert ReplaceQuotes(c) == "/*" + body + "*/" + ReplaceQuotes(q);
    CommentRemoved(body, ReplaceQuotes(q));
  }

  // ---------------------------------------------------------------------
  // refactorExplainResult

  /** The fixed part of the pattern: the key and the value's opening quote. */
  const Attached: string := "\"attached_condition\": \""

  /** Where a value opened before index `j` ends: the first `"` at or after
      `j` with no newline before it. */
  function QuoteEnd(s: string, j: nat): (r: Option<nat>)
    ensures r.Some? ==> j <= r.value < |s| && s[r.value] == '"'
    decreases |s| - j
  {
    if j >= |s| then None
    else if s[j] == '\n' then None
    else if s[j] == '"' then Some(j)
    else QuoteEnd(s, j + 1)
  }

  /** A match of the fixed part `pat` followed by a value `.*?"` starts at
      the head of `s`. */
  predicate MatchAtHead(s: string, pat: string)
  {
    pat <= s && QuoteEnd(s, |pat|).Some?
  }

  /** Every match, scanning left to right, becomes `pat` and an empty value. */
  function BlankValues(s: string, pat: string): (r: string)
    decreases |s|
  {
    if MatchAtHead(s, pat) then pat + "\"" + BlankValues(s[QuoteEnd(s, |pat|).value + 1..], pat)
    else if s == [] then []
    else [s[0]] + BlankValues(s[1..], pat)
  }

  /** `refactorExplainResult`. */
  function RefactorExplainResult(exp: string): (r: string)
  {
    BlankValues(exp, Attached)
  }

  /** A value on one line is blanked, and the scan goes on after it. */
  lemma ValueBlanked(pat: string, value: string, rest: string)
    requires '\n' !in value && '"' !in value
    ensures BlankValues(pat + value + "\"" + rest, pat) == pat + "\"" + BlankValues(rest, pat)
  {
    var s := pat + value + "\"" + rest;
    QuoteEndAt(s, |pat|, |pat| + |value|);
    assert s[|pat| + |value| + 1..] == rest;
  }

  /** The source's pattern blanks a one-line condition. */
  lemma ConditionBlanked(value: string, rest: string)
    requires '\n' !in value && '"' !in value
    ensures RefactorExplainResult(Attached + value + "\"" + rest) == Attached + "\"" + RefactorExplainResult(rest)
  {
    ValueBlanked(Attached, value, rest);
  }

  lemma {:induction false} QuoteEndAt(s: string, j: nat, e: nat)
    requires j <= e < |s| && s[e] == '"'
    requires forall k | j <= k < e :: s[k] != '\n' && s[k] != '"'
    ensures QuoteEnd(s, j) == Some(e)
    decreases e - j
  {
    if j < e {
      QuoteEndAt(s, j + 1, e);
    }
  }

  lemma {:induction false} QuoteEndFrom(t: string, j: nat, n: nat)
    requires j <= n <= |t|
    requires forall k | j <= k < n :: t[k] != '"' && t[k] != '\n'
    requires n == |t| || t[n] == '\n'
    ensures QuoteEnd(t, j) == None
    decreases n - j
  {
    if j < n {
      QuoteEndFrom(t, j + 1, n);
    }
  }

  /** Where the scan for a closing quote stops: the first quote or newline
      at or after `j`, or the end. */
  function Stop(s: string, j: nat): (n: nat)
    requires j <= |s|
    ensures j <= n <= |s|
    ensures forall k | j <= k < n :: s[k] != '"' && s[k] != '\n'
    ensures n < |s| ==> s[n] == '"' || s[n] == '\n'
    decreases |s| - j
  {
    if j == |s| || s[j] == '"' || s[j] == '\n' then j else Stop(s, j + 1)
  }

  lemma {:induction false} QuoteEndStop(s: string, j: nat)
    requires j <= |s|
    ensures var n := Stop(s, j);
            QuoteEnd(s, j) == if n < |s| && s[n] == '"' then Some(n) else None
    decreases |s| - j
  {
    if j < |s| && s[j] != '"' && s[j] != '\n' {
      QuoteEndStop(s, j + 1);
    }
  }

  /** The shape of the source's fixed part that idempotence rests on: it
      opens with a quote, has no newline, and holds two more quotes, at 19
      and 22, the first followed by `:` and not by the character after the
      opening quote. */
  predicate PatternShape(pat: string)
  {
    |pat| == 23 && '\n' !in pat
    && pat[0] == '"' && pat[19] == '"' && pat[20] == ':' && pat[22] == '"' && pat[1] != ':'
    && forall i | 0 <= i < 23 && pat[i] == '"' :: i == 0 || i == 19 || i == 22
  }

  lemma AttachedShape()
    ensures PatternShape(Attached)
  {
  }

  /** Text without a match before `k` is kept up to `k`. */
  lemma {:induction false} KeepPrefix(s: string, pat: string, k: nat)
    requires k <= |s|
    requires forall j | 0 <= j < k :: !MatchAtHead(s[j..], pat)
    ensures BlankValues(s, pat) == s[..k] + BlankValues(s[k..], pat)
    decreases k
  {
    if k > 0 {
      NoMatchShifted(s, pat, k);
      KeepOne(s, pat);
      KeepPrefix(s[1..], pat, k - 1);
      SliceShift(s, k);
      Assoc([s[0]], s[1..][..k - 1], BlankValues(s[k..], pat));
    }
  }

  lemma KeepOne(s: string, pat: string)
    requires s != [] && !MatchAtHead(s, pat)
    ensures BlankValues(s, pat) == [s[0]] + BlankValues(s[1..], pat)
  {
  }

  lemma Assoc<T>(a: seq<T>, b: seq<T>, c: seq<T>)
    ensures a + (b + c) == (a + b) + c
  {
  }

  lemma SliceShift(s: string, k: nat)
    requires 0 < k <= |s|
    ensures s[1..][k - 1..] == s[k..] && s[..k] == [s[0]] + s[1..][..k - 1]
  {
  }

  lemma NoMatchShifted(s: string, pat: string, k: nat)
    requires 0 < k <= |s|
    requires forall j | 0 <= j < k :: !MatchAtHead(s[j..], pat)
    ensures !MatchAtHead(s, pat)
    ensures forall j | 0 <= j < k - 1 :: !MatchAtHead(s[1..][j..], pat)
  {
    assert s[0..] == s;
    forall j | 0 <= j < k - 1
      ensures !MatchAtHead(s[1..][j..], pat)
    {
      assert s[1..][j..] == s[j + 1..];
    }
  }

  /** The first match at or after `i`, or the end. */
  function FirstMatch(s: string, pat: string, i: nat): (m: nat)
    requires i <= |s|
    ensures i <= m <= |s|
    ensures m < |s| ==> MatchAtHead(s[m..], pat)
    ensures forall j | i <= j < m :: !MatchAtHead(s[j..], pat)
    decreases |s| - i
  {
    if i == |s| then |s| else if MatchAtHead(s[i..], pat) then i else FirstMatch(s, pat, i + 1)
  }

  /** Without the fixed part at the head of the input, none appears at the
      head of the output: a block written by the rewrite could complete it
      only at offset 22, where the input held it already. */
  lemma NoNewPrefix(s: string, pat: string)
    requires PatternShape(pat) && s != [] && !(pat <= s)
    ensures !(pat <= [s[0]] + BlankValues(s[1..], pat))
  {
    var m := OutputSplit(s, pat);
    if m == |s| - 1 {
      assert [s[0]] + BlankValues(s[1..], pat) == s;
    } else if m + 1 >= 23 {
      var i := Differs(s, pat);
      assert ([s[0]] + BlankValues(s[1..], pat))[i] == s[i];
    } else {
      BlockCase(s, pat, m);
    }
  }

  /** The output is the input up to its first later match, then the
      output from that match on. */
  lemma OutputSplit(s: string, pat: string) returns (m: nat)
    requires s != []
    ensures m <= |s| - 1
    ensures [s[0]] + BlankValues(s[1..], pat) == s[..m + 1] + BlankValues(s[m + 1..], pat)
    ensures m < |s| - 1 ==> MatchAtHead(s[m + 1..], pat)
  {
    var u := s[1..];
    m := FirstMatch(u, pat, 0);
    assert BlankValues(u, pat) == u[..m] + BlankValues(u[m..], pat) by {
      KeepPrefix(u, pat, m);
    }
    Assoc([s[0]], u[..m], BlankValues(u[m..], pat));
    SliceShift(s, m + 1);
  }

  /** A match starting inside the first 23 characters does not complete
      the fixed part at the head of the output. */
  lemma BlockCase(s: string, pat: string, m: nat)
    requires PatternShape(pat) && !(pat <= s)
    requires m + 1 < 23 && m < |s| - 1 && MatchAtHead(s[m + 1..], pat)
    requires var t := [s[0]] + BlankValues(s[1..], pat);
             t == s[..m + 1] + BlankValues(s[m + 1..], pat)
    ensures !(pat <= [s[0]] + BlankValues(s[1..], pat))
  {
    var t := [s[0]] + BlankValues(s[1..], pat);
    var b := BlankValues(s[m + 1..], pat);
    BlockAtHead(s[m + 1..], pat);
    assert t[m + 1] == '"' && t[m + 2] == pat[1];
    if pat[m + 1] == '"' && m + 1 != 19 {
      assert s[m + 1] == '"';
      var i := Differs(s, pat);
      assert t[i] == s[i];
    }
  }

  /** A text at least as long as the fixed part but not starting with it
      differs from it somewhere. */
  lemma Differs(s: string, pat: string) returns (i: nat)
    requires |s| >= |pat| && !(pat <= s)
    ensures i < |pat| && s[i] != pat[i]
  {
    i :| i < |pat| && s[i] != pat[i];
  }

  /** At a match the output starts with the fixed part. */
  lemma BlockAtHead(s: string, pat: string)
    requires MatchAtHead(s, pat) && |pat| >= 2
    ensures var b := BlankValues(s, pat);
            |b| >= |pat| && b[..|pat|] == pat && s[0] == pat[0]
  {
  }

  /** With the fixed part at the head of the input but no closing quote on
      its line, the output holds the same line unchanged. */
  lemma NoNewValue(s: string, pat: string)
    requires PatternShape(pat) && pat <= s && QuoteEnd(s, 23).None?
    ensures !MatchAtHead([s[0]] + BlankValues(s[1..], pat), pat)
  {
    var t := [s[0]] + BlankValues(s[1..], pat);
    var n := Stop(s, 23);
    LineKept(s, pat);
    assert t[..n] == s[..n];
    if n < |s| {
      QuoteEndStop(s, 23);
      NewlineKept(s, pat, n);
      assert t[n] == '\n';
    } else {
      assert s[n..] == [];
      assert |t| == n;
    }
    assert forall k | 23 <= k < n :: t[k] == s[..n][k];
    QuoteEndFrom(t, 23, n);
  }

  /** Under those conditions the output repeats the input up to the end of
      the line. */
  lemma LineKept(s: string, pat: string)
    requires PatternShape(pat) && pat <= s && QuoteEnd(s, 23).None?
    ensures [s[0]] + BlankValues(s[1..], pat) == s[..Stop(s, 23)] + BlankValues(s[Stop(s, 23)..], pat)
  {
    NoMatchOnLine(s, pat);
    KeepPrefix(s[1..], pat, Stop(s, 23) - 1);
    SliceShift(s, Stop(s, 23));
    Assoc([s[0]], s[1..][..Stop(s, 23) - 1], BlankValues(s[Stop(s, 23)..], pat));
  }

  /** A newline is never the head of a match. */
  lemma NewlineKept(s: string, pat: string, n: nat)
    requires pat != [] && pat[0] == '"' && n < |s| && s[n] == '\n'
    ensures BlankValues(s[n..], pat) != [] && BlankValues(s[n..], pat)[0] == '\n'
  {
    KeepOne(s[n..], pat);
  }

  /** Under `NoNewValue`'s conditions, no match starts on the first line
      after the head. */
  lemma NoMatchOnLine(s: string, pat: string)
    requires PatternShape(pat) && pat <= s && QuoteEnd(s, 23).None?
    ensures forall j | 0 <= j < Stop(s, 23) - 1 :: !MatchAtHead(s[1..][j..], pat)
  {
    forall j | 0 <= j < Stop(s, 23) - 1
      ensures !MatchAtHead(s[1..][j..], pat)
    {
      assert s[1..][j..] == s[j + 1..];
      NoMatchInside(s, pat, j + 1);
    }
  }

  lemma NoMatchInside(s: string, pat: string, p: nat)
    requires PatternShape(pat) && pat <= s && QuoteEnd(s, 23).None?
    requires 1 <= p < Stop(s, 23)
    ensures !MatchAtHead(s[p..], pat)
  {
    if MatchAtHead(s[p..], pat) {
      assert s[p] == '"';
      assert p < 23;
      assert s[p] == pat[p];
      if p == 22 {
        assert s[22..][..23] == pat;
        forall k | 23 <= k < 41
          ensures s[k] != '\n' && s[k] != '"'
        {
          assert s[k] == pat[k - 22];
        }
        QuoteEndAt(s, 23, 41);
      }
    }
  }

  /** Blanking is idempotent for a fixed part of that shape: the output has
      every value blanked already, so a second pass changes nothing. */
  lemma {:induction false} BlankValuesIdempotent(s: string, pat: string)
    requires PatternShape(pat)
    ensures BlankValues(BlankValues(s, pat), pat) == BlankValues(s, pat)
    decreases |s|
  {
    if MatchAtHead(s, pat) {
      var r := s[QuoteEnd(s, |pat|).value + 1..];
      BlankValuesIdempotent(r, pat);
      var t := pat + "\"" + BlankValues(r, pat);
      QuoteEndAt(t, 23, 23);
      assert t[24..] == BlankValues(r, pat);
    } else if s != [] {
      if pat <= s {
        NoNewValue(s, pat);
      } else {
        NoNewPrefix(s, pat);
      }
      BlankValuesIdempotent(s[1..], pat);
      var t := [s[0]] + BlankValues(s[1..], pat);
      assert t[1..] == BlankValues(s[1..], pat);
    }
  }

  /** `refactorExplainResult` is idempotent. */
  lemma RefactorExplainResultIdempotent(exp: string)
    ensures RefactorExplainResult(RefactorExplainResult(exp)) == RefactorExplainResult(exp)
  {
    AttachedShape();
    BlankValuesIdempotent(exp, Attached);
  }

  // ---------------------------------------------------------------------
  // hashTo16Bytes

  type Byte = b: int | 0 <= b < 256

  /** A SHA-256 digest: 32 bytes. */
  type Digest = d: seq<Byte> | |d| == 32 witness seq(32, _ => 0)

  const HexDigits: string := "0123456789abcdef"

  /** `hex.EncodeToString`: two lower-case digits per byte, high first. */
  function HexEncode(bytes: seq<Byte>): (r: string)
    ensures |r| == 2 * |bytes|
    ensures forall i | 0 <= i < |bytes| :: r[2 * i] == HexDigits[bytes[i] / 16] && r[2 * i + 1] == HexDigits[bytes[i] % 16]
  {
    if bytes == [] then []
    else [HexDigits[bytes[0] / 16], HexDigits[bytes[0] % 16]] + HexEncode(bytes[1..])
  }

  /** `hashTo16Bytes`. */
  function HashTo16Bytes(input: string, sha256: string -> Digest): (r: string)
  {
    HexEncode(sha256(input))[..16]
  }

  /** The digest text is always 16 lower-case hex digits: the first eight
      bytes of the hash. */
  lemma HashShape(input: string, sha256: string -> Digest)
    ensures var r := HashTo16Bytes(input, sha256);
            |r| == 16 && (forall c | c in r :: c in HexDigits)
            && r == HexEncode(sha256(input)[..8])
  {
    var d := sha256(input);
    var h := HexEncode(d);
    var r := h[..16];
    forall c | c in r
      ensures c in HexDigits
    {
      var k :| 0 <= k < 16 && r[k] == c;
      assert h[k] == HexDigits[d[k / 2] / 16] || h[k] == HexDigits[d[k / 2] % 16] by {
        if k % 2 == 0 {
          assert k == 2 * (k / 2);
        } else {
          assert k == 2 * (k / 2) + 1;
        }
      }
    }
    var e := HexEncode(d[..8]);
    forall k | 0 <= k < 16
      ensures r[k] == e[k]
    {
      if k % 2 == 0 {
        assert k == 2 * (k / 2);
      } else {
        assert k == 2 * (k / 2) + 1;
      }
    }
  }
}
