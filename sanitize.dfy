/**
 * `sanitizeName`: the rule that turns a user-supplied name into a path
 * segment and a topology identifier. Every maximal run of characters
 * outside `[A-Za-z0-9_]` is replaced by one `_` (a left-to-right
 * `ReplaceAllString` of `[^a-zA-Z0-9_]+`).
 */
module Sanitize {
  import opened Wrappers
  import opened Strings

  /** Length of the run of characters outside `[A-Za-z0-9_]` that starts `s`. */
  function NonWordRun(s: string): (n: nat)
    ensures n <= |s|
    ensures forall i :: 0 <= i < n ==> !IsWordChar(s[i])
    ensures n < |s| ==> IsWordChar(s[n])
  {
    if s != [] && !IsWordChar(s[0]) then 1 + NonWordRun(s[1..]) else 0
  }

  /** The regex engine's scan: a word character is copied, a maximal non-word run becomes `_`. */
  function SanitizeName(name: string): (r: string)
    ensures AllWordChars(r)
    ensures |r| <= |name|
    ensures r == [] <==> name == []
    decreases |name|
  {
    if name == [] then []
    else if IsWordChar(name[0]) then [name[0]] + SanitizeName(name[1..])
    else "_" + SanitizeName(name[NonWordRun(name)..])
  }

  // ---------------------------------------------------------------------
  // Reference definition, position by position: mark every character as
  // kept (a word character) or dropped, squeeze each run of dropped marks
  // to one, and render a dropped mark as `_`.

  function Mark(s: string): (m: seq<Option<char>>)
  {
    seq(|s|, i requires 0 <= i < |s| => if IsWordChar(s[i]) then Some(s[i]) else None)
  }

  /** Removes every `None` that directly follows another `None`. */
  function Squeeze(m: seq<Option<char>>): seq<Option<char>>
  {
    if |m| < 2 then m
    else if m[0].None? && m[1].None? then Squeeze(m[1..])
    else [m[0]] + Squeeze(m[1..])
  }

  function Render(m: seq<Option<char>>): string
  {
    seq(|m|, i requires 0 <= i < |m| => if m[i].Some? then m[i].value else '_')
  }

  lemma {:induction false} SqueezeRun(n: nat, rest: seq<Option<char>>)
    requires n >= 1
    requires rest == [] || rest[0].Some?
    ensures Squeeze(seq(n, _ => None) + rest) == [None] + Squeeze(rest)
  {
    var m := seq(n, _ => None) + rest;
    if n == 1 {
      if rest != [] {
        assert m[1..] == rest;
      } else {
        assert m == [None];
      }
    } else {
      assert m[1..] == seq(n - 1, _ => None) + rest;
      SqueezeRun(n - 1, rest);
    }
  }

  lemma SqueezeKept(c: char, tail: seq<Option<char>>)
    ensures Squeeze([Some(c)] + tail) == [Some(c)] + Squeeze(tail)
  {
    var m := [Some(c)] + tail;
    if tail != [] {
      assert m[1..] == tail;
    }
  }

  lemma RenderCons(x: Option<char>, m: seq<Option<char>>)
    ensures Render([x] + m) == [if x.Some? then x.value else '_'] + Render(m)
  {
  }

  lemma MarkSplit(s: string, n: nat)
    requires n <= |s|
    ensures Mark(s) == Mark(s[..n]) + Mark(s[n..])
  {
  }

  /** `SanitizeName` is exactly "each maximal run of non-word characters becomes one `_`". */
  lemma {:induction false} SanitizeNameSqueezesRuns(s: string)
    ensures SanitizeName(s) == Render(Squeeze(Mark(s)))
    decreases |s|
  {
    if s == [] {
    } else if IsWordChar(s[0]) {
      SanitizeNameSqueezesRuns(s[1..]);
      var tail := Mark(s[1..]);
      MarkSplit(s, 1);
      assert Mark(s[..1]) == [Some(s[0])];
      SqueezeKept(s[0], tail);
      RenderCons(Some(s[0]), Squeeze(tail));
    } else {
      var n := NonWordRun(s);
      SanitizeNameSqueezesRuns(s[n..]);
      var tail := Mark(s[n..]);
      MarkSplit(s, n);
      assert Mark(s[..n]) == seq(n, _ => None);
      SqueezeRun(n, tail);
      RenderCons(None, Squeeze(tail));
    }
  }

  /** A name already made only of `[A-Za-z0-9_]` is left unchanged. */
  lemma {:induction false} SanitizeNameKeepsCleanName(s: string)
    requires AllWordChars(s)
    ensures SanitizeName(s) == s
    decreases |s|
  {
    if s != [] {
      SanitizeNameKeepsCleanName(s[1..]);
    }
  }

  /** Sanitizing twice is sanitizing once. */
  lemma SanitizeNameIdempotent(s: string)
    ensures SanitizeName(SanitizeName(s)) == SanitizeName(s)
  {
    SanitizeNameKeepsCleanName(SanitizeName(s));
  }

  predicate IsAlphaNum(c: char) { IsWordChar(c) && c != '_' }

  /** The letters and digits of `s`, in order. */
  function AlphaNums(s: string): string
  {
    if s == [] then [] else (if IsAlphaNum(s[0]) then [s[0]] else []) + AlphaNums(s[1..])
  }

  lemma {:induction false} AlphaNumsSkipRun(s: string, n: nat)
    requires n <= |s|
    requires forall i :: 0 <= i < n ==> !IsWordChar(s[i])
    ensures AlphaNums(s) == AlphaNums(s[n..])
  {
    if n > 0 {
      assert s[1..][n - 1..] == s[n..];
      AlphaNumsSkipRun(s[1..], n - 1);
    }
  }

  /** Letters and digits survive sanitizing, all of them and in their order. */
  lemma {:induction false} SanitizeNameKeepsAlphaNums(s: string)
    ensures AlphaNums(SanitizeName(s)) == AlphaNums(s)
    decreases |s|
  {
    if s == [] {
    } else if IsWordChar(s[0]) {
      SanitizeNameKeepsAlphaNums(s[1..]);
      assert ([s[0]] + SanitizeName(s[1..]))[1..] == SanitizeName(s[1..]);
    } else {
      var n := NonWordRun(s);
      SanitizeNameKeepsAlphaNums(s[n..]);
      AlphaNumsSkipRun(s, n);
      assert ("_" + SanitizeName(s[n..]))[1..] == SanitizeName(s[n..]);
    }
  }

  lemma SanitizeNameWordStep(s: string)
    requires s != [] && IsWordChar(s[0])
    ensures SanitizeName(s) == [s[0]] + SanitizeName(s[1..])
  {
  }

  lemma SanitizeNameSingleStep(s: string)
    requires |s| >= 2 && !IsWordChar(s[0]) && IsWordChar(s[1])
    ensures SanitizeName(s) == "_" + SanitizeName(s[1..])
  {
    assert NonWordRun(s) == 1;
  }

  /** The first example name of the documentation: a space becomes `_`. */
  lemma SanitizeNameGetIndex()
    ensures SanitizeName("get index") == "get_index"
  {
    var s := "get index";
    SanitizeNameKeepsCleanName(s[4..]);
    SanitizeNameSingleStep(s[3..]);
    SanitizeNameWordStep(s[2..]);
    SanitizeNameWordStep(s[1..]);
    SanitizeNameWordStep(s);
    assert s[1..][1..] == s[2..] && s[2..][1..] == s[3..] && s[3..][1..] == s[4..];
    assert s[4..] == "index";
  }

  /** The second example name: `/` and `:` each become `_`. */
  lemma SanitizeNameSlashColon()
    ensures SanitizeName("a/b:c") == "a_b_c"
  {
    var s := "a/b:c";
    SanitizeNameKeepsCleanName(s[4..]);
    SanitizeNameSingleStep(s[3..]);
    SanitizeNameWordStep(s[2..]);
    SanitizeNameSingleStep(s[1..]);
    SanitizeNameWordStep(s);
    assert s[1..][1..] == s[2..] && s[2..][1..] == s[3..] && s[3..][1..] == s[4..];
    assert s[4..] == "c";
  }

  /** A service name of the documentation, already clean, is kept as it is. */
  lemma SanitizeNameNginxService()
    ensures SanitizeName("nginx_service") == "nginx_service"
  {
    var s := "nginx_service";
    assert AllWordChars(s) by {
      forall i | 0 <= i < |s| ensures IsWordChar(s[i]) {
      }
    }
    SanitizeNameKeepsCleanName(s);
  }
}
