/**
 * The JavaScript string operations the generator relies on, with their
 * ECMAScript meaning: `includes`, `replace` with a global pattern and with a
 * string pattern, `trim`, and `split(',')[1]`.
 *
 * Replacement is literal: the `$`-patterns that JavaScript interprets inside
 * a replacement string are not modelled (they agree whenever the inserted
 * value contains no `$`).
 */
module JsText {
  import opened Types

  /** `sub` is written in `s` starting at position `i`. */
  predicate OccursAt(s: string, sub: string, i: nat)
  {
    i + |sub| <= |s| && s[i..i + |sub|] == sub
  }

  /** `s.includes(sub)`. */
  predicate Includes(s: string, sub: string)
  {
    exists i: nat | i <= |s| :: OccursAt(s, sub, i)
  }

  /** No position of `s` holds `c`. */
  predicate Lacks(s: string, c: char)
  {
    forall i :: 0 <= i < |s| ==> s[i] != c
  }

  /** A string contains whatever is written inside it. */
  lemma IncludesInfix(a: string, sub: string, b: string)
    ensures Includes(a + sub + b, sub)
  {
    assert OccursAt(a + sub + b, sub, |a|);
  }

  lemma IncludesFront(sub: string, b: string)
    ensures Includes(sub + b, sub)
  {
    assert OccursAt(sub + b, sub, 0);
  }

  lemma IncludesExtend(a: string, s: string, b: string, sub: string)
    requires Includes(s, sub)
    ensures Includes(a + s + b, sub)
  {
    var i: nat :| i <= |s| && OccursAt(s, sub, i);
    assert (a + s + b)[|a| + i..|a| + i + |sub|] == s[i..i + |sub|];
    assert OccursAt(a + s + b, sub, |a| + i);
  }

  /**
   * `s.replace(/pat/g, rep)`: scan left to right, replace every
   * non-overlapping occurrence of `pat`.
   */
  function ReplaceAll(s: string, pat: string, rep: string): (r: string)
    requires pat != []
    ensures !Includes(s, pat) ==> r == s
    decreases |s|
  {
    if |s| < |pat| then s
    else if s[..|pat|] == pat then
      assert OccursAt(s, pat, 0);
      rep + ReplaceAll(s[|pat|..], pat, rep)
    else
      assert !Includes(s, pat) ==> !Includes(s[1..], pat) by {
        if Includes(s[1..], pat) {
          var i: nat :| i <= |s[1..]| && OccursAt(s[1..], pat, i);
          assert s[i + 1..i + 1 + |pat|] == s[1..][i..i + |pat|];
          assert OccursAt(s, pat, i + 1);
        }
      }
      [s[0]] + ReplaceAll(s[1..], pat, rep)
  }

  /** `s.replace('pat', rep)`: only the first occurrence of `pat` is replaced. */
  function ReplaceFirst(s: string, pat: string, rep: string): (r: string)
    requires pat != []
    ensures !Includes(s, pat) ==> r == s
    decreases |s|
  {
    if |s| < |pat| then s
    else if s[..|pat|] == pat then
      assert OccursAt(s, pat, 0);
      rep + s[|pat|..]
    else
      assert !Includes(s, pat) ==> !Includes(s[1..], pat) by {
        if Includes(s[1..], pat) {
          var i: nat :| i <= |s[1..]| && OccursAt(s[1..], pat, i);
          assert s[i + 1..i + 1 + |pat|] == s[1..][i..i + |pat|];
          assert OccursAt(s, pat, i + 1);
        }
      }
      [s[0]] + ReplaceFirst(s[1..], pat, rep)
  }

  /** A prefix free of the pattern's first character is copied unchanged by a global replace. */
  lemma {:induction false} ReplaceAllSkip(a: string, b: string, pat: string, rep: string)
    requires pat != [] && Lacks(a, pat[0])
    ensures ReplaceAll(a + b, pat, rep) == a + ReplaceAll(b, pat, rep)
    decreases |a|
  {
    if a == [] {
      assert a + b == b;
    } else {
      var s := a + b;
      if |s| < |pat| {
        assert ReplaceAll(b, pat, rep) == b;
      } else {
        assert s[..|pat|][0] == a[0];
        assert s[1..] == a[1..] + b;
        ReplaceAllSkip(a[1..], b, pat, rep);
        assert a == [a[0]] + a[1..];
      }
    }
  }

  /** The same for replacing only the first occurrence. */
  lemma {:induction false} ReplaceFirstSkip(a: string, b: string, pat: string, rep: string)
    requires pat != [] && Lacks(a, pat[0])
    ensures ReplaceFirst(a + b, pat, rep) == a + ReplaceFirst(b, pat, rep)
    decreases |a|
  {
    if a == [] {
      assert a + b == b;
    } else {
      var s := a + b;
      if |s| < |pat| {
        assert ReplaceFirst(b, pat, rep) == b;
      } else {
        assert s[..|pat|][0] == a[0];
        assert s[1..] == a[1..] + b;
        ReplaceFirstSkip(a[1..], b, pat, rep);
        assert a == [a[0]] + a[1..];
      }
    }
  }

  /** An occurrence at the front is replaced, and the scan resumes after it. */
  lemma ReplaceAllHit(b: string, pat: string, rep: string)
    requires pat != []
    ensures ReplaceAll(pat + b, pat, rep) == rep + ReplaceAll(b, pat, rep)
  {
    assert (pat + b)[..|pat|] == pat;
    assert (pat + b)[|pat|..] == b;
  }

  lemma ReplaceFirstHit(b: string, pat: string, rep: string)
    requires pat != []
    ensures ReplaceFirst(pat + b, pat, rep) == rep + b
  {
    assert (pat + b)[..|pat|] == pat;
    assert (pat + b)[|pat|..] == b;
  }

  /**
   * A word that starts like the pattern but differs from it at its second
   * character, and has no further copy of the pattern's first character,
   * is copied unchanged by a global replace.
   */
  lemma ReplaceAllMismatch(w: string, b: string, pat: string, rep: string)
    requires |pat| >= 2 && |w| >= 2 && w[1] != pat[1] && Lacks(w[1..], pat[0])
    ensures ReplaceAll(w + b, pat, rep) == w + ReplaceAll(b, pat, rep)
  {
    if |w + b| < |pat| {
      ReplaceAllShort(w + b, pat, rep);
      ReplaceAllShort(b, pat, rep);
    } else {
      var tail := ReplaceAll(b, pat, rep);
      calc {
        ReplaceAll(w + b, pat, rep);
        { ReplaceAllStep(w + b, pat, rep); }
        [w[0]] + ReplaceAll((w + b)[1..], pat, rep);
        { assert (w + b)[1..] == w[1..] + b; ReplaceAllSkip(w[1..], b, pat, rep); }
        [w[0]] + (w[1..] + tail);
        { AppendAssoc([w[0]], w[1..], tail); assert [w[0]] + w[1..] == w; }
        w + tail;
      }
    }
  }

  lemma AppendAssoc(a: string, b: string, c: string)
    ensures a + (b + c) == (a + b) + c
  {
  }

  /** A text shorter than the pattern is left as it is. */
  lemma ReplaceAllShort(s: string, pat: string, rep: string)
    requires pat != [] && |s| < |pat|
    ensures ReplaceAll(s, pat, rep) == s
  {
  }

  lemma ReplaceAllStep(s: string, pat: string, rep: string)
    requires |pat| >= 2 && |s| >= |pat| && s[1] != pat[1]
    ensures ReplaceAll(s, pat, rep) == [s[0]] + ReplaceAll(s[1..], pat, rep)
  {
    assert s[..|pat|][1] == s[1];
  }

  lemma ReplaceFirstMismatch(w: string, b: string, pat: string, rep: string)
    requires |pat| >= 2 && |w| >= 2 && w[1] != pat[1] && Lacks(w[1..], pat[0])
    ensures ReplaceFirst(w + b, pat, rep) == w + ReplaceFirst(b, pat, rep)
  {
    if |w + b| < |pat| {
      ReplaceFirstShort(w + b, pat, rep);
      ReplaceFirstShort(b, pat, rep);
    } else {
      var tail := ReplaceFirst(b, pat, rep);
      calc {
        ReplaceFirst(w + b, pat, rep);
        { ReplaceFirstStep(w + b, pat, rep); }
        [w[0]] + ReplaceFirst((w + b)[1..], pat, rep);
        { assert (w + b)[1..] == w[1..] + b; ReplaceFirstSkip(w[1..], b, pat, rep); }
        [w[0]] + (w[1..] + tail);
        { AppendAssoc([w[0]], w[1..], tail); assert [w[0]] + w[1..] == w; }
        w + tail;
      }
    }
  }

  lemma ReplaceFirstShort(s: string, pat: string, rep: string)
    requires pat != [] && |s| < |pat|
    ensures ReplaceFirst(s, pat, rep) == s
  {
  }

  lemma ReplaceFirstStep(s: string, pat: string, rep: string)
    requires |pat| >= 2 && |s| >= |pat| && s[1] != pat[1]
    ensures ReplaceFirst(s, pat, rep) == [s[0]] + ReplaceFirst(s[1..], pat, rep)
  {
    assert s[..|pat|][1] == s[1];
  }

  // ---------------------------------------------------------------------
  // trim

  /** The characters `String.prototype.trim` removes: WhiteSpace and LineTerminator. */
  predicate IsJsSpace(c: char)
  {
    c == '\t' || c == '\n' || c == '\U{B}' || c == '\U{C}' || c == '\r' || c == ' '
    || c == '\U{A0}' || c == '\U{1680}' || ('\U{2000}' <= c <= '\U{200A}')
    || c == '\U{2028}' || c == '\U{2029}' || c == '\U{202F}' || c == '\U{205F}'
    || c == '\U{3000}' || c == '\U{FEFF}'
  }

  /** Every character is white space (this includes the empty string). */
  predicate IsBlank(s: string)
  {
    forall i :: 0 <= i < |s| ==> IsJsSpace(s[i])
  }

  function TrimStart(s: string): (r: string)
    ensures |r| <= |s| && r == s[|s| - |r|..]
    ensures r != [] ==> !IsJsSpace(r[0])
  {
    if s != [] && IsJsSpace(s[0]) then TrimStart(s[1..]) else s
  }

  function TrimEnd(s: string): (r: string)
    ensures |r| <= |s| && r == s[..|r|]
    ensures r != [] ==> !IsJsSpace(r[|r| - 1])
  {
    if s != [] && IsJsSpace(s[|s| - 1]) then TrimEnd(s[..|s| - 1]) else s
  }

  /** `s.trim()`. */
  function Trim(s: string): string
  {
    TrimEnd(TrimStart(s))
  }

  /** `!s.trim()` holds exactly of the blank strings. */
  lemma {:induction false} TrimEmptyIffBlank(s: string)
    ensures Trim(s) == "" <==> IsBlank(s)
    decreases |s|
  {
    if s == [] {
    } else if IsJsSpace(s[0]) {
      TrimEmptyIffBlank(s[1..]);
      assert Trim(s) == Trim(s[1..]);
      assert IsBlank(s) <==> IsBlank(s[1..]) by {
        if IsBlank(s[1..]) {
          forall i | 0 <= i < |s| ensures IsJsSpace(s[i]) {
            if i > 0 { assert s[i] == s[1..][i - 1]; }
          }
        }
      }
    } else {
      assert TrimStart(s) == s;
      assert !IsBlank(s);
      assert Trim(s) != "" by {
        if Trim(s) == "" {
          TrimEndNonBlank(s);
        }
      }
    }
  }

  /** TrimEnd keeps a string that is not all white space non-empty. */
  lemma {:induction false} TrimEndNonBlank(s: string)
    requires !IsBlank(s)
    ensures TrimEnd(s) != ""
    decreases |s|
  {
    if IsJsSpace(s[|s| - 1]) {
      var t := s[..|s| - 1];
      assert !IsBlank(t) by {
        var i :| 0 <= i < |s| && !IsJsSpace(s[i]);
        assert i < |s| - 1 && t[i] == s[i];
      }
      TrimEndNonBlank(t);
    }
  }

  // ---------------------------------------------------------------------
  // split(',')[1]

  /** The index of the first `c` in `s`, if any. */
  function IndexOf(s: string, c: char): (r: Option<nat>)
    ensures r.None? ==> Lacks(s, c)
    ensures r.Some? ==> r.value < |s| && s[r.value] == c && Lacks(s[..r.value], c)
  {
    if s == [] then None
    else if s[0] == c then Some(0)
    else
      match IndexOf(s[1..], c)
      case None => None
      case Some(i) =>
        assert s[..i + 1] == [s[0]] + s[1..][..i];
        Some(i + 1)
  }

  /** `s.split(',')[1]`: the text between the first and second comma, or to the end. */
  function SecondField(s: string): (r: Option<string>)
    ensures r.None? <==> Lacks(s, ',')
    ensures r.Some? ==> Lacks(r.value, ',')
    ensures r.Some? ==>
      exists i :: 0 <= i < |s| && s[i] == ',' && Lacks(s[..i], ',')
        && i + 1 + |r.value| <= |s| && s[i + 1..i + 1 + |r.value|] == r.value
        && (i + 1 + |r.value| == |s| || s[i + 1 + |r.value|] == ',')
  {
    match IndexOf(s, ',')
    case None => None
    case Some(i) =>
      var rest := s[i + 1..];
      match IndexOf(rest, ',')
      case None =>
        assert s[i + 1..i + 1 + |rest|] == rest;
        Some(rest)
      case Some(j) =>
        assert s[i + 1..i + 1 + j] == rest[..j] && s[i + 1 + j] == rest[j];
        Some(rest[..j])
  }

  /** `s.split(',')[1] || s`: drops a `data:` URL header, keeps anything else. */
  function StripDataUrlPrefix(s: string): (r: string)
    ensures Lacks(s, ',') ==> r == s
    ensures r != s ==> r != "" && Lacks(r, ',') && SecondField(s) == Some(r)
    ensures SecondField(s).Some? && SecondField(s).value != "" ==> r == SecondField(s).value
  {
    match SecondField(s)
    case Some(field) => if field != "" then field else s
    case None => s
  }

  /** The payload after the header's one comma is what stripping returns. */
  lemma {:induction false} StripAfterHeader(header: string, payload: string)
    requires Lacks(header, ',') && Lacks(payload, ',') && payload != ""
    ensures StripDataUrlPrefix(header + "," + payload) == payload
  {
    var s := header + "," + payload;
    assert s == header + ("," + payload);
    IndexOfAfter(header, "," + payload, ',');
    assert s[|header| + 1..] == payload;
    assert IndexOf(payload, ',') == None;
    assert SecondField(s) == Some(payload);
  }

  lemma {:induction false} IndexOfAfter(a: string, b: string, c: char)
    requires Lacks(a, c) && b != [] && b[0] == c
    ensures IndexOf(a + b, c) == Some(|a|)
    decreases |a|
  {
    if a == [] {
      assert a + b == b;
    } else {
      assert (a + b)[1..] == a[1..] + b;
      IndexOfAfter(a[1..], b, c);
    }
  }
}
