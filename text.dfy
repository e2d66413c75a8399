/**
 String primitives the client code relies on, with the semantics of the
 JavaScript built-ins it calls: `String.prototype.trim`, the `\s` class of
 regular expressions, `.length` (UTF-16 code units) and `split('.').pop()`.
 */
module Text {

  /** The characters JavaScript counts as white space: the `\s` class, which is
      also exactly the set `trim` strips (WhiteSpace plus LineTerminator). */
  predicate IsSpace(c: char)
  {
    c == '\t' || c == '\n' || c == '\U{000B}' || c == '\U{000C}' || c == '\r' || c == ' ' ||
    c == '\U{00A0}' || c == '\U{1680}' || ('\U{2000}' <= c <= '\U{200A}') ||
    c == '\U{2028}' || c == '\U{2029}' || c == '\U{202F}' || c == '\U{205F}' ||
    c == '\U{3000}' || c == '\U{FEFF}'
  }

  /** True when `s` holds at least one character that is not white space. */
  predicate HasVisible(s: string)
  {
    exists k :: 0 <= k < |s| && !IsSpace(s[k])
  }

  /** Drops the leading white space. */
  function TrimStart(s: string): string
  {
    if s == [] || !IsSpace(s[0]) then s else TrimStart(s[1..])
  }

  /** Drops the trailing white space. */
  function TrimEnd(s: string): string
  {
    if s == [] || !IsSpace(s[|s| - 1]) then s else TrimEnd(s[..|s| - 1])
  }

  /** `String.prototype.trim`. */
  function Trim(s: string): string
  {
    TrimEnd(TrimStart(s))
  }

  /** `TrimStart` keeps a suffix that does not start with white space, and
      everything it drops is white space. */
  lemma {:induction false} TrimStartShape(s: string)
    ensures var r := TrimStart(s);
      |r| <= |s| && r == s[|s| - |r|..]
      && (forall k :: 0 <= k < |s| - |r| ==> IsSpace(s[k]))
      && (r == [] || !IsSpace(r[0]))
  {
    if s != [] && IsSpace(s[0]) {
      var t := s[1..];
      TrimStartShape(t);
      var r := TrimStart(t);
      assert TrimStart(s) == r;
      assert t[|t| - |r|..] == s[|s| - |r|..];
      forall k | 0 <= k < |s| - |r| ensures IsSpace(s[k]) {
        if k > 0 {
          assert s[k] == t[k - 1];
        }
      }
    }
  }

  /** `TrimEnd` keeps a prefix that does not end with white space, and
      everything it drops is white space. */
  lemma {:induction false} TrimEndShape(s: string)
    ensures var r := TrimEnd(s);
      |r| <= |s| && r == s[..|r|]
      && (forall k :: |r| <= k < |s| ==> IsSpace(s[k]))
      && (r == [] || !IsSpace(r[|r| - 1]))
  {
    if s != [] && IsSpace(s[|s| - 1]) {
      var t := s[..|s| - 1];
      TrimEndShape(t);
      var r := TrimEnd(t);
      assert TrimEnd(s) == r;
      assert t[..|r|] == s[..|r|];
      forall k | |r| <= k < |s| ensures IsSpace(s[k]) {
        if k < |t| {
          assert s[k] == t[k];
        }
      }
    }
  }

  /** `trim` returns the longest slice of `s` that neither starts nor ends
      with white space, everything around it being white space. */
  lemma TrimShape(s: string)
    ensures var i := |s| - |TrimStart(s)|; var r := Trim(s);
      0 <= i && i + |r| <= |s| && r == s[i..i + |r|]
      && (forall k :: 0 <= k < i ==> IsSpace(s[k]))
      && (forall k :: i + |r| <= k < |s| ==> IsSpace(s[k]))
      && (r == [] || (!IsSpace(r[0]) && !IsSpace(r[|r| - 1])))
  {
    var t := TrimStart(s);
    TrimStartShape(s);
    var r := TrimEnd(t);
    TrimEndShape(t);
    var i := |s| - |t|;
    assert t == s[i..];
    assert r == s[i..i + |r|] by {
      assert r == t[..|r|];
    }
    forall k | i + |r| <= k < |s| ensures IsSpace(s[k]) {
      assert s[k] == t[k - i];
    }
  }

  /** `trim` gives the empty string exactly when `s` has no visible
      character. */
  lemma TrimEmptyIffBlank(s: string)
    ensures Trim(s) == [] <==> !HasVisible(s)
  {
    TrimShape(s);
    var i := |s| - |TrimStart(s)|;
    var r := Trim(s);
    if r == [] {
      forall k | 0 <= k < |s| ensures IsSpace(s[k]) {
        if k >= i {
          assert i + |r| <= k;
        }
      }
    } else {
      assert s[i] == r[0];
    }
  }

  /** The number of UTF-16 code units of `s`, which is what JavaScript's
      `.length` reports: characters beyond the Basic Multilingual Plane take two. */
  function Utf16Length(s: string): nat
  {
    if s == [] then 0
    else Utf16Length(s[..|s| - 1]) + (if s[|s| - 1] <= '\U{FFFF}' then 1 else 2)
  }

  /** The code-unit count lies between the number of characters and twice
      that, and equals it for text inside the Basic Multilingual Plane. */
  lemma {:induction false} Utf16LengthBounds(s: string)
    ensures |s| <= Utf16Length(s) <= 2 * |s|
    ensures (forall k :: 0 <= k < |s| ==> s[k] <= '\U{FFFF}') ==> Utf16Length(s) == |s|
  {
    if s != [] {
      Utf16LengthBounds(s[..|s| - 1]);
    }
  }

  /** `s.split('.').pop()`: the text after the last '.', or all of `s` when it
      has no '.'. */
  function AfterLastDot(s: string): string
  {
    if s == [] then []
    else if s[|s| - 1] == '.' then []
    else AfterLastDot(s[..|s| - 1]) + [s[|s| - 1]]
  }

  /** The extension is a dot-free suffix of the name, preceded by a '.' when
      it is shorter than the name, and the whole name when there is no '.'. */
  lemma {:induction false} AfterLastDotSuffix(s: string)
    ensures var r := AfterLastDot(s);
      |r| <= |s| && r == s[|s| - |r|..] && '.' !in r
      && (|r| < |s| ==> s[|s| - |r| - 1] == '.')
      && ('.' !in s ==> r == s)
  {
    if s != [] && s[|s| - 1] != '.' {
      var p := s[..|s| - 1];
      AfterLastDotSuffix(p);
      var q := AfterLastDot(p);
      var c := s[|s| - 1];
      assert AfterLastDot(s) == q + [c];
      assert s == p + [c];
      assert s[|s| - |q| - 1..] == p[|p| - |q|..] + [c];
      if '.' !in s {
        assert '.' !in p;
      }
    }
  }

  /** A name with a '.' is a stem, that '.', and then the extension. */
  lemma AfterLastDotSplits(s: string)
    requires '.' in s
    ensures |AfterLastDot(s)| < |s|
    ensures s == s[..|s| - |AfterLastDot(s)| - 1] + "." + AfterLastDot(s)
  {
    AfterLastDotSuffix(s);
    var r := AfterLastDot(s);
    var i := |s| - |r| - 1;
    assert s == s[..i] + [s[i]] + s[i + 1..];
  }
}
