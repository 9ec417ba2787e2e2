/** The string operations of JavaScript that the browser forms rely on:
    `String.prototype.trim`, the `\S+@\S+\.\S+` test, `Array.prototype.join`
    and `String.prototype.split` with a one-character separator. */
module Text {
  import opened Seqs

  /** The characters JavaScript's `trim` removes and `\s` matches: the
      WhiteSpace and LineTerminator code points of ECMAScript. */
  predicate IsSpace(c: char)
  {
    || c == '\t' || c == '\n' || c == '\U{000B}' || c == '\U{000C}' || c == '\r' || c == ' '
    || c == '\U{00A0}' || c == '\U{1680}' || ('\U{2000}' <= c <= '\U{200A}')
    || c == '\U{2028}' || c == '\U{2029}' || c == '\U{202F}' || c == '\U{205F}'
    || c == '\U{3000}' || c == '\U{FEFF}'
  }

  /** Every character is white space (the empty string included). */
  predicate Blank(s: string)
  {
    forall k :: 0 <= k < |s| ==> IsSpace(s[k])
  }

  /** How many white-space characters `s` starts with. */
  function LeadingSpaces(s: string): (n: nat)
    ensures n <= |s| && Blank(s[..n])
    ensures n < |s| ==> !IsSpace(s[n])
  {
    if s == [] || !IsSpace(s[0]) then 0
    else
      var m := LeadingSpaces(s[1..]);
      assert s[..m + 1] == [s[0]] + s[1..][..m];
      m + 1
  }

  /** How many white-space characters `s` ends with. */
  function TrailingSpaces(s: string): (n: nat)
    ensures n <= |s| && Blank(s[|s| - n..])
    ensures n < |s| ==> !IsSpace(s[|s| - n - 1])
  {
    if s == [] || !IsSpace(Last(s)) then 0
    else
      var m := TrailingSpaces(Init(s));
      var tail := s[|s| - (m + 1)..];
      assert Blank(tail) by {
        forall k | 0 <= k < |tail| ensures IsSpace(tail[k]) {
          if k < m {
            assert tail[k] == Init(s)[|Init(s)| - m..][k];
          } else {
            assert tail[k] == Last(s);
          }
        }
      }
      assert m + 1 < |s| ==> s[|s| - (m + 1) - 1] == Init(s)[|Init(s)| - m - 1];
      m + 1
  }

  /** `s.trim()`: `s` without its leading and trailing white space. */
  function Trim(s: string): (r: string)
    ensures r == [] || (!IsSpace(r[0]) && !IsSpace(r[|r| - 1]))
    ensures exists i :: 0 <= i <= |s| - |r| && r == s[i..i + |r|] && Blank(s[..i]) && Blank(s[i + |r|..])
  {
    var i := LeadingSpaces(s);
    var t := s[i..];
    var n := TrailingSpaces(t);
    var r := t[..|t| - n];
    assert r != [] ==> r[0] == s[i] && r[|r| - 1] == t[|t| - n - 1];
    assert r == s[i..i + |r|] && s[i + |r|..] == t[|t| - n..];
    assert Blank(s[..i]) && Blank(s[i + |r|..]);
    r
  }

  /** A string trims to nothing exactly when it is all white space. */
  lemma TrimEmptyIffBlank(s: string)
    ensures Trim(s) == [] <==> Blank(s)
  {
    var i :| 0 <= i <= |s| - |Trim(s)| && Trim(s) == s[i..i + |Trim(s)|] && Blank(s[..i]) && Blank(s[i + |Trim(s)|..]);
    if Trim(s) == [] {
      forall k | 0 <= k < |s| ensures IsSpace(s[k]) {
        if k < i {
          assert s[k] == s[..i][k];
        } else {
          assert s[k] == s[i..][k - i];
        }
      }
    } else {
      assert s[i] == Trim(s)[0];
    }
  }

  /** Trimming twice is trimming once. */
  lemma TrimIdempotent(s: string)
    ensures Trim(Trim(s)) == Trim(s)
  {
    var r := Trim(s);
    if r != [] {
      assert LeadingSpaces(r) == 0;
      assert r[0..] == r;
      assert TrailingSpaces(r) == 0;
    }
  }

  // ---------------------------------------------------------------------------
  // The email pattern
  // ---------------------------------------------------------------------------

  /** `s[lo..hi]` holds no white space. */
  predicate NonSpaceRun(s: string, lo: int, hi: int)
    requires 0 <= lo <= hi <= |s|
  {
    forall k :: lo <= k < hi ==> !IsSpace(s[k])
  }

  /** `\S+@\S+\.\S+` matches with its '@' at `j` and its '.' at `k`: one
      non-space before the '@' suffices for the first run, the run between
      the two is non-empty and free of white space, and one non-space follows
      the '.'. */
  predicate EmailAt(s: string, j: int, k: int)
  {
    && 1 <= j && j + 2 <= k && k + 1 < |s|
    && s[j] == '@' && s[k] == '.'
    && !IsSpace(s[j - 1]) && NonSpaceRun(s, j + 1, k) && !IsSpace(s[k + 1])
  }

  /** `/\S+@\S+\.\S+/.test(s)`: the pattern is not anchored, so it matches
      anywhere in the string. */
  predicate HasEmailShape(s: string)
  {
    exists j, k | 0 <= j < |s| && 0 <= k < |s| :: EmailAt(s, j, k)
  }

  /** Being unanchored, the test still passes with any text around a match. */
  lemma EmailShapeInContext(p: string, s: string, q: string)
    requires HasEmailShape(s)
    ensures HasEmailShape(p + s + q)
  {
    var j, k :| EmailAt(s, j, k);
    var t := p + s + q;
    var d := |p|;
    assert EmailAt(s, j, k);
    assert t[d + j] == s[j] && t[d + k] == s[k] && t[d + j - 1] == s[j - 1] && t[d + k + 1] == s[k + 1];
    assert NonSpaceRun(t, d + j + 1, d + k) by {
      forall x | d + j + 1 <= x < d + k ensures !IsSpace(t[x]) {
        assert t[x] == s[x - d];
      }
    }
    assert EmailAt(t, d + j, d + k);
  }

  /** A string the test accepts is not blank. */
  lemma EmailShapeNotBlank(s: string)
    requires HasEmailShape(s)
    ensures !Blank(s)
  {
    var j, k :| EmailAt(s, j, k);
  }

  /** Inputs the test accepts: a plain address, one with spaces around it,
      and one a stricter rule would refuse. */
  lemma EmailShapeAccepted()
    ensures HasEmailShape("ann@shop.in")
    ensures HasEmailShape(" ann@shop.in ")
    ensures HasEmailShape("x@@.y")
  {
    assert EmailAt("ann@shop.in", 3, 8);
    assert EmailAt(" ann@shop.in ", 4, 9);
    assert EmailAt("x@@.y", 1, 3);
  }

  /** An address without a dot after the '@' is refused. */
  lemma EmailWithoutDotRejected()
    ensures !HasEmailShape("ann@shop")
  {
    var s := "ann@shop";
    forall j, k | 0 <= j < |s| && 0 <= k < |s| ensures !EmailAt(s, j, k) {
      if 1 <= j && j + 2 <= k && k + 1 < |s| {
        assert s[k] != '.';
      }
    }
  }

  /** An address with nothing between the '@' and the dot is refused. */
  lemma EmailWithEmptyDomainRejected()
    ensures !HasEmailShape("ann@.in")
  {
    var s := "ann@.in";
    forall j, k | 0 <= j < |s| && 0 <= k < |s| ensures !EmailAt(s, j, k) {
      if 1 <= j && j + 2 <= k && k + 1 < |s| {
        if j < 3 {
          assert s[j] == 'n';
        } else {
          assert k == 5 && s[k] == 'i';
        }
      }
    }
  }

  // ---------------------------------------------------------------------------
  // Joining and splitting
  // ---------------------------------------------------------------------------

  /** `parts.join(sep)`. */
  function Join(parts: seq<string>, sep: char): (r: string)
    requires parts != []
    ensures |parts| == 1 ==> r == parts[0]
  {
    if |parts| == 1 then parts[0] else Join(Init(parts), sep) + [sep] + Last(parts)
  }

  /** `s.split(sep)`: the pieces between separators, always at least one. */
  function Split(s: string, sep: char): (parts: seq<string>)
    ensures parts != []
  {
    if s == [] then [[]]
    else
      var p := Split(Init(s), sep);
      if Last(s) == sep then p + [[]] else Init(p) + [Last(p) + [Last(s)]]
  }

  /** A piece with no separator splits into itself. */
  lemma {:induction false} SplitNoSep(b: string, sep: char)
    requires sep !in b
    ensures Split(b, sep) == [b]
  {
    if b != [] {
      assert sep !in Init(b) by {
        assert forall x :: x in Init(b) ==> x in b;
      }
      SplitNoSep(Init(b), sep);
      assert b == Init(b) + [Last(b)];
    }
  }

  /** Splitting after a separator starts a new piece. */
  lemma {:induction false} SplitAfterSep(a: string, b: string, sep: char)
    requires sep !in b
    ensures Split(a + [sep] + b, sep) == Split(a, sep) + [b]
  {
    if b == [] {
      assert a + [sep] + b == a + [sep];
      assert Init(a + [sep]) == a;
    } else {
      var s := a + [sep] + b;
      assert Init(s) == a + [sep] + Init(b) && Last(s) == Last(b);
      assert sep !in Init(b) by {
        assert forall x :: x in Init(b) ==> x in b;
      }
      SplitAfterSep(a, Init(b), sep);
      assert Last(b) != sep by {
        assert Last(b) in b;
      }
      assert b == Init(b) + [Last(b)];
    }
  }

  /** Splitting a join on the same separator gives back the pieces, when no
      piece contains the separator. */
  lemma {:induction false} SplitJoin(parts: seq<string>, sep: char)
    requires parts != []
    requires forall i :: 0 <= i < |parts| ==> sep !in parts[i]
    ensures Split(Join(parts, sep), sep) == parts
  {
    if |parts| == 1 {
      SplitNoSep(parts[0], sep);
    } else {
      assert forall i :: 0 <= i < |Init(parts)| ==> Init(parts)[i] == parts[i];
      SplitJoin(Init(parts), sep);
      assert Last(parts) == parts[|parts| - 1];
      SplitAfterSep(Join(Init(parts), sep), Last(parts), sep);
      assert parts == Init(parts) + [Last(parts)];
    }
  }
}
