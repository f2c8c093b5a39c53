/**
 * JavaScript's `String.prototype.trim`: strip the white space and line
 * terminators defined by ECMAScript (sections 12.2 and 12.3 of ECMA-262) from
 * both ends of a string.  The prompt assembly in the coach handler trims every
 * stored message with it.
 */
module JsText {

  /** ECMAScript WhiteSpace (TAB, VT, FF, ZWNBSP and every Zs code point) or LineTerminator. */
  predicate IsSpace(c: char) {
    var n := c as int;
    n == 0x09 || n == 0x0B || n == 0x0C || n == 0x20 || n == 0xA0 || n == 0xFEFF
    || n == 0x1680 || (0x2000 <= n <= 0x200A) || n == 0x202F || n == 0x205F || n == 0x3000
    || n == 0x0A || n == 0x0D || n == 0x2028 || n == 0x2029
  }

  /** Every character of `s` is white space. */
  predicate AllSpace(s: string) {
    forall j :: 0 <= j < |s| ==> IsSpace(s[j])
  }

  /** `s` neither starts nor ends with white space. */
  predicate NoEdgeSpace(s: string) {
    s == [] || (!IsSpace(s[0]) && !IsSpace(s[|s| - 1]))
  }

  /** `r` is `s` with a white-space prefix and a white-space suffix cut off. */
  ghost predicate TrimmedFrom(s: string, r: string) {
    exists i :: 0 <= i && i + |r| <= |s| && s[i..i + |r|] == r
                && AllSpace(s[..i]) && AllSpace(s[i + |r|..])
  }

  /** Leading white space removed: the result is a suffix of `s` and nothing before it is kept. */
  function TrimStart(s: string): (r: string)
    ensures |r| <= |s| && r == s[|s| - |r|..]
    ensures AllSpace(s[..|s| - |r|])
    ensures r == [] || !IsSpace(r[0])
  {
    if |s| > 0 && IsSpace(s[0]) then
      var t := TrimStart(s[1..]);
      var w := s[..|s| - |t|];
      assert AllSpace(w) by {
        forall j | 0 <= j < |w| ensures IsSpace(w[j]) {
          if j > 0 {
            assert w[j] == s[1..][..|s| - 1 - |t|][j - 1];
          }
        }
      }
      t
    else s
  }

  /** Trailing white space removed: the result is a prefix of `s` and nothing after it is kept. */
  function TrimEnd(s: string): (r: string)
    ensures |r| <= |s| && r == s[..|r|]
    ensures AllSpace(s[|r|..])
    ensures r == [] || !IsSpace(r[|r| - 1])
  {
    if |s| > 0 && IsSpace(s[|s| - 1]) then
      var p := s[..|s| - 1];
      var t := TrimEnd(p);
      var w := s[|t|..];
      assert AllSpace(w) by {
        forall j | 0 <= j < |w| ensures IsSpace(w[j]) {
          if j < |w| - 1 {
            assert w[j] == p[|t|..][j];
          }
        }
      }
      t
    else s
  }

  /** `s.trim()`. */
  function Trim(s: string): (r: string)
    ensures NoEdgeSpace(r) && |r| <= |s|
  {
    TrimEnd(TrimStart(s))
  }

  /** What Trim removes is white space at the two ends and nothing else. */
  lemma TrimCutsEdges(s: string)
    ensures TrimmedFrom(s, Trim(s))
  {
    var t := TrimStart(s);
    var r := TrimEnd(t);
    var i := |s| - |t|;
    assert s[i..i + |r|] == r;
    assert s[i + |r|..] == t[|r|..];
    Witness(s, r, i);
  }

  /** A cut position that shows `TrimmedFrom`. */
  lemma Witness(s: string, r: string, i: nat)
    requires i + |r| <= |s| && s[i..i + |r|] == r && AllSpace(s[..i]) && AllSpace(s[i + |r|..])
    ensures TrimmedFrom(s, r)
  {
  }

  /** Whatever ends at the first character that is not white space is what TrimStart keeps. */
  lemma {:induction false} TrimStartAt(s: string, i: nat)
    requires i <= |s| && AllSpace(s[..i]) && (i < |s| ==> !IsSpace(s[i]))
    ensures TrimStart(s) == s[i..]
  {
    if i > 0 {
      assert s[..i][0] == s[0];
      var q := s[1..][..i - 1];
      assert AllSpace(q) by {
        forall j | 0 <= j < |q| ensures IsSpace(q[j]) {
          assert q[j] == s[..i][j + 1];
        }
      }
      TrimStartAt(s[1..], i - 1);
      assert s[1..][i - 1..] == s[i..];
    }
  }

  /** Whatever starts after the last character that is not white space is what TrimEnd drops. */
  lemma {:induction false} TrimEndAt(s: string, e: nat)
    requires e <= |s| && AllSpace(s[e..]) && (e > 0 ==> !IsSpace(s[e - 1]))
    ensures TrimEnd(s) == s[..e]
  {
    if e < |s| {
      assert s[e..][|s| - 1 - e] == s[|s| - 1];
      var p := s[..|s| - 1];
      assert AllSpace(p[e..]) by {
        forall j | 0 <= j < |p| - e ensures IsSpace(p[e..][j]) {
          assert p[e..][j] == s[e..][j];
        }
      }
      TrimEndAt(p, e);
      assert p[..e] == s[..e];
    }
  }

  /** A white-space prefix followed by a white-space suffix is all white space. */
  lemma AllSpaceJoin(s: string, i: nat)
    requires i <= |s| && AllSpace(s[..i]) && AllSpace(s[i..])
    ensures AllSpace(s[..|s|])
  {
    forall j | 0 <= j < |s| ensures IsSpace(s[j]) {
      if j < i {
        assert s[j] == s[..i][j];
      } else {
        assert s[j] == s[i..][j - i];
      }
    }
    assert s[..|s|] == s;
  }

  /** Cutting white space at a known position that leaves no white space at the ends is Trim. */
  lemma {:induction false} TrimAt(s: string, r: string, i: nat)
    requires i + |r| <= |s| && s[i..i + |r|] == r && AllSpace(s[..i]) && AllSpace(s[i + |r|..])
    requires NoEdgeSpace(r)
    ensures r == Trim(s)
  {
    if r == [] {
      AllSpaceJoin(s, i);
      TrimStartAt(s, |s|);
    } else {
      assert s[i] == r[0];
      TrimStartAt(s, i);
      var u := s[i..];
      assert u[|r|..] == s[i + |r|..];
      assert u[|r| - 1] == r[|r| - 1];
      TrimEndAt(u, |r|);
      assert u[..|r|] == r;
    }
  }

  /**
   * Trim is determined by its contract: the only string obtained from `s` by
   * cutting white space off both ends that has no white space at its ends
   * is `Trim(s)`.
   */
  lemma TrimCharacterization(s: string, r: string)
    requires TrimmedFrom(s, r) && NoEdgeSpace(r)
    ensures r == Trim(s)
  {
    var i :| 0 <= i && i + |r| <= |s| && s[i..i + |r|] == r && AllSpace(s[..i]) && AllSpace(s[i + |r|..]);
    TrimAt(s, r, i);
  }

  /** Trimming twice is trimming once. */
  lemma TrimIdempotent(s: string)
    ensures Trim(Trim(s)) == Trim(s)
  {
    var t := Trim(s);
    assert t[0..0 + |t|] == t && t[..0] == [] && t[0 + |t|..] == [];
    TrimAt(t, t, 0);
  }

  /** A string without white space at its ends is left as it is. */
  lemma TrimKeepsClean(s: string)
    requires NoEdgeSpace(s)
    ensures Trim(s) == s
  {
    assert s[0..0 + |s|] == s && s[..0] == [] && s[0 + |s|..] == [];
    TrimAt(s, s, 0);
  }
}
