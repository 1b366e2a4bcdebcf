/**
 * The two JavaScript string built-ins the task entity depends on:
 * `String.prototype.trim` and the `length` property, which counts
 * UTF-16 code units rather than code points.
 */
module JsString {

  /** The code points `trim` removes: ECMAScript's WhiteSpace (tab, vertical tab,
      form feed, the byte order mark and every space separator) and its
      LineTerminator set (line feed, carriage return, U+2028, U+2029). */
  predicate IsTrimSpace(c: char)
  {
    c == '\t' || c == '\n' || c == '\U{000B}' || c == '\U{000C}' || c == '\r' ||
    c == ' ' || c == '\U{00A0}' || c == '\U{1680}' || ('\U{2000}' <= c <= '\U{200A}') ||
    c == '\U{2028}' || c == '\U{2029}' || c == '\U{202F}' || c == '\U{205F}' ||
    c == '\U{3000}' || c == '\U{FEFF}'
  }

  ghost predicate AllSpace(s: string)
  {
    forall i :: 0 <= i < |s| ==> IsTrimSpace(s[i])
  }

  /** Neither the first nor the last character is white space. */
  ghost predicate NoEdgeSpace(s: string)
  {
    s != [] ==> !IsTrimSpace(s[0]) && !IsTrimSpace(s[|s| - 1])
  }

  /** The reference meaning of trimming: `r` is what is left of `s` once a
      run of white space is cut from each end and nothing else. */
  ghost predicate TrimmedFrom(r: string, s: string)
  {
    exists i, j :: 0 <= i <= j <= |s| && r == s[i..j] &&
      AllSpace(s[..i]) && AllSpace(s[j..]) && NoEdgeSpace(r)
  }

  /** `s` without its leading white space. */
  function TrimStart(s: string): (r: string)
    ensures |r| <= |s| && r == s[|s| - |r|..]
    ensures AllSpace(s[..|s| - |r|])
    ensures r != [] ==> !IsTrimSpace(r[0])
  {
    if s != [] && IsTrimSpace(s[0]) then TrimStart(s[1..]) else s
  }

  /** `s` without its trailing white space. */
  function TrimEnd(s: string): (r: string)
    ensures |r| <= |s| && r == s[..|r|]
    ensures AllSpace(s[|r|..])
    ensures r != [] ==> !IsTrimSpace(r[|r| - 1])
  {
    if s != [] && IsTrimSpace(s[|s| - 1]) then TrimEnd(s[..|s| - 1]) else s
  }

  /** `s.trim()`. */
  function Trim(s: string): (r: string)
    ensures |r| <= |s|
    ensures NoEdgeSpace(r)
    ensures r == [] <==> AllSpace(s)
  {
    TrimEnd(TrimStart(s))
  }

  /** Trim meets its reference meaning. */
  lemma TrimIsTrimmedFrom(s: string)
    ensures TrimmedFrom(Trim(s), s)
  {
    var a := TrimStart(s);
    var i := |s| - |a|;
    var r := TrimEnd(a);
    var j := i + |r|;
    assert r == s[i..j];
    assert s[j..] == a[|r|..];
  }

  /** Cutting leading white space stops at the first other character. */
  lemma {:induction false} TrimStartStopsAt(s: string, i: nat)
    requires i <= |s| && AllSpace(s[..i])
    requires i < |s| ==> !IsTrimSpace(s[i])
    ensures TrimStart(s) == s[i..]
  {
    if i > 0 {
      assert IsTrimSpace(s[..i][0]);
      assert s[1..][..i - 1] == s[1..i] && s[1..i] == s[..i][1..];
      TrimStartStopsAt(s[1..], i - 1);
      assert s[1..][i - 1..] == s[i..];
    }
  }

  /** Cutting trailing white space stops at the last other character. */
  lemma {:induction false} TrimEndStopsAt(s: string, j: nat)
    requires j <= |s| && AllSpace(s[j..])
    requires j > 0 ==> !IsTrimSpace(s[j - 1])
    ensures TrimEnd(s) == s[..j]
  {
    if j < |s| {
      assert IsTrimSpace(s[j..][|s| - 1 - j]);
      var t := s[..|s| - 1];
      assert t[j..] == s[j..][..|s| - 1 - j];
      TrimEndStopsAt(t, j);
      assert t[..j] == s[..j];
    }
  }

  /** Slicing a suffix of `s` is slicing `s`. */
  lemma SliceOfSuffix(s: string, i: nat, j: nat)
    requires i <= j <= |s|
    ensures s[i..][..j - i] == s[i..j] && s[i..][j - i..] == s[j..]
  {
    assert |s[i..][..j - i]| == |s[i..j]|;
    forall k | 0 <= k < j - i ensures s[i..][..j - i][k] == s[i..j][k] { }
  }

  /** Trimming a string made of white space, a middle part that neither starts
      nor ends with white space, and white space again gives the middle part. */
  lemma TrimOfPadded(s: string, i: nat, j: nat)
    requires i < j <= |s| && AllSpace(s[..i]) && AllSpace(s[j..]) && NoEdgeSpace(s[i..j])
    ensures Trim(s) == s[i..j]
  {
    SliceOfSuffix(s, i, j);
    var a, m := s[i..], s[i..j];
    assert !IsTrimSpace(s[i]) by { assert s[i] == m[0]; }
    TrimStartStopsAt(s, i);
    assert !IsTrimSpace(a[j - i - 1]) by { assert a[j - i - 1] == m[j - i - 1]; }
    TrimEndStopsAt(a, j - i);
  }

  /** A string that neither starts nor ends with white space is its own trim. */
  lemma TrimOfUnpadded(s: string)
    requires NoEdgeSpace(s)
    ensures Trim(s) == s
  {
    if s != [] {
      assert s[..0] == [] && s[|s|..] == [] && s[0..|s|] == s;
      TrimOfPadded(s, 0, |s|);
    }
  }

  /** A string cut into two all-white-space parts is all white space. */
  lemma AllSpaceOfCuts(s: string, i: nat)
    requires i <= |s| && AllSpace(s[..i]) && AllSpace(s[i..])
    ensures AllSpace(s)
  {
    forall k | 0 <= k < |s| ensures IsTrimSpace(s[k]) {
      if k < i { assert s[..i][k] == s[k]; } else { assert s[i..][k - i] == s[k]; }
    }
  }

  /** The reference meaning determines the result: whatever is trimmed from
      `s` in that sense is exactly `Trim(s)`. */
  lemma TrimUnique(r: string, s: string)
    requires TrimmedFrom(r, s)
    ensures Trim(s) == r
  {
    var i, j :| 0 <= i <= j <= |s| && r == s[i..j] &&
      AllSpace(s[..i]) && AllSpace(s[j..]) && NoEdgeSpace(r);
    if i == j {
      AllSpaceOfCuts(s, i);
    } else {
      TrimOfPadded(s, i, j);
    }
  }

  /** Trimming twice is trimming once. */
  lemma TrimIdempotent(s: string)
    ensures Trim(Trim(s)) == Trim(s)
  {
    var r := Trim(s);
    assert TrimmedFrom(r, r) by {
      assert r == r[0..|r|] && r[..0] == [] && r[|r|..] == [];
    }
    TrimUnique(r, r);
  }

  /** The JavaScript `length` of `s`: code points above U+FFFF are stored as a
      surrogate pair and count twice. Dafny's `char` holds only Unicode scalar
      values, so a JavaScript string with an unpaired surrogate has no
      counterpart here. */
  function Utf16Length(s: string): (n: nat)
    ensures |s| <= n <= 2 * |s|
  {
    if s == [] then 0 else (if s[0] as int > 0xFFFF then 2 else 1) + Utf16Length(s[1..])
  }

  /** The JavaScript length adds up over concatenation, one code unit for each
      code point in the Basic Multilingual Plane and two for each above it. */
  lemma {:induction false} Utf16LengthOfConcat(a: string, b: string)
    ensures Utf16Length(a + b) == Utf16Length(a) + Utf16Length(b)
    ensures |a| == 1 ==> Utf16Length(a) == if a[0] as int > 0xFFFF then 2 else 1
  {
    if a == [] {
      assert a + b == b;
    } else {
      assert (a + b)[1..] == a[1..] + b;
      Utf16LengthOfConcat(a[1..], b);
    }
  }

  /** The JavaScript length is the number of code points exactly when every
      code point lies in the Basic Multilingual Plane. */
  lemma {:induction false} Utf16LengthOfBmp(s: string)
    ensures Utf16Length(s) == |s| <==> forall i :: 0 <= i < |s| ==> s[i] as int <= 0xFFFF
  {
    if s != [] {
      Utf16LengthOfBmp(s[1..]);
      assert forall i :: 1 <= i < |s| ==> s[i] == s[1..][i - 1];
    }
  }
}
