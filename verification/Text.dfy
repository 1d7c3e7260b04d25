/** The string helpers the services use to normalise codes and compare names:
    `strings.TrimSpace`, and the ASCII part of `strings.ToUpper` and
    `strings.EqualFold`. */
module Text {

  /** Unicode white space, as the language's `unicode.IsSpace` defines it. */
  predicate IsSpace(c: char) {
    || c == ' ' || '\t' <= c <= '\r' || c == '\U{85}' || c == '\U{A0}' || c == '\U{1680}'
    || '\U{2000}' <= c <= '\U{200A}' || c == '\U{2028}' || c == '\U{2029}' || c == '\U{202F}'
    || c == '\U{205F}' || c == '\U{3000}'
  }

  function TrimLeft(s: string): string {
    if s != [] && IsSpace(s[0]) then TrimLeft(s[1..]) else s
  }

  function TrimRight(s: string): string {
    if s != [] && IsSpace(s[|s| - 1]) then TrimRight(s[..|s| - 1]) else s
  }

  function TrimSpace(s: string): string {
    TrimRight(TrimLeft(s))
  }

  function UpperChar(c: char): char {
    if 'a' <= c <= 'z' then ((c as int) - 32) as char else c
  }

  function ToUpper(s: string): string {
    seq(|s|, i requires 0 <= i < |s| => UpperChar(s[i]))
  }

  /** The form in which every code is stored and looked up. */
  function Canon(s: string): string {
    ToUpper(TrimSpace(s))
  }

  /** Two characters that differ at most in ASCII case. */
  predicate SameLetter(x: char, y: char) {
    || x == y
    || ('A' <= x <= 'Z' && y as int == x as int + 32)
    || ('A' <= y <= 'Z' && x as int == y as int + 32)
  }

  predicate EqualFold(a: string, b: string) {
    |a| == |b| && forall i :: 0 <= i < |a| ==> SameLetter(a[i], b[i])
  }

  /** The 25 white-space code points of Unicode. */
  lemma WhiteSpace(c: char)
    ensures IsSpace(c) <==>
            c as int in {9, 10, 11, 12, 13, 32, 133, 160, 5760, 8192, 8193, 8194, 8195, 8196, 8197, 8198, 8199, 8200,
                         8201, 8202, 8232, 8233, 8239, 8287, 12288}
  {
  }

  /** Upper case: small letters become capitals, everything else stays. */
  lemma UpperCase(s: string, i: nat)
    requires i < |s|
    ensures |ToUpper(s)| == |s|
    ensures if 97 <= s[i] as int <= 122 then ToUpper(s)[i] as int == s[i] as int - 32 else ToUpper(s)[i] == s[i]
  {
  }

  // ---------------------------------------------------------------- trimming

  predicate Trimmed(s: string) {
    s != [] ==> !IsSpace(s[0]) && !IsSpace(s[|s| - 1])
  }

  /** `TrimLeft` keeps a suffix: it drops exactly the leading whitespace. */
  lemma {:induction false} TrimLeftDrops(s: string)
    ensures var n := |s| - |TrimLeft(s)|;
            && 0 <= n <= |s| && TrimLeft(s) == s[n..]
            && (forall i :: 0 <= i < n ==> IsSpace(s[i]))
            && (n < |s| ==> !IsSpace(s[n]))
  {
    if s == [] || !IsSpace(s[0]) {
    } else {
      var rest := s[1..];
      TrimLeftDrops(rest);
      var n := |rest| - |TrimLeft(rest)|;
      assert rest[n..] == s[n + 1..];
      forall i | 0 <= i < n + 1 ensures IsSpace(s[i]) {
        if i > 0 { assert s[i] == rest[i - 1]; }
      }
    }
  }

  /** `TrimRight` keeps a prefix: it drops exactly the trailing whitespace. */
  lemma {:induction false} TrimRightDrops(s: string)
    ensures var n := |TrimRight(s)|;
            && n <= |s| && TrimRight(s) == s[..n]
            && (forall i :: n <= i < |s| ==> IsSpace(s[i]))
            && (n > 0 ==> !IsSpace(s[n - 1]))
  {
    if s == [] || !IsSpace(s[|s| - 1]) {
    } else {
      var rest := s[..|s| - 1];
      TrimRightDrops(rest);
      var n := |TrimRight(rest)|;
      assert rest[..n] == s[..n];
      forall i | n <= i < |s| ensures IsSpace(s[i]) {
        if i < |s| - 1 { assert s[i] == rest[i]; }
      }
    }
  }

  /** The trimmed text is a slice of the input, everything outside it is
      whitespace, and neither of its ends is. */
  lemma TrimSpaceSlices(s: string) returns (lo: nat, hi: nat)
    ensures lo <= hi <= |s| && TrimSpace(s) == s[lo..hi]
    ensures forall i :: 0 <= i < lo || hi <= i < |s| ==> IsSpace(s[i])
    ensures Trimmed(TrimSpace(s))
  {
    var left := TrimLeft(s);
    TrimLeftDrops(s);
    TrimRightDrops(left);
    lo := |s| - |left|;
    hi := lo + |TrimRight(left)|;
    assert s[lo..][..hi - lo] == s[lo..hi];
    forall i | hi <= i < |s| ensures IsSpace(s[i]) {
      assert s[i] == left[i - lo];
    }
  }

  lemma TrimmedIsFixed(s: string)
    requires Trimmed(s)
    ensures TrimSpace(s) == s
  {
  }

  // ---------------------------------------------------- canonical codes, folding

  lemma UpperKeepsTrimmed(t: string)
    requires Trimmed(t)
    ensures Trimmed(ToUpper(t))
  {
    if t != [] {
      assert ToUpper(t)[0] == UpperChar(t[0]);
      assert ToUpper(t)[|t| - 1] == UpperChar(t[|t| - 1]);
    }
  }

  lemma UpperIdempotent(t: string)
    ensures ToUpper(ToUpper(t)) == ToUpper(t)
  {
    forall i | 0 <= i < |t| ensures ToUpper(ToUpper(t))[i] == ToUpper(t)[i] {
      assert UpperChar(UpperChar(t[i])) == UpperChar(t[i]);
    }
  }

  /** Storing a code and looking it up agree: normalising twice changes nothing. */
  lemma CanonIdempotent(s: string)
    ensures Canon(Canon(s)) == Canon(s)
  {
    var t := TrimSpace(s);
    var _, _ := TrimSpaceSlices(s);
    UpperKeepsTrimmed(t);
    TrimmedIsFixed(ToUpper(t));
    UpperIdempotent(t);
  }

  lemma EqualFoldIsSameUpper(a: string, b: string)
    ensures EqualFold(a, b) <==> ToUpper(a) == ToUpper(b)
  {
    if ToUpper(a) == ToUpper(b) {
      assert |a| == |ToUpper(a)| == |b|;
      forall i | 0 <= i < |a| ensures SameLetter(a[i], b[i]) {
        assert ToUpper(a)[i] == ToUpper(b)[i];
      }
    }
    if EqualFold(a, b) {
      assert forall i :: 0 <= i < |a| ==> SameLetter(a[i], b[i]) && ToUpper(a)[i] == ToUpper(b)[i];
    }
  }

  lemma EqualFoldEquivalence(a: string, b: string, c: string)
    ensures EqualFold(a, a)
    ensures EqualFold(a, b) ==> EqualFold(b, a)
    ensures EqualFold(a, b) && EqualFold(b, c) ==> EqualFold(a, c)
  {
    EqualFoldIsSameUpper(a, b);
    EqualFoldIsSameUpper(b, c);
    EqualFoldIsSameUpper(a, c);
  }

  /** Comparing a user's code with a stored one up to case is the same test as
      normalising it and comparing exactly. */
  lemma FoldMatchesStoredCode(typed: string, stored: string)
    requires Canon(stored) == stored
    ensures EqualFold(TrimSpace(typed), stored) <==> Canon(typed) == stored
  {
    EqualFoldIsSameUpper(TrimSpace(typed), stored);
    UpperIdempotent(TrimSpace(stored));
  }
}
