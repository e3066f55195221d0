/** Python's `str.strip()` and `str.lower()` on the ASCII range, and the
    email normalisation `email.strip().lower()` built from them. */
module Text {

  /** The ASCII characters for which Python's `str.isspace()` holds. */
  predicate IsSpace(c: char) {
    c == ' ' || ('\t' <= c <= '\r') || ('\U{1C}' <= c <= '\U{1F}')
  }

  predicate AllSpace(s: string) {
    forall i :: 0 <= i < |s| ==> IsSpace(s[i])
  }

  /** `s.lstrip()` */
  function StripLeft(s: string): string {
    if s != [] && IsSpace(s[0]) then StripLeft(s[1..]) else s
  }

  /** `s.rstrip()` */
  function StripRight(s: string): string {
    if s != [] && IsSpace(s[|s| - 1]) then StripRight(s[..|s| - 1]) else s
  }

  /** `lstrip` keeps the longest suffix that does not start with white space. */
  lemma {:induction false} StripLeftShape(s: string)
    ensures var r := StripLeft(s);
            && |r| <= |s| && r == s[|s| - |r|..]
            && AllSpace(s[..|s| - |r|])
            && (r == [] || !IsSpace(r[0]))
  {
    if s != [] && IsSpace(s[0]) {
      StripLeftShape(s[1..]);
      var r := StripLeft(s[1..]);
      assert forall i :: 1 <= i < |s| - |r| ==> s[i] == s[1..][i - 1];
    }
  }

  /** `rstrip` keeps the longest prefix that does not end with white space. */
  lemma {:induction false} StripRightShape(s: string)
    ensures var r := StripRight(s);
            && |r| <= |s| && r == s[..|r|]
            && AllSpace(s[|r|..])
            && (r == [] || !IsSpace(r[|r| - 1]))
  {
    if s != [] && IsSpace(s[|s| - 1]) {
      StripRightShape(s[..|s| - 1]);
      var r := StripRight(s[..|s| - 1]);
      assert forall i :: |r| <= i < |s| - 1 ==> s[i] == s[..|s| - 1][i];
    }
  }

  /** `s.strip()` */
  function Strip(s: string): string {
    StripRight(StripLeft(s))
  }

  function LowerChar(c: char): char {
    if 'A' <= c <= 'Z' then (c as int + 32) as char else c
  }

  /** `s.lower()` */
  function Lower(s: string): (r: string)
    ensures |r| == |s| && forall i :: 0 <= i < |s| ==> r[i] == LowerChar(s[i])
  {
    seq(|s|, i requires 0 <= i < |s| => LowerChar(s[i]))
  }

  /** The key under which an email is stored and looked up. */
  function Normalize(email: string): string {
    Lower(Strip(email))
  }

  /** A string with no white space at either end is its own strip. */
  lemma StripOfTrimmed(s: string)
    requires s == [] || (!IsSpace(s[0]) && !IsSpace(s[|s| - 1]))
    ensures Strip(s) == s
  {
  }

  lemma {:induction false} StripLeftLower(s: string)
    ensures StripLeft(Lower(s)) == Lower(StripLeft(s))
  {
    if s != [] {
      assert Lower(s)[0] == LowerChar(s[0]);
      assert Lower(s)[1..] == Lower(s[1..]);
      if IsSpace(s[0]) {
        StripLeftLower(s[1..]);
      }
    }
  }

  lemma {:induction false} StripRightLower(s: string)
    ensures StripRight(Lower(s)) == Lower(StripRight(s))
  {
    if s != [] {
      assert Lower(s)[|s| - 1] == LowerChar(s[|s| - 1]);
      assert Lower(s)[..|s| - 1] == Lower(s[..|s| - 1]);
      if IsSpace(s[|s| - 1]) {
        StripRightLower(s[..|s| - 1]);
      }
    }
  }

  /** Lower-casing never creates or removes white space, so the two
      operations commute. */
  lemma StripLowerCommute(s: string)
    ensures Strip(Lower(s)) == Lower(Strip(s))
  {
    StripLeftLower(s);
    StripRightLower(StripLeft(s));
  }

  lemma LowerIdempotent(s: string)
    ensures Lower(Lower(s)) == Lower(s)
  {
  }

  /** What `Strip` returns has no white space at either end. */
  lemma StripTrimmed(s: string)
    ensures var t := Strip(s); t == [] || (!IsSpace(t[0]) && !IsSpace(t[|t| - 1]))
  {
    var l := StripLeft(s);
    var t := StripRight(l);
    StripLeftShape(s);
    StripRightShape(l);
    if t != [] {
      assert t[0] == l[0];
    }
  }

  /** Normalising twice is normalising once. */
  lemma NormalizeIdempotent(email: string)
    ensures Normalize(Normalize(email)) == Normalize(email)
  {
    var t := Strip(email);
    StripTrimmed(email);
    StripOfTrimmed(t);
    StripLowerCommute(t);
    LowerIdempotent(t);
  }

  /** Letter case does not matter: an email and its lower-cased form have the same key. */
  lemma NormalizeIgnoresCase(email: string)
    ensures Normalize(Lower(email)) == Normalize(email)
  {
    StripLowerCommute(email);
    LowerIdempotent(Strip(email));
  }

  lemma {:induction false} StripLeftPadding(pre: string, s: string)
    requires AllSpace(pre)
    ensures StripLeft(pre + s) == StripLeft(s)
  {
    if pre != [] {
      assert (pre + s)[0] == pre[0];
      assert (pre + s)[1..] == pre[1..] + s;
      StripLeftPadding(pre[1..], s);
    } else {
      assert pre + s == s;
    }
  }

  lemma {:induction false} StripRightPadding(s: string, post: string)
    requires AllSpace(post)
    ensures StripRight(s + post) == StripRight(s)
  {
    if post != [] {
      var n := |post|;
      assert (s + post)[|s| + n - 1] == post[n - 1];
      assert (s + post)[..|s| + n - 1] == s + post[..n - 1];
      StripRightPadding(s, post[..n - 1]);
    } else {
      assert s + post == s;
    }
  }

  lemma {:induction false} StripLeftAppend(x: string, y: string)
    requires StripLeft(x) != []
    ensures StripLeft(x + y) == StripLeft(x) + y
  {
    assert x != [];
    assert (x + y)[0] == x[0];
    if IsSpace(x[0]) {
      assert (x + y)[1..] == x[1..] + y;
      StripLeftAppend(x[1..], y);
    }
  }

  lemma {:induction false} StripLeftAllSpace(s: string)
    requires AllSpace(s)
    ensures StripLeft(s) == []
  {
    if s != [] {
      StripLeftAllSpace(s[1..]);
    }
  }

  lemma StripIgnoresPadding(pre: string, email: string, post: string)
    requires AllSpace(pre) && AllSpace(post)
    ensures Strip(pre + email + post) == Strip(email)
  {
    assert pre + email + post == pre + (email + post);
    StripLeftPadding(pre, email + post);
    assert StripLeft(pre + email + post) == StripLeft(email + post);
    var l := StripLeft(email);
    StripLeftShape(email);
    if l != [] {
      StripLeftAppend(email, post);
      StripRightPadding(l, post);
    } else {
      var e := email[..|email| - |l|];
      assert e == email;
      assert AllSpace(email + post);
      StripLeftAllSpace(email + post);
    }
  }

  /** Surrounding white space does not matter either. */
  lemma NormalizeIgnoresPadding(pre: string, email: string, post: string)
    requires AllSpace(pre) && AllSpace(post)
    ensures Normalize(pre + email + post) == Normalize(email)
  {
    StripIgnoresPadding(pre, email, post);
  }
}
