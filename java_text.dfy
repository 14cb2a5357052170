/** The two java.lang.String operations the core uses on month names:
    `trim()` and `toUpperCase(Locale.ROOT)`. */
module JavaText {

  /** `trim()` removes every character whose code is at most U+0020 from both ends. */
  predicate IsBlank(c: char) {
    c <= ' '
  }

  predicate AllBlank(s: string) {
    forall i :: 0 <= i < |s| ==> IsBlank(s[i])
  }

  /** A string that `trim()` leaves as it is: empty, or non-blank at both ends. */
  predicate IsTrimmed(s: string) {
    s == [] || (!IsBlank(s[0]) && !IsBlank(s[|s| - 1]))
  }

  /** Index of the first non-blank character (|s| when there is none). */
  function TrimStart(s: string): (n: nat)
    ensures n <= |s|
    ensures AllBlank(s[..n])
    ensures n < |s| ==> !IsBlank(s[n])
  {
    if s == [] || !IsBlank(s[0]) then 0 else 1 + TrimStart(s[1..])
  }

  /** End (exclusive) of `s` once trailing blanks are dropped, never below `from`. */
  function TrimEnd(s: string, from: nat): (n: nat)
    requires from <= |s|
    ensures from <= n <= |s|
    ensures AllBlank(s[n..])
    ensures n > from ==> !IsBlank(s[n - 1])
  {
    if |s| == from || !IsBlank(s[|s| - 1]) then |s| else TrimEnd(s[..|s| - 1], from)
  }

  /** `String.trim()` */
  function Trim(s: string): (r: string)
    ensures IsTrimmed(r)
    ensures AllBlank(s) ==> r == []
  {
    var start := TrimStart(s);
    s[start..TrimEnd(s, start)]
  }

  /** `trim()` strips exactly the blank padding around a trimmed string. */
  lemma {:induction false} TrimPadded(pre: string, body: string, post: string)
    requires AllBlank(pre) && AllBlank(post) && IsTrimmed(body)
    ensures Trim(pre + body + post) == body
  {
    var s := pre + body + post;
    if body == [] {
      assert AllBlank(s) by {
        forall i | 0 <= i < |s| ensures IsBlank(s[i]) {
          if i < |pre| { assert s[i] == pre[i]; } else { assert s[i] == post[i - |pre|]; }
        }
      }
    } else {
      var start := TrimStart(s);
      assert s[|pre|] == body[0];
      assert start == |pre|;
      var end := TrimEnd(s, start);
      var last := |pre| + |body|;
      assert s[last - 1] == body[|body| - 1];
      assert end == last;
      assert s[start..end] == body;
    }
  }

  /** `trim()` is idempotent. */
  lemma TrimIdempotent(s: string)
    ensures Trim(Trim(s)) == Trim(s)
  {
    TrimPadded([], Trim(s), []);
    assert [] + Trim(s) + [] == Trim(s);
  }

  /** `Character.toUpperCase` restricted to ASCII: 'a'..'z' become 'A'..'Z'. */
  function UpperChar(c: char): (u: char)
    ensures !('a' <= u <= 'z')
    ensures 'a' <= c <= 'z' ==> u as int == c as int - 32
    ensures !('a' <= c <= 'z') ==> u == c
  {
    if 'a' <= c <= 'z' then (c as int - 32) as char else c
  }

  /** `String.toUpperCase(Locale.ROOT)` on ASCII text; characters keep their positions. */
  function ToUpperCase(s: string): (r: string)
    ensures |r| == |s|
    ensures forall i :: 0 <= i < |s| ==> r[i] == UpperChar(s[i])
  {
    if s == [] then [] else [UpperChar(s[0])] + ToUpperCase(s[1..])
  }

  /** Text without lower-case letters is left as it is. */
  lemma UpperOfUpper(s: string)
    requires forall i :: 0 <= i < |s| ==> !('a' <= s[i] <= 'z')
    ensures ToUpperCase(s) == s
  {
  }

  /** Upper-casing never turns a blank into a non-blank or back, so it keeps trimmed text trimmed. */
  lemma UpperKeepsTrimmed(s: string)
    requires IsTrimmed(s)
    ensures IsTrimmed(ToUpperCase(s))
  {
  }
}
