/**
 * Upper-casing of HTTP method names, as `strings.ToUpper` does it for the
 * ASCII letters that method names are made of.
 */
module Strings {

  predicate IsLowerAscii(c: char) {
    'a' <= c <= 'z'
  }

  /** The upper-case form of one character: ASCII letters shift, all else stays. */
  function UpperChar(c: char): (u: char)
    ensures IsLowerAscii(c) ==> 'A' <= u <= 'Z' && u as int == c as int - 32
    ensures !IsLowerAscii(c) ==> u == c
    ensures !IsLowerAscii(u)
  {
    if IsLowerAscii(c) then (c as int - 32) as char else c
  }

  /** No character of `s` changes under upper-casing. */
  predicate IsUpper(s: string) {
    forall i :: 0 <= i < |s| ==> !IsLowerAscii(s[i])
  }

  /** `strings.ToUpper`, restricted to ASCII case mapping. */
  function ToUpper(s: string): (u: string)
    ensures |u| == |s|
    ensures forall i :: 0 <= i < |s| ==> u[i] == UpperChar(s[i])
    ensures IsUpper(u)
  {
    if s == [] then [] else [UpperChar(s[0])] + ToUpper(s[1..])
  }

  /** Upper-casing fixes exactly the strings that are already upper case. */
  lemma ToUpperFixesExactlyUpper(s: string)
    ensures ToUpper(s) == s <==> IsUpper(s)
  {
    if IsUpper(s) {
      assert forall i :: 0 <= i < |s| ==> ToUpper(s)[i] == s[i];
    } else {
      var i :| 0 <= i < |s| && IsLowerAscii(s[i]);
      assert ToUpper(s)[i] != s[i];
    }
  }

  /** Upper-casing twice is upper-casing once. */
  lemma ToUpperIdempotent(s: string)
    ensures ToUpper(ToUpper(s)) == ToUpper(s)
  {
    ToUpperFixesExactlyUpper(ToUpper(s));
  }

  /** Two method names that differ only in ASCII letter case upper-case alike. */
  lemma ToUpperIgnoresCase(a: string, b: string)
    requires |a| == |b|
    requires forall i :: 0 <= i < |a| ==> UpperChar(a[i]) == UpperChar(b[i])
    ensures ToUpper(a) == ToUpper(b)
  {
    assert forall i :: 0 <= i < |a| ==> ToUpper(a)[i] == ToUpper(b)[i];
  }

  lemma ToUpperGet()
    ensures ToUpper("get") == "GET"
    ensures ToUpper("Get") == "GET"
    ensures ToUpper("GET") == "GET"
  {
    ToUpperFixesExactlyUpper("GET");
    assert ToUpper("get")[0] == 'G' && ToUpper("get")[1] == 'E' && ToUpper("get")[2] == 'T';
    assert ToUpper("Get")[0] == 'G' && ToUpper("Get")[1] == 'E' && ToUpper("Get")[2] == 'T';
  }
}
