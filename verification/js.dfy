/**
 The few pieces of the JavaScript runtime the shell's evaluation logic leans on:
 an optional slot (`undefined` or a value), thrown errors that are told apart by
 their `name`, and `String.prototype.trim`.
 */
module Js {

  /** A slot that is either `undefined` or holds a value. */
  datatype Option<+T> = None | Some(value: T)

  /** A thrown error as the shell inspects it: the shell only ever looks at `name`. */
  datatype JsError = JsError(name: string, message: string)

  predicate IsSyntaxError(e: JsError) {
    e.name == "SyntaxError"
  }

  /** The WhiteSpace and LineTerminator code points of ECMA-262 (sections 12.2 and 12.3),
      which are exactly the characters `String.prototype.trim` strips from both ends. */
  predicate IsTrimmable(c: char) {
    var n := c as int;
    || n == 0x09 || n == 0x0A || n == 0x0B || n == 0x0C || n == 0x0D
    || n == 0x20 || n == 0xA0 || n == 0x1680
    || (0x2000 <= n && n <= 0x200A)
    || n == 0x2028 || n == 0x2029 || n == 0x202F || n == 0x205F
    || n == 0x3000 || n == 0xFEFF
  }

  /** True iff every character of `s` is one `trim` strips. */
  predicate AllTrimmable(s: string) {
    forall i :: 0 <= i < |s| ==> IsTrimmable(s[i])
  }

  /** Length of the longest prefix of `s` made of trimmable characters. */
  function LeadingSpace(s: string): (n: nat)
    ensures n <= |s|
    ensures AllTrimmable(s[..n])
    ensures n < |s| ==> !IsTrimmable(s[n])
  {
    if |s| > 0 && IsTrimmable(s[0]) then
      var m := LeadingSpace(s[1..]);
      assert s[..1 + m] == [s[0]] + s[1..][..m];
      1 + m
    else 0
  }

  /** Length of the longest suffix of `s` made of trimmable characters. */
  function TrailingSpace(s: string): (n: nat)
    ensures n <= |s|
    ensures AllTrimmable(s[|s| - n..])
    ensures n < |s| ==> !IsTrimmable(s[|s| - 1 - n])
  {
    if |s| > 0 && IsTrimmable(s[|s| - 1]) then
      var init := s[..|s| - 1];
      var m := TrailingSpace(init);
      assert s[|s| - (1 + m)..] == init[|init| - m..] + [s[|s| - 1]];
      1 + m
    else 0
  }

  /** `String.prototype.trim`: `s` without its leading and trailing trimmable characters. */
  function Trim(s: string): (r: string)
    ensures |r| <= |s|
    ensures |r| > 0 ==> !IsTrimmable(r[0]) && !IsTrimmable(r[|r| - 1])
    // `r` is the middle of `s`: only trimmable characters come before and after it
    ensures var a := LeadingSpace(s);
      && a + |r| <= |s|
      && r == s[a..a + |r|]
      && AllTrimmable(s[..a])
      && AllTrimmable(s[a + |r|..])
  {
    var a := LeadingSpace(s);
    var rest := s[a..];
    var b := TrailingSpace(rest);
    assert s[a + (|rest| - b)..] == rest[|rest| - b..];
    rest[..|rest| - b]
  }

  /** The shell's blank-input test `cmd.trim() === ""` holds exactly when every
      character of the input is whitespace or a line terminator. */
  lemma {:induction false} TrimEmptyIffAllTrimmable(s: string)
    ensures Trim(s) == "" <==> AllTrimmable(s)
  {
    var a := LeadingSpace(s);
    var rest := s[a..];
    var b := TrailingSpace(rest);
    if AllTrimmable(s) {
      assert a == |s|;
    }
    if Trim(s) == "" {
      assert |rest| == b;
      assert rest[|rest| - b..] == rest;
      assert a == |s|;
      assert s[..a] == s;
    }
  }
}
