/** White space as Python's `str` methods see it. */
module Whitespace {
  predicate IsSpace(c: char) {
    var n := c as int;
    9 <= n <= 13 || 28 <= n <= 32 || n == 0x85 || n == 0xA0 || n == 0x1680 || 0x2000 <= n <= 0x200A
    || n == 0x2028 || n == 0x2029 || n == 0x202F || n == 0x205F || n == 0x3000
  }

  /** `str.strip` */
  function Strip(s: string): string
    decreases |s|
  {
    if s == [] then []
    else if IsSpace(s[0]) then Strip(s[1..])
    else if IsSpace(s[|s| - 1]) then Strip(s[..|s| - 1])
    else s
  }

  /** The characters from `i` to before `j`, where white space alone is left out and both ends are none. */
  ghost predicate IsMiddle(s: string, i: nat, j: nat) {
    && i <= j <= |s|
    && (forall k | 0 <= k < i || j <= k < |s| :: IsSpace(s[k]))
    && (i < j ==> !IsSpace(s[i]) && !IsSpace(s[j - 1]))
  }

  lemma {:induction false} MiddleOfTail(s: string, i: nat, j: nat)
    requires s != [] && IsSpace(s[0]) && IsMiddle(s[1..], i, j)
    ensures IsMiddle(s, i + 1, j + 1) && s[1..][i..j] == s[i + 1..j + 1]
  {
    forall k | 0 <= k < i + 1 || j + 1 <= k < |s| ensures IsSpace(s[k]) {
      if k > 0 { assert s[k] == s[1..][k - 1]; }
    }
  }

  lemma {:induction false} MiddleOfFront(s: string, i: nat, j: nat)
    requires s != [] && IsSpace(s[|s| - 1]) && IsMiddle(s[..|s| - 1], i, j)
    ensures IsMiddle(s, i, j) && s[..|s| - 1][i..j] == s[i..j]
  {
    forall k | 0 <= k < i || j <= k < |s| ensures IsSpace(s[k]) {
      if k < |s| - 1 { assert s[k] == s[..|s| - 1][k]; }
    }
  }

  /** What is left is the text between the white space at its two ends. */
  lemma {:induction false} StripIsTheMiddle(s: string)
    ensures exists i: nat, j: nat :: IsMiddle(s, i, j) && Strip(s) == s[i..j]
    decreases |s|
  {
    hide IsSpace;
    if s == [] {
      assert IsMiddle(s, 0, 0) && Strip(s) == s[0..0];
    } else if IsSpace(s[0]) {
      StripIsTheMiddle(s[1..]);
      var i: nat, j: nat :| IsMiddle(s[1..], i, j) && Strip(s[1..]) == s[1..][i..j];
      MiddleOfTail(s, i, j);
    } else if IsSpace(s[|s| - 1]) {
      StripIsTheMiddle(s[..|s| - 1]);
      var i: nat, j: nat :| IsMiddle(s[..|s| - 1], i, j) && Strip(s[..|s| - 1]) == s[..|s| - 1][i..j];
      MiddleOfFront(s, i, j);
    } else {
      assert IsMiddle(s, 0, |s|) && Strip(s) == s[0..|s|];
    }
  }

  /** Nothing is left exactly of blank text. */
  lemma {:induction false} StripOfBlank(s: string)
    ensures Strip(s) != [] <==> exists k :: 0 <= k < |s| && !IsSpace(s[k])
  {
    StripIsTheMiddle(s);
    hide Strip, IsSpace;
    var i: nat, j: nat :| IsMiddle(s, i, j) && Strip(s) == s[i..j];
    if i < j { assert !IsSpace(s[i]); }
  }
}
