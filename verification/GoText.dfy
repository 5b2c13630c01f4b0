/** strings.TrimSpace of Go's standard library. */
module GoText {

  // unicode.IsSpace
  predicate IsSpace(c: char) {
    var n := c as int;
    (9 <= n <= 13) || n == 32 || n == 0x85 || n == 0xA0 || n == 0x1680 || (0x2000 <= n <= 0x200A)
    || n == 0x2028 || n == 0x2029 || n == 0x202F || n == 0x205F || n == 0x3000
  }

  ghost predicate AllSpace(s: string) { forall i | 0 <= i < |s| :: IsSpace(s[i]) }

  function TrimLeft(s: string): string {
    if s == "" || !IsSpace(s[0]) then s else TrimLeft(s[1..])
  }

  function TrimRight(s: string): string {
    if s == "" || !IsSpace(s[|s| - 1]) then s else TrimRight(s[..|s| - 1])
  }

  function TrimSpace(s: string): string { TrimRight(TrimLeft(s)) }

  lemma {:induction false} TrimLeftTakes(s: string)
    ensures var r := TrimLeft(s);
            (|r| > 0 ==> !IsSpace(r[0])) && |r| <= |s| && r == s[|s| - |r|..] && AllSpace(s[..|s| - |r|])
  {
    hide IsSpace;
    if s != "" && IsSpace(s[0]) {
      TrimLeftTakes(s[1..]);
      var k := |s| - |TrimLeft(s)|;
      assert s[..k] == [s[0]] + s[1..][..k - 1];
    }
  }

  lemma {:induction false} TrimRightTakes(s: string)
    ensures var r := TrimRight(s);
            (|r| > 0 ==> !IsSpace(r[|r| - 1])) && r <= s && AllSpace(s[|r|..])
  {
    hide IsSpace;
    if s != "" && IsSpace(s[|s| - 1]) {
      TrimRightTakes(s[..|s| - 1]);
      var k := |TrimRight(s)|;
      assert s[k..] == s[..|s| - 1][k..] + [s[|s| - 1]];
    }
  }

  /** What is left has no space at either end, and only spaces were taken away. */
  lemma TrimSpaceExactly(s: string) returns (front: string, back: string)
    ensures var r := TrimSpace(s);
            && (|r| > 0 ==> !IsSpace(r[0]) && !IsSpace(r[|r| - 1]))
            && s == front + r + back && AllSpace(front) && AllSpace(back)
  {
    var l := TrimLeft(s);
    var r := TrimRight(l);
    TrimLeftTakes(s);
    TrimRightTakes(l);
    front, back := s[..|s| - |l|], l[|r|..];
    hide TrimLeft, TrimRight, IsSpace, AllSpace;
    Pieces(s, l, r);
  }

  lemma Pieces(s: string, l: string, r: string)
    requires |l| <= |s| && l == s[|s| - |l|..] && r <= l
    ensures s == s[..|s| - |l|] + r + l[|r|..] && (|r| > 0 ==> r[0] == l[0])
  {
    assert s == s[..|s| - |l|] + l && l == r + l[|r|..];
  }
}
