/** The string operations of the source language that the model relies on. */
module Text {

  /** White space and line terminators as section 12 of ECMA-262 lists them. */
  predicate IsSpace(c: char) {
    var n := c as int;
    9 <= n <= 13 || n == 32 || n == 0xA0 || n == 0x1680 || 0x2000 <= n <= 0x200A
    || n == 0x2028 || n == 0x2029 || n == 0x202F || n == 0x205F || n == 0x3000 || n == 0xFEFF
  }

  function TrimStart(s: string): (r: string)
    ensures |r| <= |s|
    ensures r != "" ==> !IsSpace(r[0])
    ensures s != "" && !IsSpace(s[0]) ==> r == s
    ensures s != "" ==> r == "" || r[|r| - 1] == s[|s| - 1]
  {
    if s != "" && IsSpace(s[0]) then TrimStart(s[1..]) else s
  }

  function TrimEnd(s: string): (r: string)
    ensures |r| <= |s|
    ensures r != "" ==> !IsSpace(r[|r| - 1]) && r[0] == s[0]
    ensures s != "" && !IsSpace(s[|s| - 1]) ==> r == s
  {
    if s != "" && IsSpace(s[|s| - 1]) then TrimEnd(s[..|s| - 1]) else s
  }

  function Trim(s: string): string { TrimEnd(TrimStart(s)) }

  predicate IsTrimmed(s: string) { s == "" || (!IsSpace(s[0]) && !IsSpace(s[|s| - 1])) }

  /** Trimming leaves exactly the trimmed strings alone. */
  lemma TrimIsIdempotent(s: string)
    ensures IsTrimmed(Trim(s)) && Trim(Trim(s)) == Trim(s)
    ensures IsTrimmed(s) <==> Trim(s) == s
  {
  }

  /** Every run of white space becomes one blank. */
  function Collapse(s: string): (r: string)
    ensures r == "" <==> s == ""
    decreases |s|
  {
    if s == "" then ""
    else if IsSpace(s[0]) then (assert |TrimStart(s[1..])| < |s|; " " + Collapse(TrimStart(s[1..])))
    else [s[0]] + Collapse(s[1..])
  }

  /** Single blanks only. */
  predicate IsCollapsed(s: string) {
    forall k :: 0 <= k < |s| && IsSpace(s[k]) ==> s[k] == ' ' && (k + 1 < |s| ==> !IsSpace(s[k + 1]))
  }

  lemma {:induction false} CollapseCollapses(s: string)
    ensures IsCollapsed(Collapse(s))
    ensures s != "" ==> IsSpace(Collapse(s)[0]) == IsSpace(s[0])
    decreases |s|
  {
    if s != "" {
      CollapseCollapses(if IsSpace(s[0]) then TrimStart(s[1..]) else s[1..]);
    }
  }

  lemma {:induction false} CollapseKeepsTheEnd(s: string)
    requires s != "" && !IsSpace(s[|s| - 1])
    ensures !IsSpace(Collapse(s)[|Collapse(s)| - 1])
    decreases |s|
  {
    hide IsSpace, TrimStart;
    var rest := if IsSpace(s[0]) then TrimStart(s[1..]) else s[1..];
    if |s| > 1 {
      SpacesDoNotSwallowTheEnd(s[1..]);
      assert rest != "" && rest[|rest| - 1] == s[|s| - 1];
      CollapseKeepsTheEnd(rest);
      assert Collapse(s)[|Collapse(s)| - 1] == Collapse(rest)[|Collapse(rest)| - 1];
    }
  }

  lemma {:induction false} SpacesDoNotSwallowTheEnd(s: string)
    requires s != "" && !IsSpace(s[|s| - 1])
    ensures TrimStart(s) != "" && TrimStart(s)[|TrimStart(s)| - 1] == s[|s| - 1]
    decreases |s|
  {
    if IsSpace(s[0]) { SpacesDoNotSwallowTheEnd(s[1..]); }
  }

  lemma TailIsCollapsed(s: string)
    requires s != "" && IsCollapsed(s)
    ensures IsCollapsed(s[1..])
    ensures IsSpace(s[0]) ==> s[0] == ' ' && TrimStart(s[1..]) == s[1..]
  {
    hide IsSpace;
    forall k | 0 <= k < |s[1..]| && IsSpace(s[1..][k])
      ensures s[1..][k] == ' ' && (k + 1 < |s[1..]| ==> !IsSpace(s[1..][k + 1]))
    {
      assert s[1..][k] == s[k + 1];
      if k + 1 < |s[1..]| { assert s[1..][k + 1] == s[k + 2]; }
    }
  }

  lemma {:induction false} CollapsedStaysCollapsed(s: string)
    requires IsCollapsed(s)
    ensures Collapse(s) == s
    decreases |s|
  {
    hide IsSpace, TrimStart, IsCollapsed;
    if s != "" {
      TailIsCollapsed(s);
      CollapsedStaysCollapsed(s[1..]);
      assert s == [s[0]] + s[1..];
    }
  }

  // ----- decimal numbers

  predicate IsDigit(c: char) { '0' <= c <= '9' }

  predicate AllDigits(s: string) { forall k :: 0 <= k < |s| ==> IsDigit(s[k]) }

  /** The value of a string of digits. */
  function Number(s: string): nat
    requires AllDigits(s)
  {
    if s == "" then 0 else 10 * Number(s[..|s| - 1]) + (s[|s| - 1] as int - '0' as int)
  }

  /** The last digits of a number, as many as asked for. */
  function Padded(n: nat, width: nat): (r: string)
    ensures |r| == width && AllDigits(r)
  {
    if width == 0 then "" else Padded(n / 10, width - 1) + ['0' + (n % 10) as char]
  }

  function Power10(width: nat): nat { if width == 0 then 1 else 10 * Power10(width - 1) }

  /** A number is read back from its digits. */
  lemma {:induction false} NumberOfPadded(n: nat, width: nat)
    requires n < Power10(width)
    ensures Number(Padded(n, width)) == n
    decreases width
  {
    if width > 0 {
      NumberOfPadded(n / 10, width - 1);
      assert Padded(n, width)[..width - 1] == Padded(n / 10, width - 1);
    }
  }

  /** Digits are printed again as they were read. */
  lemma {:induction false} PaddedNumber(s: string)
    requires AllDigits(s)
    ensures Number(s) < Power10(|s|) && Padded(Number(s), |s|) == s
    decreases |s|
  {
    if s != "" {
      var init, last := s[..|s| - 1], s[|s| - 1];
      PaddedNumber(init);
      assert Number(s) / 10 == Number(init) && Number(s) % 10 == last as int - '0' as int;
      assert s == init + [last];
    }
  }
}
