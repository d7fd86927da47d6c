// How a revision token is written: `{:016x}-{:x}` of the client's instance and
// its write counter.

module Tokens {
  import opened Revision

  const DIGITS: string := "0123456789abcdef"

  function Hex(n: nat): string {
    if n < 16 then [DIGITS[n]] else Hex(n / 16) + [DIGITS[n % 16]]
  }

  function Padded(s: string, width: nat): string
    decreases width - |s|
  {
    if |s| >= width then s else Padded("0" + s, width)
  }

  function Render(t: Token): string {
    Padded(Hex(t.writer), 16) + "-" + Hex(t.count)
  }

  // ----- Reading one back

  function DigitValue(c: char): nat {
    if '0' <= c <= '9' then c as nat - '0' as nat
    else if 'a' <= c <= 'f' then c as nat - 'a' as nat + 10
    else 0
  }

  function HexValue(s: string): nat {
    if s == "" then 0 else 16 * HexValue(s[..|s| - 1]) + DigitValue(s[|s| - 1])
  }

  lemma DigitOk(n: nat)
    requires n < 16
    ensures DigitValue(DIGITS[n]) == n && DIGITS[n] != '-'
  {
  }

  lemma {:induction false} HexReads(n: nat)
    ensures HexValue(Hex(n)) == n && '-' !in Hex(n)
  {
    DigitOk(n % 16);
    if n < 16 {
      assert [DIGITS[n]][..0] == "";
    } else {
      HexReads(n / 16);
      assert Hex(n)[..|Hex(n)| - 1] == Hex(n / 16);
    }
  }

  lemma {:induction false} ZeroInFront(s: string)
    ensures HexValue("0" + s) == HexValue(s)
  {
    if s == "" {
      assert ("0" + s)[..0] == "";
    } else {
      ZeroInFront(s[..|s| - 1]);
      assert ("0" + s)[..|s|] == "0" + s[..|s| - 1];
    }
  }

  lemma {:induction false} PaddedReads(s: string, width: nat)
    requires '-' !in s
    ensures HexValue(Padded(s, width)) == HexValue(s) && '-' !in Padded(s, width)
    decreases width - |s|
  {
    if |s| < width {
      ZeroInFront(s);
      PaddedReads("0" + s, width);
    }
  }

  /** The first '-' ends the writer's part. */
  lemma SplitAtDash(p: string, count: string, q: string, other: string)
    requires '-' !in p && '-' !in q && p + "-" + count == q + "-" + other
    ensures p == q && count == other
  {
    var s := p + "-" + count;
    assert s == q + "-" + other;
    assert forall i | 0 <= i < |p| :: s[i] == p[i];
    assert forall i | 0 <= i < |q| :: s[i] == q[i];
    assert s[|p|] == '-' && s[|q|] == '-';
    assert p == s[..|p|] && q == s[..|q|];
    assert count == s[|p| + 1..] && other == s[|q| + 1..];
  }

  /** Two writes are stamped with one string only when they are one client's
      one write: distinct instances and a counter that only grows keep every
      revision string unique. */
  lemma RenderInjective(a: Token, b: Token)
    requires Render(a) == Render(b)
    ensures a == b
  {
    HexReads(a.writer);
    HexReads(b.writer);
    HexReads(a.count);
    HexReads(b.count);
    PaddedReads(Hex(a.writer), 16);
    PaddedReads(Hex(b.writer), 16);
    hide Hex, Padded, HexValue;
    SplitAtDash(Padded(Hex(a.writer), 16), Hex(a.count), Padded(Hex(b.writer), 16), Hex(b.count));
  }

  /** The migration script's tokens are never a server's. */
  lemma ScriptTokenDiffers(t: Token, uuid: string)
    ensures "migrate-" + uuid != Render(t)
  {
    var p := Padded(Hex(t.writer), 16);
    HexDigits(t.writer);
    PaddedHexDigits(Hex(t.writer), 16);
    assert p[0] in p;
    assert Render(t)[0] == p[0];
    assert ("migrate-" + uuid)[0] == 'm' && 'm' !in DIGITS;
  }

  lemma {:induction false} HexDigits(n: nat)
    ensures Hex(n) != "" && forall c | c in Hex(n) :: c in DIGITS
  {
    if n >= 16 { HexDigits(n / 16); }
  }

  lemma {:induction false} PaddedHexDigits(s: string, width: nat)
    ensures (forall c | c in s :: c in DIGITS) ==> forall c | c in Padded(s, width) :: c in DIGITS
    ensures |Padded(s, width)| >= width
    decreases width - |s|
  {
    if |s| < width {
      assert DIGITS[0] == '0';
      PaddedHexDigits("0" + s, width);
    }
  }
}
