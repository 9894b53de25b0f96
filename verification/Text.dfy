/** The two string helpers the source leans on, for ASCII and Latin-1 text. */
module Text {

  predicate IsSpace(c: char) {
    '\t' <= c <= '\r' || c == ' ' || c == 0x85 as char || c == 0xA0 as char
  }

  predicate Blank(s: string) {
    forall i :: 0 <= i < |s| ==> IsSpace(s[i])
  }

  /** `unicode.ToLower`: A-Z and the accented capitals, which the multiplication sign sits among. */
  function LowerChar(c: char): char {
    if 'A' <= c <= 'Z' || (0xC0 as char <= c <= 0xDE as char && c != 0xD7 as char) then (c as int + 32) as char else c
  }

  /** `strings.ToLower`. */
  function ToLower(s: string): string {
    seq(|s|, i requires 0 <= i < |s| => LowerChar(s[i]))
  }

  /** `strings.TrimSpace`. */
  function TrimSpace(s: string): string {
    TrimRight(TrimLeft(s))
  }

  function TrimLeft(s: string): string {
    if s != "" && IsSpace(s[0]) then TrimLeft(s[1..]) else s
  }

  function TrimRight(s: string): string {
    if s != "" && IsSpace(s[|s| - 1]) then TrimRight(s[..|s| - 1]) else s
  }

  /** Text without capitals that neither starts nor ends with white space. */
  predicate InNormalForm(s: string) {
    (forall i :: 0 <= i < |s| ==> LowerChar(s[i]) == s[i]) && (s != "" ==> !IsSpace(s[0]) && !IsSpace(s[|s| - 1]))
  }

  lemma NormalFormStays(s: string)
    requires InNormalForm(s)
    ensures ToLower(s) == s && TrimSpace(s) == s
  {}

  lemma {:induction false} TrimLeftPadded(pad: string, s: string)
    requires Blank(pad)
    ensures TrimLeft(pad + s) == TrimLeft(s)
  {
    if pad == "" {
      assert pad + s == s;
    } else {
      assert (pad + s)[0] == pad[0] && (pad + s)[1..] == pad[1..] + s;
      TrimLeftPadded(pad[1..], s);
    }
  }

  lemma {:induction false} TrimRightPadded(s: string, pad: string)
    requires Blank(pad)
    ensures TrimRight(s + pad) == TrimRight(s)
  {
    if pad == "" {
      assert s + pad == s;
    } else {
      var n := |pad| - 1;
      assert (s + pad)[|s| + n] == pad[n] && (s + pad)[..|s| + n] == s + pad[..n];
      TrimRightPadded(s, pad[..n]);
    }
  }

  lemma {:induction false} TrimLeftThenPad(s: string, pad: string)
    requires Blank(pad)
    ensures TrimRight(TrimLeft(s + pad)) == TrimRight(TrimLeft(s))
  {
    if s == "" {
      assert s + pad == pad + "";
      TrimLeftPadded(pad, "");
    } else if IsSpace(s[0]) {
      assert (s + pad)[0] == s[0] && (s + pad)[1..] == s[1..] + pad;
      TrimLeftThenPad(s[1..], pad);
    } else {
      assert (s + pad)[0] == s[0];
      TrimRightPadded(s, pad);
    }
  }

  /** Surrounding white space makes no difference. */
  lemma TrimIgnoresPadding(left: string, s: string, right: string)
    requires Blank(left) && Blank(right)
    ensures TrimSpace(left + s + right) == TrimSpace(s)
  {
    assert left + s + right == left + (s + right);
    TrimLeftPadded(left, s + right);
    TrimLeftThenPad(s, right);
  }

  /** Trimming takes away surrounding white space and nothing else. */
  lemma TrimmedToCore(left: string, core: string, right: string)
    requires Blank(left) && Blank(right) && (core != "" ==> !IsSpace(core[0]) && !IsSpace(core[|core| - 1]))
    ensures TrimSpace(left + core + right) == core
  {
    TrimIgnoresPadding(left, core, right);
  }

  lemma {:induction false} TrimmedAway(s: string)
    ensures TrimSpace(s) == "" <==> Blank(s)
  {
    if s != "" {
      if IsSpace(s[0]) {
        TrimmedAway(s[1..]);
        assert Blank(s) <==> Blank(s[1..]);
      } else {
        TrimRightKeepsHead(s);
      }
    }
  }

  lemma {:induction false} TrimRightKeepsHead(s: string)
    requires s != "" && !IsSpace(s[0])
    ensures TrimRight(s) != ""
  {
    if |s| > 1 && IsSpace(s[|s| - 1]) {
      TrimRightKeepsHead(s[..|s| - 1]);
    }
  }

  /** The white space and the capitals of ASCII and Latin-1, by enumeration. */
  lemma WhiteSpace(c: char)
    ensures IsSpace(c) <==> c in ['\t', '\n', 0x0B as char, 0x0C as char, '\r', ' ', 0x85 as char, 0xA0 as char]
  {}

  lemma LettersFold(c: char)
    requires c < 0xC0 as char
    ensures 'A' <= c <= 'Z' ==> 'a' <= LowerChar(c) <= 'z' && LowerChar(c) as int - 'a' as int == c as int - 'A' as int
    ensures !('A' <= c <= 'Z') ==> LowerChar(c) == c
  {}
}
