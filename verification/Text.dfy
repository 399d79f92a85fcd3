/** Trimming of strings, as `str.strip` does it. */
module Text {

  /** What `str.strip` removes. */
  predicate IsBlank(c: char) {
    var n := c as int;
    || 9 <= n <= 13 || 28 <= n <= 32 || n == 0x85 || n == 0xA0 || n == 0x1680 || 0x2000 <= n <= 0x200A
    || n == 0x2028 || n == 0x2029 || n == 0x202F || n == 0x205F || n == 0x3000
  }

  datatype Cut = Blanks | Quotes | Apostrophes

  predicate Removes(cut: Cut, c: char) {
    match cut
    case Blanks => IsBlank(c)
    case Quotes => c == '"'
    case Apostrophes => c == '\''
  }

  function Strip(cut: Cut, s: string): string {
    if s == "" then ""
    else if Removes(cut, s[0]) then Strip(cut, s[1..])
    else if Removes(cut, s[|s| - 1]) then Strip(cut, s[..|s| - 1])
    else s
  }

  function Trim(s: string): string { Strip(Blanks, s) }

  lemma {:induction false} StripFixed(cut: Cut, s: string)
    ensures |Strip(cut, s)| <= |s|
    ensures |Strip(cut, s)| == |s| ==> Strip(cut, s) == s
    ensures Strip(cut, Strip(cut, s)) == Strip(cut, s)
    ensures Strip(cut, s) == s <==> s == "" || (!Removes(cut, s[0]) && !Removes(cut, s[|s| - 1]))
  {
    if s == "" {
    } else if Removes(cut, s[0]) {
      StripFixed(cut, s[1..]);
    } else if Removes(cut, s[|s| - 1]) {
      StripFixed(cut, s[..|s| - 1]);
    }
  }

  /** A removable character in front changes nothing. */
  lemma StripFront(cut: Cut, c: char, s: string)
    requires Removes(cut, c)
    ensures Strip(cut, [c] + s) == Strip(cut, s)
  {
    assert ([c] + s)[1..] == s;
  }

  lemma {:induction false} StripBack(cut: Cut, s: string, c: char)
    requires Removes(cut, c)
    ensures Strip(cut, s + [c]) == Strip(cut, s)
  {
    if s == "" {
      assert (s + [c])[1..] == "";
    } else if Removes(cut, s[0]) {
      assert (s + [c])[1..] == s[1..] + [c];
      StripBack(cut, s[1..], c);
    } else {
      assert (s + [c])[..|s|] == s;
    }
  }
}
