/** The string operations the portal's rules use: `toLowerCase`,
    `includes`, `trim` and the decimal rendering of a number in a template
    literal. Strings are sequences of characters. */
module Text {
  import opened Sequences

  /** ECMAScript's WhiteSpace and LineTerminator code points: the characters
      `String.prototype.trim` removes. */
  predicate IsJsSpace(c: char) {
    var n := c as int;
    n == 0x09 || n == 0x0A || n == 0x0B || n == 0x0C || n == 0x0D || n == 0x20
    || n == 0xA0 || n == 0x1680 || (0x2000 <= n <= 0x200A) || n == 0x2028
    || n == 0x2029 || n == 0x202F || n == 0x205F || n == 0x3000 || n == 0xFEFF
  }

  function TrimStart(s: string): (r: string)
    ensures r == [] || !IsJsSpace(r[0])
    ensures |r| <= |s| && r == s[|s| - |r|..]
    ensures forall i :: 0 <= i < |s| - |r| ==> IsJsSpace(s[i])
    decreases |s|
  {
    if s != [] && IsJsSpace(s[0]) then TrimStart(s[1..]) else s
  }

  function TrimEnd(s: string): (r: string)
    ensures r == [] || !IsJsSpace(r[|r| - 1])
    ensures |r| <= |s| && r == s[..|r|]
    ensures forall i :: |r| <= i < |s| ==> IsJsSpace(s[i])
    decreases |s|
  {
    if s != [] && IsJsSpace(s[|s| - 1]) then TrimEnd(s[..|s| - 1]) else s
  }

  /** `s.trim()`. */
  function Trim(s: string): string {
    TrimEnd(TrimStart(s))
  }

  /** `!s.trim()` holds exactly when every character of `s` is white space. */
  lemma TrimEmptyIffBlank(s: string)
    ensures Trim(s) == [] <==> forall i :: 0 <= i < |s| ==> IsJsSpace(s[i])
  {
    var t := TrimStart(s);
    if Trim(s) != [] {
      var r := Trim(s);
      assert !IsJsSpace(r[0]) by {
        if |r| == |t| {
          assert r == t;
        } else {
          assert t != [] && r[0] == t[0];
        }
      }
      assert s[|s| - |t|] == t[0];
    }
  }

  /** The lower-case letter for an ASCII capital; every other character is
      left as it is (`toLowerCase` restricted to ASCII). */
  function LowerChar(c: char): (d: char)
    ensures 'A' <= c <= 'Z' ==> 'a' <= d <= 'z' && d as int == c as int + 32
    ensures !('A' <= c <= 'Z') ==> d == c
  {
    if 'A' <= c <= 'Z' then (c as int + 32) as char else c
  }

  /** `s.toLowerCase()`, character by character. */
  function Lower(s: string): (r: string)
    ensures |r| == |s|
    ensures forall i :: 0 <= i < |s| ==> r[i] == LowerChar(s[i])
  {
    seq(|s|, i requires 0 <= i < |s| => LowerChar(s[i]))
  }

  /** Lower-casing twice changes nothing more. */
  lemma LowerIdempotent(s: string)
    ensures Lower(Lower(s)) == Lower(s)
  {
  }

  /** `sub` occurs in `s` starting at index `i`. */
  predicate OccursAt(s: string, sub: string, i: int) {
    0 <= i <= |s| - |sub| && s[i..i + |sub|] == sub
  }

  /** `s.includes(sub)`: `sub` occurs somewhere in `s` as a contiguous run. */
  function Includes(s: string, sub: string): (r: bool)
    ensures r <==> exists i :: OccursAt(s, sub, i)
    decreases |s|
  {
    if sub <= s then
      assert OccursAt(s, sub, 0);
      true
    else if s == [] then
      assert forall i :: !OccursAt(s, sub, i);
      false
    else
      OccursShift(s, sub);
      Includes(s[1..], sub)
  }

  /** When `sub` is not a prefix of `s`, it occurs in `s` exactly when it
      occurs in `s` without its first character. */
  lemma OccursShift(s: string, sub: string)
    requires s != [] && !(sub <= s)
    ensures (exists i :: OccursAt(s, sub, i)) <==> (exists i :: OccursAt(s[1..], sub, i))
  {
    if exists i :: OccursAt(s[1..], sub, i) {
      var i :| OccursAt(s[1..], sub, i);
      var whole, shifted := s[i + 1..i + 1 + |sub|], s[1..][i..i + |sub|];
      assert forall k :: 0 <= k < |whole| ==> whole[k] == shifted[k];
      assert whole == shifted;
      assert OccursAt(s, sub, i + 1);
    }
    if exists i :: OccursAt(s, sub, i) {
      var i :| OccursAt(s, sub, i);
      if i != 0 {
        assert s[1..][i - 1..i - 1 + |sub|] == s[i..i + |sub|];
        assert OccursAt(s[1..], sub, i - 1);
      }
    }
  }

  /** Every string includes the empty string. */
  lemma IncludesEmpty(s: string)
    ensures Includes(s, "")
  {
    assert OccursAt(s, "", 0);
  }

  function DigitChar(d: nat): (c: char)
    requires d < 10
    ensures '0' <= c <= '9'
  {
    ('0' as int + d) as char
  }

  /** `${n}` for a non-negative integer: its decimal digits. */
  function Decimal(n: nat): (r: string)
    ensures |r| >= 1
    ensures forall i :: 0 <= i < |r| ==> '0' <= r[i] <= '9'
    decreases n
  {
    if n < 10 then [DigitChar(n)] else Decimal(n / 10) + [DigitChar(n % 10)]
  }

  /** The number a string of decimal digits denotes, most significant
      digit first. */
  function DecimalValue(s: string): nat
    requires forall i :: 0 <= i < |s| ==> '0' <= s[i] <= '9'
    decreases |s|
  {
    if s == [] then 0 else DecimalValue(s[..|s| - 1]) * 10 + (s[|s| - 1] as int - '0' as int)
  }

  /** `${n}` reads back as `n`. */
  lemma {:induction false} DecimalReadsBack(n: nat)
    ensures DecimalValue(Decimal(n)) == n
    decreases n
  {
    if n >= 10 {
      DecimalReadsBack(n / 10);
      var r := Decimal(n);
      assert r[..|r| - 1] == Decimal(n / 10);
    }
  }

  /** Different numbers render differently, so ids built from different
      clock values differ. */
  lemma DecimalInjective(a: nat, b: nat)
    requires Decimal(a) == Decimal(b)
    ensures a == b
  {
    DecimalReadsBack(a);
    DecimalReadsBack(b);
  }

  // ---------------------------------------------------------------------
  // UTF-16 view of a string
  // ---------------------------------------------------------------------

  /** Whether a character lies outside the Basic Multilingual Plane, and so
      takes two UTF-16 code units (a surrogate pair). */
  predicate Astral(c: char) {
    c as int >= 0x1_0000
  }

  /** The code units one character takes in UTF-16. */
  function CodeUnits(c: char): nat {
    if Astral(c) then 2 else 1
  }

  /** `s.length`: the number of UTF-16 code units, which is the number of
      characters plus one for each astral character. */
  function Utf16Length(s: string): (n: nat)
    ensures n == |s| + |Filter(s, Astral)|
    ensures |s| <= n <= 2 * |s|
    ensures n == |s| <==> forall i :: 0 <= i < |s| ==> !Astral(s[i])
    decreases |s|
  {
    if s == [] then 0
    else
      assert s == [s[0]] + s[1..];
      assert forall i :: 0 < i < |s| ==> s[1..][i - 1] == s[i];
      CodeUnits(s[0]) + Utf16Length(s[1..])
  }

  /** The UTF-16 length of a concatenation is the sum of the lengths. */
  lemma Utf16LengthAppend(a: string, b: string)
    ensures Utf16Length(a + b) == Utf16Length(a) + Utf16Length(b)
  {
    FilterAppend(a, b, Astral);
  }

  /** The last UTF-16 code unit of a character: the character itself in the
      Basic Multilingual Plane, otherwise the low surrogate of its pair. */
  function LastCodeUnit(c: char): (u: nat)
    ensures u < 0x1_0000
    ensures !Astral(c) ==> u == c as int
    ensures Astral(c) ==> 0xDC00 <= u < 0xE000
  {
    if Astral(c) then 0xDC00 + (c as int - 0x1_0000) % 0x400 else c as int
  }

  /** A name with an emoji is one unit longer in UTF-16 than a name of as
      many plain characters: "ab" has length 2 and "a\U{1F600}" length 3. */
  lemma EmojiCountsTwice()
    ensures |"ab"| == |"a\U{1F600}"|
    ensures Utf16Length("ab") == 2 && Utf16Length("a\U{1F600}") == 3
  {
    var plain, emoji := "ab", "a\U{1F600}";
    assert plain[..1] == emoji[..1] == "a";
    assert Astral(emoji[1]) && !Astral(plain[1]);
  }
}
