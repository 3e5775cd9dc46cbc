/** The string operations the Python code relies on (`lower`, `upper`,
    `strip`, `in`, `split`, `splitlines`, `capitalize`), restricted to the
    ASCII and Latin-1 characters whose behaviour is modelled here. */
module Text {
  import opened Wrappers

  /** `str.lower` on one character, for the ASCII and Latin-1 letters. */
  function Lower(c: char): char {
    if 'A' <= c <= 'Z' || ('\U{C0}' <= c <= '\U{DE}' && c != '\U{D7}') then (c as int + 32) as char else c
  }

  /** `str.upper` on one character, for the ASCII and Latin-1 letters whose
      upper case is a single Latin-1 character. */
  function Upper(c: char): char {
    if 'a' <= c <= 'z' || ('\U{E0}' <= c <= '\U{FE}' && c != '\U{F7}') then (c as int - 32) as char else c
  }

  /** `s.lower()` */
  function LowerStr(s: string): (r: string)
    ensures |r| == |s|
    ensures forall i :: 0 <= i < |s| ==> r[i] == Lower(s[i])
  {
    if s == [] then [] else [Lower(s[0])] + LowerStr(s[1..])
  }

  /** `s.upper()` */
  function UpperStr(s: string): (r: string)
    ensures |r| == |s|
    ensures forall i :: 0 <= i < |s| ==> r[i] == Upper(s[i])
  {
    if s == [] then [] else [Upper(s[0])] + UpperStr(s[1..])
  }

  /** A text with no upper-case letter is its own `lower()`. */
  lemma LowerPlain(s: string)
    requires forall i :: 0 <= i < |s| ==> s[i] < 'A' || 'Z' < s[i] < '\U{C0}'
    ensures LowerStr(s) == s
  {
  }

  /** Upper-casing twice is upper-casing once. */
  lemma UpperIdempotent(s: string)
    ensures UpperStr(UpperStr(s)) == UpperStr(s)
  {
  }

  /** `s.capitalize()`: first character upper-cased, the rest lower-cased. */
  function Capitalize(s: string): (r: string)
    ensures |r| == |s|
    ensures |s| > 0 ==> r[0] == Upper(s[0]) && r[1..] == LowerStr(s[1..])
  {
    if s == [] then [] else [Upper(s[0])] + LowerStr(s[1..])
  }

  /** `str.isspace` on the ASCII and Latin-1 range; this is also what `\s`
      and `strip()` treat as white space there. */
  predicate IsSpace(c: char) {
    c == ' ' || '\t' <= c <= '\r' || '\U{1C}' <= c <= '\U{1F}' || c == '\U{85}' || c == '\U{A0}'
  }

  /** The characters `\w` matches in the ASCII and Latin-1 range: letters,
      digits, the underscore and the Latin-1 letters and numerals. */
  predicate IsWord(c: char) {
    'a' <= c <= 'z' || 'A' <= c <= 'Z' || '0' <= c <= '9' || c == '_'
    || c == '\U{AA}' || c == '\U{B2}' || c == '\U{B3}' || c == '\U{B5}'
    || c == '\U{B9}' || c == '\U{BA}' || '\U{BC}' <= c <= '\U{BE}'
    || ('\U{C0}' <= c <= '\U{FF}' && c != '\U{D7}' && c != '\U{F7}')
  }

  /** The characters at which `splitlines` breaks a line. */
  predicate IsLineBreak(c: char) {
    '\n' <= c <= '\r' || '\U{1C}' <= c <= '\U{1E}' || c == '\U{85}'
  }

  lemma LowerKeepsClasses(c: char)
    ensures Lower(Lower(c)) == Lower(c)
    ensures IsSpace(Lower(c)) == IsSpace(c)
    ensures IsWord(Lower(c)) == IsWord(c)
    ensures (Lower(c) == '\n') == (c == '\n')
  {
  }

  /** Leading white space removed (`lstrip()`). */
  function TrimStart(s: string): (r: string)
    ensures |r| <= |s| && r == s[|s| - |r|..]
    ensures r == [] || !IsSpace(r[0])
    ensures forall i :: 0 <= i < |s| - |r| ==> IsSpace(s[i])
  {
    if |s| > 0 && IsSpace(s[0]) then TrimStart(s[1..]) else s
  }

  /** Trailing white space removed (`rstrip()`). */
  function TrimEnd(s: string): (r: string)
    ensures |r| <= |s| && r == s[..|r|]
    ensures r == [] || !IsSpace(r[|r| - 1])
    ensures forall i :: |r| <= i < |s| ==> IsSpace(s[i])
  {
    if |s| > 0 && IsSpace(s[|s| - 1]) then TrimEnd(s[..|s| - 1]) else s
  }

  /** `s.strip()` */
  function Strip(s: string): string {
    TrimStart(TrimEnd(s))
  }

  /** `strip()` removes the line break after a text that has no white
      space of its own at either end. */
  lemma StripLine(t: string)
    requires |t| > 0 && !IsSpace(t[0]) && !IsSpace(t[|t| - 1])
    ensures Strip(t + "\n") == t
  {
    var s := t + "\n";
    assert s[..|s| - 1] == t;
    assert TrimEnd(t) == t;
    assert TrimStart(t) == t;
  }

  /** `strip()` removes one space on each side of a text that has none of
      its own at either end. */
  lemma StripPadded(t: string)
    requires |t| > 0 && !IsSpace(t[0]) && !IsSpace(t[|t| - 1])
    ensures Strip(" " + t + " ") == t
  {
    var s := " " + t + " ";
    assert s[..|s| - 1] == " " + t;
    assert TrimEnd(" " + t) == " " + t;
    assert (" " + t)[1..] == t;
    assert TrimStart(t) == t;
  }

  /** `strip()` leaves nothing exactly when the text is all white space:
      this is what the source's `if out.strip() or err.strip()` tests. */
  lemma StripEmptyIffBlank(s: string)
    ensures Strip(s) == [] <==> forall i :: 0 <= i < |s| ==> IsSpace(s[i])
  {
    var e := TrimEnd(s);
    if Strip(s) == [] {
      forall i | 0 <= i < |s| ensures IsSpace(s[i]) {
        if i >= |e| {
        } else {
          assert e[i] == s[i];
        }
      }
    } else {
      var r := Strip(s);
      assert r == e[|e| - |r|..];
      assert !IsSpace(e[|e| - |r|]);
      assert s[|e| - |r|] == e[|e| - |r|];
    }
  }

  /** A text with no white space at either end is left alone by `strip()`. */
  lemma StripClean(s: string)
    requires s == [] || (!IsSpace(s[0]) && !IsSpace(s[|s| - 1]))
    ensures Strip(s) == s
  {
  }

  /** `w` occurs in `s` starting at position `p`. */
  predicate OccursAt(s: string, w: string, p: int) {
    0 <= p && p + |w| <= |s| && s[p..p + |w|] == w
  }

  /** Python's `w in s` for strings. */
  predicate Contains(s: string, w: string) {
    exists p | 0 <= p <= |s| :: OccursAt(s, w, p)
  }

  /** Occurrences in a suffix are occurrences in the whole text, shifted. */
  lemma OccursAtShift(s: string, w: string, p: int)
    requires |s| > 0 && 0 <= p
    ensures OccursAt(s[1..], w, p) <==> OccursAt(s, w, p + 1)
  {
    if 0 <= p && p + |w| <= |s| - 1 {
      assert s[1..][p..p + |w|] == s[p + 1..p + 1 + |w|];
    }
  }

  /** The position of the first occurrence of `w` in `s` (`s.find(w)`). */
  function IndexOf(s: string, w: string): (r: Option<nat>)
    requires |w| > 0
    ensures r.Some? ==> OccursAt(s, w, r.value)
    ensures r.Some? ==> forall q :: 0 <= q < r.value ==> !OccursAt(s, w, q)
    ensures r.None? ==> !Contains(s, w)
    decreases |s|
  {
    if |s| < |w| then None
    else if s[..|w|] == w then
      assert s[0..0 + |w|] == s[..|w|];
      Some(0)
    else
      assert s[0..0 + |w|] == s[..|w|];
      assert forall q | 0 <= q :: OccursAt(s[1..], w, q) <==> OccursAt(s, w, q + 1) by {
        forall q | 0 <= q ensures OccursAt(s[1..], w, q) <==> OccursAt(s, w, q + 1) {
          OccursAtShift(s, w, q);
        }
      }
      match IndexOf(s[1..], w)
      case None =>
        assert forall q :: OccursAt(s, w, q) ==> q >= 1 && OccursAt(s[1..], w, q - 1);
        None
      case Some(k) =>
        assert !OccursAt(s, w, 0);
        forall q | 1 <= q < k + 1 ensures !OccursAt(s, w, q) {
          OccursAtShift(s, w, q - 1);
        }
        Some(k + 1)
  }

  /** `s.split(sep)`: cut at every occurrence of `sep`, scanning left to right. */
  function Split(s: string, sep: string): (r: seq<string>)
    requires |sep| > 0
    ensures |r| > 0
    decreases |s|
  {
    match IndexOf(s, sep)
    case None => [s]
    case Some(k) => [s[..k]] + Split(s[k + |sep|..], sep)
  }

  /** `sep.join(parts)` */
  function Join(parts: seq<string>, sep: string): string
    requires |parts| > 0
  {
    if |parts| == 1 then parts[0] else parts[0] + sep + Join(parts[1..], sep)
  }

  /** Splitting loses nothing: joining the pieces back gives the text. */
  lemma {:induction false} JoinSplit(s: string, sep: string)
    requires |sep| > 0
    ensures Join(Split(s, sep), sep) == s
    decreases |s|
  {
    match IndexOf(s, sep)
    case None =>
    case Some(k) =>
      var rest := s[k + |sep|..];
      JoinSplit(rest, sep);
      assert Split(s, sep) == [s[..k]] + Split(rest, sep);
      assert s == s[..k] + sep + rest;
  }

  /** No piece of a split contains the separator. */
  lemma {:induction false} SplitPiecesFree(s: string, sep: string)
    requires |sep| > 0
    ensures forall t :: t in Split(s, sep) ==> !Contains(t, sep)
    decreases |s|
  {
    match IndexOf(s, sep)
    case None =>
      assert Split(s, sep) == [s];
    case Some(k) =>
      SplitPiecesFree(s[k + |sep|..], sep);
      var head := s[..k];
      forall p | OccursAt(head, sep, p) ensures false {
        assert head[p..p + |sep|] == s[p..p + |sep|];
        assert OccursAt(s, sep, p);
      }
  }

  /** The first line-break position, if any. */
  function FirstBreak(s: string): (r: Option<nat>)
    ensures r.Some? ==> r.value < |s| && IsLineBreak(s[r.value])
    ensures r.Some? ==> forall q :: 0 <= q < r.value ==> !IsLineBreak(s[q])
    ensures r.None? ==> forall q :: 0 <= q < |s| ==> !IsLineBreak(s[q])
  {
    if s == [] then None
    else if IsLineBreak(s[0]) then Some(0)
    else match FirstBreak(s[1..])
      case None => None
      case Some(k) => Some(k + 1)
  }

  /** The lines of a text, cut at every line-break character. Unlike
      `splitlines()` a `\r\n` pair yields an extra empty line and a trailing
      break yields a trailing empty line; callers here only look at lines
      that contain a `:`, so the difference is invisible to them. */
  function Lines(s: string): (r: seq<string>)
    ensures |r| > 0
    ensures forall l :: l in r ==> forall q :: 0 <= q < |l| ==> !IsLineBreak(l[q])
    decreases |s|
  {
    match FirstBreak(s)
    case None => [s]
    case Some(k) => [s[..k]] + Lines(s[k + 1..])
  }

  /** The position of the first `c` in `s`. */
  function IndexOfChar(s: string, c: char): (r: Option<nat>)
    ensures r.Some? ==> r.value < |s| && s[r.value] == c && c !in s[..r.value]
    ensures r.None? ==> c !in s
  {
    if s == [] then None
    else if s[0] == c then Some(0)
    else match IndexOfChar(s[1..], c)
      case None => None
      case Some(k) =>
        assert s[..k + 1] == [s[0]] + s[1..][..k];
        Some(k + 1)
  }

  predicate IsDigit(c: char) {
    '0' <= c <= '9'
  }

  /** The decimal digits of `n`, most significant first. */
  function NatStr(n: nat): (r: string)
    ensures |r| > 0 && forall i :: 0 <= i < |r| ==> IsDigit(r[i])
  {
    if n < 10 then [('0' as int + n) as char]
    else NatStr(n / 10) + [('0' as int + n % 10) as char]
  }

  /** `str(n)` for an integer. */
  function IntStr(n: int): string {
    if n < 0 then "-" + NatStr(-n) else NatStr(n)
  }

  /** The value of a run of decimal digits. */
  function DigitsValue(s: string): nat
    requires forall i :: 0 <= i < |s| ==> IsDigit(s[i])
  {
    if s == [] then 0
    else
      assert IsDigit(s[|s| - 1]);
      DigitsValue(s[..|s| - 1]) * 10 + (s[|s| - 1] as int - '0' as int)
  }

  /** Digits separated by single underscores, as `int()` accepts them. */
  predicate WellGrouped(s: string) {
    |s| > 0 && IsDigit(s[0]) && IsDigit(s[|s| - 1])
    && (forall i :: 0 <= i < |s| ==> IsDigit(s[i]) || s[i] == '_')
    && (forall i :: 0 <= i < |s| - 1 && s[i] == '_' ==> s[i + 1] != '_')
  }

  /** The digits of `s` with the grouping underscores removed. */
  function Ungroup(s: string): (r: string)
    requires forall i :: 0 <= i < |s| ==> IsDigit(s[i]) || s[i] == '_'
    ensures forall i :: 0 <= i < |r| ==> IsDigit(r[i])
  {
    if s == [] then [] else (if s[0] == '_' then [] else [s[0]]) + Ungroup(s[1..])
  }

  /** `int(s)` on an already stripped text: an optional sign and decimal
      digits, possibly grouped by underscores; anything else is a
      `ValueError`, here `None`. */
  function ParseInt(s: string): (r: Option<int>)
    ensures r.Some? ==> |s| > 0
  {
    if |s| > 0 && (s[0] == '-' || s[0] == '+') then
      if WellGrouped(s[1..]) then
        var v: int := DigitsValue(Ungroup(s[1..]));
        Some(if s[0] == '-' then -v else v)
      else None
    else if WellGrouped(s) then Some(DigitsValue(Ungroup(s)))
    else None
  }

  lemma {:induction false} NatStrValue(n: nat)
    ensures DigitsValue(NatStr(n)) == n
  {
    if n >= 10 {
      var s := NatStr(n);
      NatStrValue(n / 10);
      assert s[..|s| - 1] == NatStr(n / 10);
    }
  }

  lemma {:induction false} UngroupDigits(s: string)
    requires forall i :: 0 <= i < |s| ==> IsDigit(s[i])
    ensures Ungroup(s) == s
  {
    if s != [] {
      UngroupDigits(s[1..]);
    }
  }

  /** Reading back what `str` wrote gives the number again: the exit code
      written to a file by the elevated helper survives the trip. */
  lemma IntStrParse(n: int)
    ensures ParseInt(IntStr(n)) == Some(n)
  {
    var d := NatStr(if n < 0 then -n else n);
    NatStrValue(if n < 0 then -n else n);
    UngroupDigits(d);
    assert WellGrouped(d);
    if n < 0 {
      assert IntStr(n)[1..] == d;
    } else {
      assert IntStr(n)[0] != '-' && IntStr(n)[0] != '+';
    }
  }
}
