/** rt_vsnprintf of src/kservice.c on a 32-bit target, with RT_PRINTF_PRECISION. `Text` is the output without any bound; the
    methods write into a buffer as the source does. */
module Format {
  import opened Basics

  /** A 32-bit argument word. */
  type Word = n: nat | n < 0x1_0000_0000

  datatype Arg = Int(w: Word) | Str(s: string) | Null

  datatype Flags = Flags(zero: bool, sign: bool, plus: bool, space: bool, left: bool, special: bool, large: bool)

  const NO_FLAGS := Flags(false, false, false, false, false, false, false)

  /** The characters of a C string; behind its end there is a NUL. */
  function CharAt(fmt: string, i: nat): char {
    if i < |fmt| then fmt[i] else '\0'
  }

  predicate IsDigit(c: char) {
    '0' <= c <= '9'
  }

  /** An int argument; one that was not passed reads as 0. */
  function IntArg(args: seq<Arg>): Word {
    if args != [] && args[0].Int? then args[0].w else 0
  }

  /** As a signed 32-bit number. */
  function Signed(w: Word): int {
    if w >= 0x8000_0000 then w - 0x1_0000_0000 else w
  }

  function Rest(args: seq<Arg>): seq<Arg> {
    if args == [] then [] else args[1..]
  }

  function Repeat(c: char, n: int): (s: string)
    ensures |s| == Max(n, 0) && forall i :: 0 <= i < |s| ==> s[i] == c
  {
    seq(Max(n, 0), _ => c)
  }

  // ----- numbers -----

  /** `divide` knows two bases: 10 and, for everything else, 16. */
  function Radix(base: nat): (r: nat)
    ensures 0 < r <= 16
  {
    if base == 10 then 10 else 16
  }

  function Digit(d: nat, large: bool): char
    requires d < 16
  {
    if large then "0123456789ABCDEF"[d] else "0123456789abcdef"[d]
  }

  /** The digits of `n`, least significant first, as they are collected in `tmp`. */
  function Backwards(n: nat, base: nat, large: bool): (s: string)
    ensures n > 0 ==> s != []
  {
    if n == 0 then [] else [Digit(n % Radix(base), large)] + Backwards(n / Radix(base), base, large)
  }

  function Tmp(n: nat, base: nat, large: bool): (s: string)
    ensures s != []
  {
    if n == 0 then ['0'] else Backwards(n, base, large)
  }

  function Reversed(s: string): (r: string)
    ensures |r| == |s| && forall i :: 0 <= i < |r| ==> r[i] == s[|s| - 1 - i]
  {
    seq(|s|, i requires 0 <= i < |s| => s[|s| - 1 - i])
  }

  /** The sign in front of a number, if any. */
  function SignOf(w: Word, f: Flags): string {
    if !f.sign then []
    else if Signed(w) < 0 then ['-']
    else if f.plus then ['+']
    else if f.space then [' ']
    else []
  }

  function Magnitude(w: Word, f: Flags): Word {
    if f.sign && Signed(w) < 0 then -Signed(w) else w
  }

  /** The blanks in front of a number; `room` is what the width leaves besides the digits. */
  function LeadText(room: int, sign: string, f: Flags): string {
    if f.zero || f.left then [] else Repeat(' ', if sign != [] && room > 0 then room - 1 else room)
  }

  /** The zeros that pad a number to its width. */
  function PadText(room: int, sign: string, f: Flags): string {
    if f.zero && !f.left then Repeat('0', room - |sign|) else []
  }

  /** The zeros up to the precision and the digits; with precision 0 no digit is printed. */
  function DigitsText(tmp: string, precision: int): string {
    Repeat('0', precision - |tmp|) + (if precision != 0 then Reversed(tmp) else [])
  }

  /** The blanks behind a left-justified number. */
  function TailText(room: int, sign: string, f: Flags): string {
    if f.left then Repeat(' ', room - |sign|) else []
  }

  /** print_number. */
  function Number(w: Word, base: nat, width: int, precision: int, f: Flags): string {
    var tmp := Tmp(Magnitude(w, f), base, f.large);
    var sign := SignOf(w, f);
    var room := width - Max(|tmp|, precision);
    LeadText(room, sign, f) + sign + PadText(room, sign, f) + DigitsText(tmp, precision) + TailText(room, sign, f)
  }

  // ----- the directives -----

  datatype Directive = Directive(flags: Flags, width: int, precision: int, qualifier: char, at: nat, args: seq<Arg>)

  /** The flags from position `i` on, and where they end. */
  function ReadFlags(fmt: string, i: nat, f: Flags): (r: (Flags, nat))
    ensures i <= r.1 && (i <= |fmt| ==> r.1 <= |fmt|)
    decreases |fmt| - i
  {
    match CharAt(fmt, i)
    case '-' => ReadFlags(fmt, i + 1, f.(left := true))
    case '+' => ReadFlags(fmt, i + 1, f.(plus := true))
    case ' ' => ReadFlags(fmt, i + 1, f.(space := true))
    case '#' => ReadFlags(fmt, i + 1, f.(special := true))
    case '0' => ReadFlags(fmt, i + 1, f.(zero := true))
    case _ => (f, i)
  }

  /** skip_atoi. */
  function Atoi(fmt: string, i: nat, n: nat): (r: (nat, nat))
    ensures i <= r.1 && (i <= |fmt| ==> r.1 <= |fmt|)
    decreases |fmt| - i
  {
    if IsDigit(CharAt(fmt, i)) then Atoi(fmt, i + 1, n * 10 + (CharAt(fmt, i) - '0') as nat) else (n, i)
  }

  /** The field width: digits, or an argument, whose sign asks for left justification. */
  function ReadWidth(fmt: string, i: nat, f: Flags, args: seq<Arg>): (r: (Flags, int, nat, seq<Arg>))
    ensures i <= r.2 && (i <= |fmt| ==> r.2 <= |fmt|)
  {
    if IsDigit(CharAt(fmt, i)) then
      var (n, j) := Atoi(fmt, i, 0);
      (f, n, j, args)
    else if CharAt(fmt, i) == '*' then
      var w := Signed(IntArg(args));
      if w < 0 then (f.(left := true), -w, i + 1, Rest(args)) else (f, w, i + 1, Rest(args))
    else (f, -1, i, args)
  }

  /** The precision; without one it is -1, and a bad one counts as 0. */
  function ReadPrecision(fmt: string, i: nat, args: seq<Arg>): (r: (int, nat, seq<Arg>))
    ensures i <= r.1 && (i <= |fmt| ==> r.1 <= |fmt|)
  {
    if CharAt(fmt, i) != '.' then (-1, i, args)
    else if IsDigit(CharAt(fmt, i + 1)) then
      var (n, j) := Atoi(fmt, i + 1, 0);
      (n, j, args)
    else if CharAt(fmt, i + 1) == '*' then (Max(Signed(IntArg(args)), 0), i + 2, Rest(args))
    else (0, i + 1, args)
  }

  /** Everything between '%', which is at position `i`, and the conversion character. */
  function ReadDirective(fmt: string, i: nat, args: seq<Arg>): (d: Directive)
    requires i < |fmt|
    ensures i < d.at <= |fmt|
  {
    var (f, a) := ReadFlags(fmt, i + 1, NO_FLAGS);
    var (g, width, b, rest) := ReadWidth(fmt, a, f, args);
    var (precision, c, last) := ReadPrecision(fmt, b, rest);
    if CharAt(fmt, c) == 'h' || CharAt(fmt, c) == 'l' then Directive(g, width, precision, CharAt(fmt, c), c + 1, last)
    else Directive(g, width, precision, '\0', c, last)
  }

  function Text8(w: Word): char {
    (w % 0x100) as char
  }

  /** %c: padded to the width. */
  function CharText(d: Directive): string {
    Repeat(' ', if d.flags.left then 0 else d.width - 1) + [Text8(IntArg(d.args))] + Repeat(' ', if d.flags.left then d.width - 1 else 0)
  }

  function StrArg(args: seq<Arg>): string {
    if args != [] && args[0].Str? then args[0].s else "(NULL)"
  }

  /** %s: cut at a positive precision, padded to the width. */
  function StrText(d: Directive): string {
    var s := StrArg(d.args);
    var len := if d.precision > 0 && |s| > d.precision then d.precision else |s|;
    Repeat(' ', if d.flags.left then 0 else d.width - len) + s[..len] + Repeat(' ', if d.flags.left then d.width - len else 0)
  }

  /** The integer conversions: 'h' keeps 16 bits. */
  function IntText(d: Directive, base: nat, f: Flags): string {
    var w := IntArg(d.args);
    var v: Word := if d.qualifier != 'h' then w
                   else if f.sign && w % 0x1_0000 >= 0x8000 then w % 0x1_0000 + 0xFFFF_0000 else w % 0x1_0000;
    Number(v, base, d.width, d.precision, f)
  }

  /** What a directive prints, whether it takes an argument, and where the format goes on. */
  function DirectiveText(fmt: string, d: Directive): (r: (string, bool, nat))
    requires d.at <= |fmt|
    ensures d.at <= r.2 <= |fmt|
  {
    var next := if d.at < |fmt| then d.at + 1 else d.at;
    match CharAt(fmt, d.at)
    case 'c' => (CharText(d), true, next)
    case 's' => (StrText(d), true, next)
    case 'p' =>
      (Number(IntArg(d.args), 16, if d.width == -1 then 8 else d.width, d.precision, if d.width == -1 then d.flags.(zero := true) else d.flags), true, next)
    case '%' => ("%", false, next)
    case 'o' => (IntText(d, 8, d.flags), true, next)
    case 'X' => (IntText(d, 16, d.flags.(large := true)), true, next)
    case 'x' => (IntText(d, 16, d.flags), true, next)
    case 'd' => (IntText(d, 10, d.flags.(sign := true)), true, next)
    case 'i' => (IntText(d, 10, d.flags.(sign := true)), true, next)
    case 'u' => (IntText(d, 10, d.flags), true, next)
    case c => (if d.at < |fmt| then ['%', c] else "%", false, next)
  }

  /** The output of the format from position `i` on. */
  function Text(fmt: string, i: nat, args: seq<Arg>): string
    requires i <= |fmt|
    decreases |fmt| - i
  {
    if i == |fmt| then []
    else if fmt[i] != '%' then [fmt[i]] + Text(fmt, i + 1, args)
    else
      var d := ReadDirective(fmt, i, args);
      var (s, takes, next) := DirectiveText(fmt, d);
      s + Text(fmt, next, if takes then Rest(d.args) else d.args)
  }

  // ----- what a printed number means -----

  function DigitValue(c: char): nat {
    if '0' <= c <= '9' then (c - '0') as nat
    else if 'a' <= c <= 'f' then (c - 'a') as nat + 10
    else if 'A' <= c <= 'F' then (c - 'A') as nat + 10
    else 0
  }

  /** The number that digits denote, the least significant one first. */
  function Denotes(s: string, radix: nat): nat {
    if s == [] then 0 else DigitValue(s[0]) + radix * Denotes(s[1..], radix)
  }

  lemma {:induction false} BackwardsDenotes(n: nat, base: nat, large: bool)
    ensures Denotes(Backwards(n, base, large), Radix(base)) == n
    ensures n > 0 ==> DigitValue(Backwards(n, base, large)[|Backwards(n, base, large)| - 1]) > 0
    decreases n
  {
    if n > 0 {
      var r := Radix(base);
      BackwardsDenotes(n / r, base, large);
      assert Backwards(n, base, large)[1..] == Backwards(n / r, base, large);
      assert n == n % r + r * (n / r);
    }
  }

  /** Without a precision of 0 the digits denote the number to the base that `divide` uses, without leading zeros. */
  lemma DigitsDenote(n: nat, base: nat, large: bool)
    ensures Denotes(Tmp(n, base, large), Radix(base)) == n
    ensures n > 0 ==> DigitValue(Reversed(Tmp(n, base, large))[0]) > 0
  {
    BackwardsDenotes(n, base, large);
    if n == 0 { assert ['0'][1..] == []; }
  }

  ghost predicate DigitsBelow(s: string, radix: nat) {
    forall i :: 0 <= i < |s| ==> DigitValue(s[i]) < radix
  }

  /** The digits `s`, least significant first, are a numeral of `n` to that base. */
  ghost predicate Numeral(s: string, radix: nat, n: nat) {
    s != [] && DigitsBelow(s, radix) && Denotes(s, radix) == n
  }

  /** What the C standard asks of the digits: a numeral with at least as many digits as the precision and no more leading zeros than
      that takes; nothing for 0 with precision 0. */
  ghost predicate Standard(text: string, n: nat, base: nat, precision: int) {
    if n == 0 && precision == 0 then text == []
    else Numeral(Reversed(text), base, n) && |text| >= precision && (|text| > Max(precision, 1) ==> DigitValue(text[0]) > 0)
  }

  lemma DigitIs(d: nat, large: bool)
    requires d < 16
    ensures DigitValue(Digit(d, large)) == d
  {
  }

  lemma {:induction false} BackwardsBelow(n: nat, base: nat, large: bool)
    ensures DigitsBelow(Backwards(n, base, large), Radix(base))
    decreases n
  {
    if n > 0 {
      DigitIs(n % Radix(base), large);
      BackwardsBelow(n / Radix(base), base, large);
    }
  }

  /** Hexadecimal digits read to base 8 denote less than they should, from the second digit on. */
  lemma {:induction false} ReadAsOctal(n: nat, large: bool)
    ensures Denotes(Backwards(n, 8, large), 8) <= n && (n >= 16 ==> Denotes(Backwards(n, 8, large), 8) < n)
    decreases n
  {
    if n > 0 {
      var m := n / 16;
      ReadAsOctal(m, large);
      DigitIs(n % 16, large);
      assert Backwards(n, 8, large)[1..] == Backwards(m, 8, large);
      assert n == n % 16 + 16 * m;
    }
  }

  /** The digits collected are a numeral of the number to the base asked for, except those of %o from 8 on. */
  lemma NumeralIff(n: nat, base: nat, large: bool)
    requires base == 8 || base == 10 || base == 16
    ensures Numeral(Tmp(n, base, large), base, n) <==> (base == 8 ==> n < 8)
  {
    var s := Tmp(n, base, large);
    if n == 0 {
      assert s[1..] == [] && Denotes(s[1..], base) == 0;
      assert DigitValue('0') == 0 && base * 0 == 0;
      assert Denotes(s, base) == 0;
    } else if base == 8 {
      ReadAsOctal(n, large);
      if n < 16 {
        DigitIs(n, large);
        assert n / 16 == 0 && s == [Digit(n, large)] && s[1..] == [];
      }
    } else {
      BackwardsDenotes(n, base, large);
      BackwardsBelow(n, base, large);
    }
  }

  lemma {:induction false} DenotesZeros(s: string, radix: nat, k: nat)
    ensures Denotes(s + Repeat('0', k), radix) == Denotes(s, radix)
  {
    var t := s + Repeat('0', k);
    if s != [] {
      DenotesZeros(s[1..], radix, k);
      assert t[1..] == s[1..] + Repeat('0', k);
    } else if k > 0 {
      DenotesZeros([], radix, k - 1);
      assert t == Repeat('0', k) && t[1..] == [] + Repeat('0', k - 1);
    }
  }

  lemma DigitsBackwards(tmp: string, precision: int)
    requires precision != 0
    ensures Reversed(DigitsText(tmp, precision)) == tmp + Repeat('0', precision - |tmp|)
  {
  }

  /** The digits printed are what the C standard asks for if and only if the precision is not 0 (or the number is), and the
      conversion is not %o (or the number is less than 8). */
  lemma StandardIff(n: nat, base: nat, large: bool, precision: int)
    requires base == 8 || base == 10 || base == 16
    ensures Standard(DigitsText(Tmp(n, base, large), precision), n, base, precision) <==> (precision != 0 || n == 0) && (base == 8 ==> n < 8)
  {
    var tmp := Tmp(n, base, large);
    var text := DigitsText(tmp, precision);
    if precision == 0 {
      assert text == [];
    } else {
      var zeros := Repeat('0', precision - |tmp|);
      DigitsBackwards(tmp, precision);
      DenotesZeros(tmp, base, Max(precision - |tmp|, 0));
      NumeralIff(n, base, large);
      DigitsDenote(n, base, large);
      BelowZeros(tmp, zeros, base);
      LeadingDigit(tmp, precision);
    }
  }

  lemma BelowZeros(tmp: string, zeros: string, radix: nat)
    requires radix > 0 && forall i :: 0 <= i < |zeros| ==> zeros[i] == '0'
    ensures DigitsBelow(tmp + zeros, radix) <==> DigitsBelow(tmp, radix)
  {
    if DigitsBelow(tmp + zeros, radix) {
      assert forall i :: 0 <= i < |tmp| ==> (tmp + zeros)[i] == tmp[i];
    }
  }

  lemma LeadingDigit(tmp: string, precision: int)
    requires precision != 0 && tmp != []
    ensures var text := DigitsText(tmp, precision);
      |text| == Max(precision, |tmp|) && (|text| > precision ==> text[0] == tmp[|tmp| - 1])
  {
  }

  const OctalOnly := Directive(NO_FLAGS, -1, -1, '\0', 1, [Int(8)])

  lemma ReadsOctal()
    ensures ReadDirective("%o", 0, [Int(8)]) == OctalOnly
  {
    assert ReadFlags("%o", 1, NO_FLAGS) == (NO_FLAGS, 1);
  }

  lemma PrintsEight()
    ensures Number(8, 8, -1, -1, NO_FLAGS) == "8"
  {
    assert Backwards(8, 8, false) == ['8'] by { assert 8 / 16 == 0; }
    assert SignOf(8, NO_FLAGS) == "";
  }

  /** The input for which %o is wrong: 8 is printed as "8". */
  lemma OctalEight()
    ensures Text("%o", 0, [Int(8)]) == "8"
  {
    hide Number, ReadDirective;
    ReadsOctal();
    PrintsEight();
    assert IntText(OctalOnly, 8, NO_FLAGS) == "8";
    assert DirectiveText("%o", OctalOnly) == ("8", true, 2);
    assert Text("%o", 2, []) == [];
  }

  const PrecisionOnly := Directive(NO_FLAGS, -1, 0, '\0', 2, [Int(5)])

  lemma ReadsPrecision()
    ensures ReadDirective("%.d", 0, [Int(5)]) == PrecisionOnly
  {
    var fmt := "%.d";
    assert ReadFlags(fmt, 1, NO_FLAGS) == (NO_FLAGS, 1);
    assert ReadPrecision(fmt, 1, [Int(5)]) == (0, 2, [Int(5)]);
  }

  lemma PrintsNothing(f: Flags)
    requires f == NO_FLAGS.(sign := true)
    ensures Number(5, 10, -1, 0, f) == ""
  {
    assert |Tmp(5, 10, false)| >= 1;
    assert SignOf(5, f) == "";
  }

  /** The input for which precision 0 is wrong: nothing is printed for 5. */
  lemma PrecisionZero()
    ensures Text("%.d", 0, [Int(5)]) == ""
  {
    hide Number, ReadDirective;
    ReadsPrecision();
    PrintsNothing(NO_FLAGS.(sign := true));
    assert IntText(PrecisionOnly, 10, NO_FLAGS.(sign := true)) == "";
    assert DirectiveText("%.d", PrecisionOnly) == ("", true, 3);
    assert Text("%.d", 3, []) == [];
  }

  /** A number is its sign and its digits (at least `precision` of them), filled up to the field width: with blanks behind them
      if left-justified, else with zeros between sign and digits if asked for, else with blanks in front. But with precision
      0 the digits are missing. */
  lemma NumberIs(w: Word, base: nat, width: int, precision: int, f: Flags)
    ensures var tmp := Tmp(Magnitude(w, f), base, f.large);
      var sign := SignOf(w, f);
      var digits := if precision == 0 then [] else Repeat('0', precision - |tmp|) + Reversed(tmp);
      var fill := width - |sign| - Max(|tmp|, precision);
      Number(w, base, width, precision, f) ==
        if f.left then sign + digits + Repeat(' ', fill)
        else if f.zero then sign + Repeat('0', fill) + digits
        else Repeat(' ', fill) + sign + digits
  {
    var tmp := Tmp(Magnitude(w, f), base, f.large);
    var sign := SignOf(w, f);
    var room := width - Max(|tmp|, precision);
    PartsAre(room, sign, tmp, precision, f);
    Arrange(LeadText(room, sign, f), sign, PadText(room, sign, f), DigitsText(tmp, precision), TailText(room, sign, f));
  }

  lemma PartsAre(room: int, sign: string, tmp: string, precision: int, f: Flags)
    requires |sign| <= 1
    ensures LeadText(room, sign, f) == if f.left || f.zero then [] else Repeat(' ', room - |sign|)
    ensures PadText(room, sign, f) == if f.zero && !f.left then Repeat('0', room - |sign|) else []
    ensures TailText(room, sign, f) == if f.left then Repeat(' ', room - |sign|) else []
    ensures DigitsText(tmp, precision) == if precision == 0 then [] else Repeat('0', precision - |tmp|) + Reversed(tmp)
  {
  }

  lemma Arrange(lead: string, sign: string, pad: string, digits: string, tail: string)
    ensures lead == pad == [] ==> lead + sign + pad + digits + tail == sign + digits + tail
    ensures lead == tail == [] ==> lead + sign + pad + digits + tail == sign + pad + digits
    ensures pad == tail == [] ==> lead + sign + pad + digits + tail == lead + sign + digits
  {
  }

  /** The digits of a decimal number are read back as that number, whatever follows that is not a digit. */
  lemma {:induction false} AtoiReads(n: nat, fmt: string, i: nat)
    requires var s := Reversed(Tmp(n, 10, false)); i + |s| <= |fmt| && fmt[i..i + |s|] == s && !IsDigit(CharAt(fmt, i + |s|))
    ensures Atoi(fmt, i, 0) == (n, i + |Tmp(n, 10, false)|)
  {
    var s := Reversed(Tmp(n, 10, false));
    if n == 0 {
      assert fmt[i] == s[0] == '0';
    } else {
      AtoiPasses(n, fmt, i);
    }
  }

  /** Once it has read the digits of `n`, skip_atoi goes on with `n`. */
  lemma {:induction false} AtoiPasses(n: nat, fmt: string, i: nat)
    requires var s := Reversed(Backwards(n, 10, false)); i + |s| <= |fmt| && fmt[i..i + |s|] == s
    ensures Atoi(fmt, i, 0) == Atoi(fmt, i + |Backwards(n, 10, false)|, n)
    decreases n
  {
    if n > 0 {
      var t := Reversed(Backwards(n / 10, 10, false));
      LastDigit(n);
      Within(fmt, i, t, Digit(n % 10, false));
      AtoiPasses(n / 10, fmt, i);
      DecimalDigit(n % 10);
    }
  }

  lemma LastDigit(n: nat)
    requires n > 0
    ensures Reversed(Backwards(n, 10, false)) == Reversed(Backwards(n / 10, 10, false)) + [Digit(n % 10, false)]
  {
  }

  lemma Within(fmt: string, i: nat, t: string, c: char)
    requires i + |t| < |fmt| && fmt[i..i + |t| + 1] == t + [c]
    ensures fmt[i..i + |t|] == t && fmt[i + |t|] == c
  {
    var u := fmt[i..i + |t| + 1];
    assert fmt[i..i + |t|] == u[..|t|] && fmt[i + |t|] == u[|t|];
  }

  lemma DecimalDigit(d: nat)
    requires d < 10
    ensures IsDigit(Digit(d, false)) && (Digit(d, false) - '0') as nat == d
  {
    assert d in {0, 1, 2, 3, 4, 5, 6, 7, 8, 9};
  }

  // ----- the buffer -----

  /** `str` is the write position, `end` the bound of the buffer; both count from its start. `text` is all that was written or
      would have been. */
  class Writer {
    const buf: array<char>
    const end: nat
    var str: nat
    ghost var text: string

    /** The part of the text that fits is in the buffer, and `str` runs on regardless. */
    ghost predicate Valid()
      reads this, buf
    {
      end <= buf.Length && str == |text| && forall i :: 0 <= i < str && i < end ==> buf[i] == text[i]
    }

    constructor (buf: array<char>, size: nat)
      requires size <= buf.Length
      ensures Valid() && this.buf == buf && end == size && text == []
    {
      this.buf, end, str, text := buf, size, 0, [];
    }

    /** `if (str < end) *str = c; ++ str;` */
    method Put(c: char)
      requires Valid()
      modifies this, buf
      ensures Valid() && text == old(text) + [c]
      ensures forall i :: end <= i < buf.Length ==> buf[i] == old(buf[i])
    {
      if str < end { buf[str] := c; }
      str := str + 1;
      text := text + [c];
    }

    /** The loops that put the same character `n` times. */
    method Fill(c: char, n: int)
      requires Valid()
      modifies this, buf
      ensures Valid() && text == old(text) + Repeat(c, n)
      ensures forall i :: end <= i < buf.Length ==> buf[i] == old(buf[i])
    {
      var k := n;
      assert Repeat(c, n - k) == [] && text == old(text) + Repeat(c, n - k);
      while k > 0
        invariant Valid() && (n > 0 ==> 0 <= k <= n) && (n <= 0 ==> k == n) && text == old(text) + Repeat(c, n - k)
        invariant forall i :: end <= i < buf.Length ==> buf[i] == old(buf[i])
      {
        assert Repeat(c, n - k) + [c] == Repeat(c, n - k + 1);
        Put(c);
        k := k - 1;
      }
      assert Repeat(c, n - k) == Repeat(c, n);
    }

    /** The loop that puts the first `len` characters of a string. */
    method Copy(s: string, len: nat)
      requires Valid() && len <= |s|
      modifies this, buf
      ensures Valid() && text == old(text) + s[..len]
      ensures forall i :: end <= i < buf.Length ==> buf[i] == old(buf[i])
    {
      var i := 0;
      while i < len
        invariant i <= len && Valid() && text == old(text) + s[..i]
        invariant forall j :: end <= j < buf.Length ==> buf[j] == old(buf[j])
      {
        assert s[..i] + [s[i]] == s[..i + 1];
        Put(s[i]);
        i := i + 1;
      }
    }

    /** The loop that puts the `n` digits collected in `tmp`, the last one first. */
    method CopyBack(tmp: array<char>, n: nat)
      requires Valid() && n <= tmp.Length && tmp != buf
      modifies this, buf
      ensures Valid() && text == old(text) + Reversed(tmp[..n])
      ensures forall i :: end <= i < buf.Length ==> buf[i] == old(buf[i])
    {
      ghost var r := Reversed(tmp[..n]);
      var i: int := n;
      while i > 0
        invariant 0 <= i <= n && Valid() && text == old(text) + r[..n - i] && tmp[..] == old(tmp[..])
        invariant forall j :: end <= j < buf.Length ==> buf[j] == old(buf[j])
      {
        i := i - 1;
        assert r[..n - i] == r[..n - i - 1] + [tmp[i]];
        Put(tmp[i]);
      }
      assert r[..n] == r;
    }

    /** `divide`: the lowest digit of a number, and the rest. */
    static method Divide(num: nat, base: nat, ghost large: bool) returns (d: nat, rest: nat)
      requires num > 0
      ensures d < 16 && rest < num && Backwards(num, base, large) == [Digit(d, large)] + Backwards(rest, base, large)
    {
      d, rest := num % Radix(base), num / Radix(base);
      assert if base == 10 then num / 10 < num else num / 16 < num;
    }

    /** The loop that collects the digits: of the 16 characters of `tmp` at most 10 are used. */
    static method Collect(tmp: array<char>, w: Word, base: nat, large: bool) returns (i: nat)
      requires tmp.Length == 16
      modifies tmp
      ensures i <= 10 && tmp[..i] == Tmp(w, base, large)
    {
      hide Backwards, Digit, Radix;
      i := 0;
      if w == 0 {
        tmp[0] := '0';
        assert tmp[..1] == ['0'];
        return 1;
      }
      WordFits(w, base, large);
      var num: nat := w;
      while num != 0
        invariant i <= 10 && Backwards(w, base, large) == tmp[..i] + Backwards(num, base, large)
        decreases num
      {
        ghost var before := tmp[..i];
        var d, rest := Divide(num, base, large);
        AppendOne(before, Digit(d, large), Backwards(rest, base, large));
        tmp[i] := Digit(d, large);
        assert tmp[..i + 1] == before + [Digit(d, large)];
        num, i := rest, i + 1;
      }
      NoDigits(base, large);
      assert tmp[..i] + [] == tmp[..i];
    }

    /** The first half of print_number: blanks, sign and padding; returns what is left of the width. */
    method PrintSign(room: int, sign: string, f: Flags) returns (size: int)
      requires Valid() && |sign| <= 1
      modifies this, buf
      ensures Valid() && text == old(text) + LeadText(room, sign, f) + sign + PadText(room, sign, f)
      ensures if f.left then size == room - |sign| else size <= 0
      ensures forall i :: end <= i < buf.Length ==> buf[i] == old(buf[i])
    {
      var zero := f.zero && !f.left;
      size := room;
      assert old(text) + [] == old(text);
      if !zero && !f.left {
        if sign != [] && size > 0 { size := size - 1; }
        Fill(' ', size);
        size := AfterLoop(size);
      }
      ghost var a := text;
      if sign != [] {
        Put(sign[0]);
        size := size - 1;
      }
      assert text == a + sign && a + sign + [] == a + sign;
      if !f.left {
        Fill(if zero then '0' else ' ', size);
        size := AfterLoop(size);
      }
    }

    /** The zeros up to the precision and the digits. */
    method PrintDigits(tmp: array<char>, n: nat, precision0: int)
      requires Valid() && n <= tmp.Length && tmp != buf
      modifies this, buf
      ensures Valid() && text == old(text) + DigitsText(old(tmp[..n]), precision0)
      ensures forall i :: end <= i < buf.Length ==> buf[i] == old(buf[i])
    {
      var precision := if n > precision0 then n else precision0;
      Fill('0', precision - n);
      assert tmp[..n] == old(tmp[..n]);
      ghost var zeros := Repeat('0', precision0 - n);
      assert Repeat('0', precision - n) == zeros;
      if precision0 != 0 { CopyBack(tmp, n); }
      Associate(old(text), zeros, if precision0 != 0 then Reversed(old(tmp[..n])) else []);
    }

    /** print_number once the digits have been collected. */
    method PrintCollected(sign: string, tmp: array<char>, n: nat, s: int, precision: int, f: Flags)
      requires Valid() && |sign| <= 1 && n <= tmp.Length && tmp != buf
      modifies this, buf
      ensures Valid()
      ensures var digits := old(tmp[..n]);
        var room := s - Max(n, precision);
        text == old(text) + (LeadText(room, sign, f) + sign + PadText(room, sign, f) + DigitsText(digits, precision) + TailText(room, sign, f))
      ensures forall i :: end <= i < buf.Length ==> buf[i] == old(buf[i])
    {
      ghost var digits := tmp[..n];
      var room := s - (if n > precision then n else precision);
      ghost var t := text;
      var size := PrintSign(room, sign, f);
      ghost var a := text;
      assert tmp[..n] == digits;
      PrintDigits(tmp, n, precision);
      assert Repeat(' ', size) == TailText(room, sign, f);
      Fill(' ', size);
      assert text == a + DigitsText(digits, precision) + TailText(room, sign, f);
      Regroup(t, LeadText(room, sign, f), sign, PadText(room, sign, f), DigitsText(digits, precision), TailText(room, sign, f));
    }

    /** print_number. */
    method PrintNumber(w: Word, base: nat, s: int, precision: int, f: Flags)
      requires Valid()
      modifies this, buf
      ensures Valid() && text == old(text) + Number(w, base, s, precision, f)
      ensures forall i :: end <= i < buf.Length ==> buf[i] == old(buf[i])
    {
      hide LeadText, PadText, DigitsText, TailText, Tmp;
      var tmp := new char[16];
      var n := Collect(tmp, Magnitude(w, f), base, f.large);
      PrintCollected(SignOf(w, f), tmp, n, s, precision, f);
    }
  }

  function Power(r: nat, k: nat): nat {
    if k == 0 then 1 else r * Power(r, k - 1)
  }

  /** A number below the k-th power of the base has at most `k` digits. */
  lemma {:induction false} DigitsFit(n: nat, base: nat, large: bool, k: nat)
    requires n < Power(Radix(base), k)
    ensures |Backwards(n, base, large)| <= k
    decreases n
  {
    if n > 0 {
      var r := Radix(base);
      assert k > 0;
      Quotient(n, r, Power(r, k - 1));
      DigitsFit(n / r, base, large, k - 1);
    }
  }

  lemma Quotient(n: nat, r: nat, p: nat)
    requires r > 0 && n < r * p
    ensures n / r < p
  {
  }

  lemma WordFits(w: Word, base: nat, large: bool)
    ensures |Backwards(w, base, large)| <= 10
  {
    if base == 10 {
      TenPower();
      DigitsFit(w, base, large, 10);
    } else {
      SixteenPower();
      DigitsFit(w, base, large, 8);
    }
  }

  lemma TenPower()
    ensures Power(10, 10) == 10_000_000_000
  {
    assert Power(10, 2) == 100 by { assert Power(10, 1) == 10; }
    assert Power(10, 4) == 10_000 by { assert Power(10, 3) == 1000; }
    assert Power(10, 6) == 1_000_000 by { assert Power(10, 5) == 100_000; }
    assert Power(10, 8) == 100_000_000 by { assert Power(10, 7) == 10_000_000; }
    assert Power(10, 9) == 1_000_000_000;
  }

  lemma SixteenPower()
    ensures Power(16, 8) == 0x1_0000_0000
  {
    assert Power(16, 2) == 0x100 by { assert Power(16, 1) == 16; }
    assert Power(16, 4) == 0x1_0000 by { assert Power(16, 3) == 0x1000; }
    assert Power(16, 6) == 0x100_0000 by { assert Power(16, 5) == 0x10_0000; }
    assert Power(16, 7) == 0x1000_0000;
  }

  lemma AppendOne(a: string, c: char, b: string)
    ensures a + ([c] + b) == (a + [c]) + b
  {
  }

  lemma NoDigits(base: nat, large: bool)
    ensures Backwards(0, base, large) == []
  {
  }

  lemma Regroup(t: string, a: string, b: string, c: string, d: string, e: string)
    ensures t + a + b + c + d + e == t + (a + b + c + d + e)
  {
  }

  /** What `while (size-- > 0)` leaves in `size`. */
  function AfterLoop(size: int): int {
    if size > 0 then -1 else size - 1
  }

  // ----- reading a directive -----

  /** The loop over the flags. */
  method ScanFlags(fmt: string, i: nat) returns (f: Flags, j: nat)
    requires i <= |fmt|
    ensures (f, j) == ReadFlags(fmt, i, NO_FLAGS)
  {
    f, j := NO_FLAGS, i;
    while true
      invariant j <= |fmt| && ReadFlags(fmt, j, f) == ReadFlags(fmt, i, NO_FLAGS)
      decreases |fmt| - j
    {
      match CharAt(fmt, j) {
        case '-' => f := f.(left := true);
        case '+' => f := f.(plus := true);
        case ' ' => f := f.(space := true);
        case '#' => f := f.(special := true);
        case '0' => f := f.(zero := true);
        case _ => break;
      }
      j := j + 1;
    }
  }

  /** skip_atoi. */
  method ScanNumber(fmt: string, i: nat) returns (n: nat, j: nat)
    requires i <= |fmt|
    ensures (n, j) == Atoi(fmt, i, 0)
  {
    n, j := 0, i;
    while IsDigit(CharAt(fmt, j))
      invariant j <= |fmt| && Atoi(fmt, j, n) == Atoi(fmt, i, 0)
      decreases |fmt| - j
    {
      n := n * 10 + (fmt[j] - '0') as nat;
      j := j + 1;
    }
  }

  method ScanWidth(fmt: string, i: nat, f: Flags, args: seq<Arg>) returns (g: Flags, width: int, j: nat, rest: seq<Arg>)
    requires i <= |fmt|
    ensures (g, width, j, rest) == ReadWidth(fmt, i, f, args)
  {
    g, width, j, rest := f, -1, i, args;
    if IsDigit(CharAt(fmt, j)) {
      width, j := ScanNumber(fmt, j);
    } else if CharAt(fmt, j) == '*' {
      j := j + 1;
      width, rest := Signed(IntArg(rest)), Rest(rest);
      if width < 0 {
        width := -width;
        g := g.(left := true);
      }
    }
  }

  method ScanPrecision(fmt: string, i: nat, args: seq<Arg>) returns (precision: int, j: nat, rest: seq<Arg>)
    requires i <= |fmt|
    ensures (precision, j, rest) == ReadPrecision(fmt, i, args)
  {
    precision, j, rest := -1, i, args;
    if CharAt(fmt, j) == '.' {
      j := j + 1;
      if IsDigit(CharAt(fmt, j)) {
        precision, j := ScanNumber(fmt, j);
      } else if CharAt(fmt, j) == '*' {
        j := j + 1;
        precision, rest := Signed(IntArg(rest)), Rest(rest);
      }
      if precision < 0 { precision := 0; }
    }
  }

  method ScanDirective(fmt: string, i: nat, args: seq<Arg>) returns (d: Directive)
    requires i < |fmt|
    ensures d == ReadDirective(fmt, i, args)
  {
    var f, j := ScanFlags(fmt, i + 1);
    var width, precision, rest;
    f, width, j, rest := ScanWidth(fmt, j, f, args);
    precision, j, rest := ScanPrecision(fmt, j, rest);
    if CharAt(fmt, j) == 'h' || CharAt(fmt, j) == 'l' {
      d := Directive(f, width, precision, CharAt(fmt, j), j + 1, rest);
    } else {
      d := Directive(f, width, precision, '\0', j, rest);
    }
  }

  // ----- rt_vsnprintf -----

  method PrintChar(out: Writer, d: Directive)
    requires out.Valid()
    modifies out, out.buf
    ensures out.Valid() && out.text == old(out.text) + CharText(d)
    ensures forall i :: out.end <= i < out.buf.Length ==> out.buf[i] == old(out.buf[i])
  {
    if !d.flags.left { out.Fill(' ', d.width - 1); }
    out.Put(Text8(IntArg(d.args)));
    if d.flags.left { out.Fill(' ', d.width - 1); }
    var blanks := Repeat(' ', d.width - 1);
    assert out.text == old(out.text) + CharText(d);
  }

  method PrintString(out: Writer, d: Directive)
    requires out.Valid()
    modifies out, out.buf
    ensures out.Valid() && out.text == old(out.text) + StrText(d)
    ensures forall i :: out.end <= i < out.buf.Length ==> out.buf[i] == old(out.buf[i])
  {
    var s := StrArg(d.args);
    var len := |s|;
    if d.precision > 0 && len > d.precision { len := d.precision; }
    if !d.flags.left { out.Fill(' ', d.width - len); }
    out.Copy(s, len);
    if d.flags.left { out.Fill(' ', d.width - len); }
    assert out.text == old(out.text) + StrText(d);
  }

  method PrintInt(out: Writer, d: Directive, base: nat, f: Flags)
    requires out.Valid()
    modifies out, out.buf
    ensures out.Valid() && out.text == old(out.text) + IntText(d, base, f)
    ensures forall i :: out.end <= i < out.buf.Length ==> out.buf[i] == old(out.buf[i])
  {
    var num: Word := IntArg(d.args);
    if d.qualifier == 'h' {
      num := num % 0x1_0000;
      if f.sign && num >= 0x8000 { num := num + 0xFFFF_0000; }
    }
    out.PrintNumber(num, base, d.width, d.precision, f);
  }

  /** The switch over the conversion character. */
  method PrintDirective(out: Writer, fmt: string, d: Directive) returns (takes: bool, next: nat)
    requires out.Valid() && d.at <= |fmt| && '\0' !in fmt
    modifies out, out.buf
    ensures out.Valid() && (out.text, takes, next) == (old(out.text) + DirectiveText(fmt, d).0, DirectiveText(fmt, d).1, DirectiveText(fmt, d).2)
    ensures forall i :: out.end <= i < out.buf.Length ==> out.buf[i] == old(out.buf[i])
  {
    takes, next := true, if d.at < |fmt| then d.at + 1 else d.at;
    match CharAt(fmt, d.at)
    case 'c' => PrintChar(out, d);
    case 's' => PrintString(out, d);
    case 'p' =>
      if d.width == -1 {
        out.PrintNumber(IntArg(d.args), 16, 8, d.precision, d.flags.(zero := true));
      } else {
        out.PrintNumber(IntArg(d.args), 16, d.width, d.precision, d.flags);
      }
    case '%' =>
      out.Put('%');
      takes := false;
    case 'o' => PrintInt(out, d, 8, d.flags);
    case 'X' => PrintInt(out, d, 16, d.flags.(large := true));
    case 'x' => PrintInt(out, d, 16, d.flags);
    case 'd' => PrintInt(out, d, 10, d.flags.(sign := true));
    case 'i' => PrintInt(out, d, 10, d.flags.(sign := true));
    case 'u' => PrintInt(out, d, 10, d.flags);
    case c =>
      out.Put('%');
      if d.at < |fmt| {
        out.Put(c);
        assert out.text == old(out.text) + ['%', c];
      }
      takes := false;
  }

  lemma TextOf(t: string, fmt: string, i: nat, args: seq<Arg>, d: Directive, next: nat, rest: seq<Arg>)
    requires i < |fmt| && fmt[i] == '%' && d == ReadDirective(fmt, i, args)
    requires next == DirectiveText(fmt, d).2 && rest == if DirectiveText(fmt, d).1 then Rest(d.args) else d.args
    ensures t + Text(fmt, i, args) == (t + DirectiveText(fmt, d).0) + Text(fmt, next, rest)
  {
    Associate(t, DirectiveText(fmt, d).0, Text(fmt, next, rest));
  }

  lemma Associate(a: string, b: string, c: string)
    ensures a + (b + c) == (a + b) + c
  {
  }

  /** One turn of the main loop. */
  method PrintNext(out: Writer, fmt: string, i: nat, args: seq<Arg>) returns (next: nat, rest: seq<Arg>)
    requires out.Valid() && i < |fmt| && '\0' !in fmt
    modifies out, out.buf
    ensures out.Valid() && i < next <= |fmt| && out.text + Text(fmt, next, rest) == old(out.text) + Text(fmt, i, args)
    ensures forall j :: out.end <= j < out.buf.Length ==> out.buf[j] == old(out.buf[j])
  {
    if fmt[i] != '%' {
      out.Put(fmt[i]);
      next, rest := i + 1, args;
      AppendOne(old(out.text), fmt[i], Text(fmt, i + 1, args));
    } else {
      var d := ScanDirective(fmt, i, args);
      var takes;
      takes, next := PrintDirective(out, fmt, d);
      rest := if takes then Rest(d.args) else d.args;
      TextOf(old(out.text), fmt, i, args, d, next, rest);
    }
  }

  /** Whatever the size of the buffer, the result is the length of the whole text and nothing is written at or behind the end;
      a buffer that is not empty holds as much of the text as fits in front of a NUL. */
  method Vsnprintf(buf: array<char>, size: nat, fmt: string, args: seq<Arg>) returns (n: nat)
    requires size <= buf.Length && '\0' !in fmt
    modifies buf
    ensures n == |Text(fmt, 0, args)|
    ensures var m := if n < size then n else size - 1;
      size > 0 ==> buf[m] == '\0' && forall i :: 0 <= i < m ==> buf[i] == Text(fmt, 0, args)[i]
    ensures forall i :: size <= i < buf.Length ==> buf[i] == old(buf[i])
  {
    var out := new Writer(buf, size);
    var i, rest := 0, args;
    while i < |fmt|
      invariant i <= |fmt| && out.Valid() && out.buf == buf && out.end == size && fresh(out)
      invariant out.text + Text(fmt, i, rest) == Text(fmt, 0, args)
      invariant forall j :: size <= j < buf.Length ==> buf[j] == old(buf[j])
      decreases |fmt| - i
    {
      i, rest := PrintNext(out, fmt, i, rest);
    }
    assert out.text + [] == out.text;
    n := out.str;
    if size > 0 {
      if out.str < size { buf[out.str] := '\0'; } else { buf[size - 1] := '\0'; }
    }
  }
}
