/** `stationary/types.py`: best-effort conversion of a configuration string
    into a typed value by an ordered table of regular expressions, the first
    match winning. Each regular expression is written out as a predicate on
    the characters; what Python's `int`, `float` and `datetime.strptime` make
    of a matched string is recorded by which branch fired (a float keeps its
    source text, a date-time its integer fields). */
module Types {
  import opened Common

  datatype Value =
    | Int(i: int)
    | Float(text: string)
    | DateTime(year: int, month: int, day: int, hour: int, minute: int)
    | Bool(b: bool)
    | NoneValue
    | Str(s: string)

  /** What `convert` does with a string: return a value, or raise. */
  datatype Conversion = Converted(value: Value) | Raised(error: PyError)

  /** The entries of `TYPE_CONVERSIONS`, in table order. */
  datatype Pattern =
    | IntPattern       // ^[+-]?\d+$                       -> int
    | DecimalPattern   // ^[+-]?\d*\.\d+$                  -> float
    | ExponentPattern  // ^[+-]?\d*\.\d+[eE][+-]?\d+$      -> float
    | DateTimePattern  // ^\d{4}-\d{1,2}-\d{1,2} \d{1,2}:\d{1,2}  -> strptime '%Y-%m-%d %H:%M'
    | DatePattern      // ^\d{4}-\d{1,2}-\d{1,2}           -> strptime '%Y-%m-%d'
    | BoolPattern      // ^(true|false)$, ignoring case    -> {'true': True, 'false': False}[x.lower()]
    | NonePattern      // ^None$, ignoring case            -> None
    | AnyPattern       // ^.*$                             -> x

  const TypeConversions: seq<Pattern> :=
    [IntPattern, DecimalPattern, ExponentPattern, DateTimePattern, DatePattern,
     BoolPattern, NonePattern, AnyPattern]

  // ---------------------------------------------------------------------
  // The regular expressions

  predicate IsDigit(c: char) { '0' <= c <= '9' }

  /** The length of the run of digits that starts `s`. */
  function DigitRun(s: string): (n: nat)
    ensures n <= |s|
    ensures forall i :: 0 <= i < n ==> IsDigit(s[i])
    ensures n < |s| ==> !IsDigit(s[n])
  {
    if s != [] && IsDigit(s[0]) then 1 + DigitRun(s[1..]) else 0
  }

  lemma DigitRunIs(s: string, n: nat)
    requires n <= |s|
    requires forall i :: 0 <= i < n ==> IsDigit(s[i])
    requires n < |s| ==> !IsDigit(s[n])
    ensures DigitRun(s) == n
  {
  }

  /** `\d+` spanning all of `s`. */
  predicate Digits(s: string) {
    s != [] && DigitRun(s) == |s|
  }

  /** What follows the optional sign `[+-]?`. */
  function Unsigned(s: string): (r: string)
    ensures |r| <= |s|
  {
    if s != [] && (s[0] == '+' || s[0] == '-') then s[1..] else s
  }

  /** Python's `$` matches at the end of the string and also just before a
      newline that ends it, so an anchored pattern matches `s` when its body
      matches `s` or `s` without that final newline. */
  predicate EndsWithNewline(s: string) {
    s != [] && s[|s| - 1] == '\n'
  }

  function Chomp(s: string): (r: string)
    requires EndsWithNewline(s)
    ensures |r| == |s| - 1
  {
    s[..|s| - 1]
  }

  predicate IntBody(t: string) {
    Digits(Unsigned(t))
  }

  predicate DecimalBody(t: string) {
    var u := Unsigned(t);
    var k := DigitRun(u);
    k < |u| && u[k] == '.' && Digits(u[k + 1..])
  }

  predicate ExponentBody(t: string) {
    var u := Unsigned(t);
    var k := DigitRun(u);
    k < |u| && u[k] == '.' &&
      var v := u[k + 1..];
      var j := DigitRun(v);
      0 < j < |v| && (v[j] == 'e' || v[j] == 'E') && Digits(Unsigned(v[j + 1..]))
  }

  predicate BoolBody(t: string) {
    Lower(t) == "true" || Lower(t) == "false"
  }

  predicate NoneBody(t: string) {
    Lower(t) == "none"
  }

  /** `.*` spanning `t`: `.` matches anything but a newline. */
  predicate AnyBody(t: string) {
    forall i :: 0 <= i < |t| ==> t[i] != '\n'
  }

  /** `\d{4}-` at the start of `s`: the year digits and what follows the dash. */
  function YearPart(s: string): Option<(string, string)> {
    if |s| >= 5 && DigitRun(s[..4]) == 4 && s[4] == '-' then Some((s[..4], s[5..])) else None
  }

  /** `\d{1,2}` and then `sep` at the start of `s`: the digits and what
      follows the separator. A run of three digits cannot match. */
  function ShortField(s: string, sep: char): (r: Option<(string, string)>)
    ensures r.Some? ==> 1 <= |r.value.0| <= 2 && Digits(r.value.0) && |r.value.1| < |s|
  {
    var n := DigitRun(s);
    if 1 <= n <= 2 && n < |s| && s[n] == sep then Some((s[..n], s[n + 1..])) else None
  }

  /** `^\d{4}-\d{1,2}-\d{1,2}`, with nothing required after the day. */
  predicate DatePrefix(s: string) {
    match YearPart(s)
    case None => false
    case Some((_, r)) =>
      match ShortField(r, '-')
      case None => false
      case Some((_, d)) => d != [] && IsDigit(d[0])
  }

  /** `^\d{4}-\d{1,2}-\d{1,2} \d{1,2}:\d{1,2}`, with nothing required after
      the first minute digit. */
  predicate DateTimePrefix(s: string) {
    match YearPart(s)
    case None => false
    case Some((_, r)) =>
      match ShortField(r, '-')
      case None => false
      case Some((_, r2)) =>
        match ShortField(r2, ' ')
        case None => false
        case Some((_, r3)) =>
          match ShortField(r3, ':')
          case None => false
          case Some((_, mi)) => mi != [] && IsDigit(mi[0])
  }

  /** `rxp.match(s)` for each entry of the table. */
  predicate Matches(p: Pattern, s: string) {
    match p
    case IntPattern => IntBody(s) || (EndsWithNewline(s) && IntBody(Chomp(s)))
    case DecimalPattern => DecimalBody(s) || (EndsWithNewline(s) && DecimalBody(Chomp(s)))
    case ExponentPattern => ExponentBody(s) || (EndsWithNewline(s) && ExponentBody(Chomp(s)))
    case DateTimePattern => DateTimePrefix(s)
    case DatePattern => DatePrefix(s)
    case BoolPattern => BoolBody(s) || (EndsWithNewline(s) && BoolBody(Chomp(s)))
    case NonePattern => NoneBody(s) || (EndsWithNewline(s) && NoneBody(Chomp(s)))
    case AnyPattern => AnyBody(s) || (EndsWithNewline(s) && AnyBody(Chomp(s)))
  }

  // ---------------------------------------------------------------------
  // The converters

  function DigitValue(c: char): nat requires IsDigit(c) { c as int - '0' as int }

  /** The decimal value of a string of digits. */
  function Pow10(k: nat): nat {
    if k == 0 then 1 else 10 * Pow10(k - 1)
  }

  function Number(s: string): (n: nat)
    requires DigitRun(s) == |s|
    ensures n < Pow10(|s|)
  {
    if s == [] then 0 else Number(s[..|s| - 1]) * 10 + DigitValue(s[|s| - 1])
  }

  /** `int(s)` of a string the integer pattern matched: Python's `int`
      ignores the final newline that `$` let through. */
  function IntValue(s: string): int
    requires Matches(IntPattern, s)
  {
    var t := if IntBody(s) then s else Chomp(s);
    var n := Number(Unsigned(t));
    if t[0] == '-' then -(n as int) else n
  }

  predicate IsLeapYear(y: int) {
    y % 4 == 0 && (y % 100 != 0 || y % 400 == 0)
  }

  function DaysInMonth(y: int, m: int): int
    requires 1 <= m <= 12
  {
    if m == 2 then (if IsLeapYear(y) then 29 else 28)
    else if m == 4 || m == 6 || m == 9 || m == 11 then 30
    else 31
  }

  /** The dates `datetime` accepts (years 1 to 9999; four digits give at most 9999). */
  predicate ValidDate(y: int, m: int, d: int) {
    1 <= y && 1 <= m <= 12 && 1 <= d <= DaysInMonth(y, m)
  }

  /** `datetime.datetime.strptime(s, '%Y-%m-%d')` for a string that passed
      the date pattern: the whole string must be consumed, the day must be one
      or two digits, and the fields must make a real date. The result is a
      date-time at midnight. */
  function StrptimeDate(s: string): (r: Option<Value>)
    ensures r.Some? ==> r.value.DateTime? && r.value.hour == 0 && r.value.minute == 0
    ensures r.Some? ==> ValidDate(r.value.year, r.value.month, r.value.day) && r.value.year <= 9999
  {
    match YearPart(s)
    case None => None
    case Some((y, r)) =>
      match ShortField(r, '-')
      case None => None
      case Some((m, d)) => DateOf(y, m, d)
  }

  /** The midnight date-time `strptime` builds from the date fields: the
      day must be one or two digits ending the string, and the date real. */
  function DateOf(y: string, m: string, d: string): (r: Option<Value>)
    requires DigitRun(y) == |y| == 4 && Digits(m)
    ensures r.Some? ==> r.value.DateTime? && r.value.hour == 0 && r.value.minute == 0
    ensures r.Some? ==> ValidDate(r.value.year, r.value.month, r.value.day) && r.value.year <= 9999
  {
    if 1 <= |d| <= 2 && Digits(d) && ValidDate(Number(y), Number(m), Number(d))
    then Some(DateTime(Number(y), Number(m), Number(d), 0, 0))
    else None
  }

  /** `datetime.datetime.strptime(s, '%Y-%m-%d %H:%M')` for a string that
      passed the date-time pattern. */
  function StrptimeDateTime(s: string): (r: Option<Value>)
    ensures r.Some? ==> r.value.DateTime? && 0 <= r.value.hour <= 23 && 0 <= r.value.minute <= 59
    ensures r.Some? ==> ValidDate(r.value.year, r.value.month, r.value.day) && r.value.year <= 9999
  {
    match YearPart(s)
    case None => None
    case Some((y, r)) =>
      match ShortField(r, '-')
      case None => None
      case Some((m, r2)) =>
        match ShortField(r2, ' ')
        case None => None
        case Some((d, r3)) =>
          match ShortField(r3, ':')
          case None => None
          case Some((h, mi)) => DateTimeOf(y, m, d, h, mi)
  }

  /** The date-time `strptime` builds from its fields: the minute must be
      one or two digits ending the string, and every field in range. */
  function DateTimeOf(y: string, m: string, d: string, h: string, mi: string): (r: Option<Value>)
    requires DigitRun(y) == |y| == 4 && Digits(m) && Digits(d) && Digits(h)
    ensures r.Some? ==> r.value.DateTime? && 0 <= r.value.hour <= 23 && 0 <= r.value.minute <= 59
    ensures r.Some? ==> ValidDate(r.value.year, r.value.month, r.value.day) && r.value.year <= 9999
  {
    if 1 <= |mi| <= 2 && Digits(mi) && ValidDate(Number(y), Number(m), Number(d))
       && Number(h) <= 23 && Number(mi) <= 59
    then Some(DateTime(Number(y), Number(m), Number(d), Number(h), Number(mi)))
    else None
  }

  /** `fn(s)` for the entry whose pattern matched. */
  function Apply(p: Pattern, s: string): Conversion
    requires Matches(p, s)
  {
    match p
    case IntPattern => Converted(Int(IntValue(s)))
    case DecimalPattern => Converted(Float(s))
    case ExponentPattern => Converted(Float(s))
    case DateTimePattern =>
      (match StrptimeDateTime(s) case Some(v) => Converted(v) case None => Raised(ValueError))
    case DatePattern =>
      (match StrptimeDate(s) case Some(v) => Converted(v) case None => Raised(ValueError))
    case BoolPattern =>
      if Lower(s) == "true" then Converted(Bool(true))
      else if Lower(s) == "false" then Converted(Bool(false))
      else Raised(KeyError)
    case NonePattern => Converted(NoneValue)
    case AnyPattern => Converted(Str(s))
  }

  /** The loop of `convert` over a table: the first matching entry decides;
      when none matches, `s` comes back as it is. */
  function ConvertWith(table: seq<Pattern>, s: string): Conversion {
    if table == [] then Converted(Str(s))
    else if Matches(table[0], s) then Apply(table[0], s)
    else ConvertWith(table[1..], s)
  }

  /** `convert(s)` */
  function Convert(s: string): Conversion {
    ConvertWith(TypeConversions, s)
  }

  // ---------------------------------------------------------------------
  // First match wins

  /** The entries of the table, one by one. */
  lemma TableEntries()
    ensures |TypeConversions| == 8
    ensures TypeConversions[0] == IntPattern && TypeConversions[1] == DecimalPattern
    ensures TypeConversions[2] == ExponentPattern && TypeConversions[3] == DateTimePattern
    ensures TypeConversions[4] == DatePattern && TypeConversions[5] == BoolPattern
    ensures TypeConversions[6] == NonePattern && TypeConversions[7] == AnyPattern
  {
  }

  /** The result is that of the first entry that matches. */
  lemma {:induction false} FirstMatchWins(table: seq<Pattern>, s: string, k: nat)
    requires k < |table| && Matches(table[k], s)
    requires forall j :: 0 <= j < k ==> !Matches(table[j], s)
    ensures ConvertWith(table, s) == Apply(table[k], s)
  {
    if k > 0 {
      assert !Matches(table[0], s);
      FirstMatchWins(table[1..], s, k - 1);
    }
  }

  /** With no matching entry the string comes back unchanged. */
  lemma {:induction false} NoMatchGivesString(table: seq<Pattern>, s: string)
    requires forall j :: 0 <= j < |table| ==> !Matches(table[j], s)
    ensures ConvertWith(table, s) == Converted(Str(s))
  {
    if table != [] {
      assert !Matches(table[0], s);
      NoMatchGivesString(table[1..], s);
    }
  }

  // ---------------------------------------------------------------------
  // Which strings can match which patterns

  lemma UnsignedOfDigitStart(t: string)
    requires t != [] && IsDigit(t[0])
    ensures Unsigned(t) == t
  {
  }

  /** A string the date patterns accept starts with four digits and a dash,
      so none of the numeric patterns accept it. */
  lemma DateIsNotNumber(s: string)
    requires DatePrefix(s)
    ensures !Matches(IntPattern, s) && !Matches(DecimalPattern, s) && !Matches(ExponentPattern, s)
  {
    assert s[..4][0] == s[0];
    assert IsDigit(s[0]) && s[4] == '-';
    forall t | t == s || (EndsWithNewline(s) && t == Chomp(s))
      ensures !IntBody(t) && !DecimalBody(t) && !ExponentBody(t)
    {
      assert t[0] == s[0] && t[4] == s[4];
      UnsignedOfDigitStart(t);
      forall i | 0 <= i < 4 ensures IsDigit(t[i]) {
        assert t[i] == s[..4][i];
      }
      DigitRunIs(t, 4);
    }
  }

  /** A string whose first character is a letter matches none of the
      numeric or date patterns. */
  lemma LetterIsNoNumberOrDate(s: string)
    requires s != [] && ('a' <= s[0] <= 'z' || 'A' <= s[0] <= 'Z')
    ensures !Matches(IntPattern, s) && !Matches(DecimalPattern, s) && !Matches(ExponentPattern, s)
    ensures !Matches(DateTimePattern, s) && !Matches(DatePattern, s)
  {
    forall t | t == s || (EndsWithNewline(s) && t == Chomp(s))
      ensures !IntBody(t) && !DecimalBody(t) && !ExponentBody(t)
    {
      if t != [] {
        assert t[0] == s[0];
        assert Unsigned(t) == t;
        DigitRunIs(t, 0);
      }
    }
    if |s| >= 5 {
      assert s[..4][0] == s[0];
    }
  }

  /** Every date-time string is also a date string: the two date patterns
      overlap, and only their order keeps the time. */
  lemma DateTimeIsAlsoDate(s: string)
    requires DateTimePrefix(s)
    ensures DatePrefix(s)
  {
    var (_, r) := YearPart(s).value;
    var (_, r2) := ShortField(r, '-').value;
    assert r2 != [] && IsDigit(r2[0]);
  }

  /** An integer string without newlines also matches the catch-all pattern:
      the integer pattern wins only by coming first. */
  lemma IntegerIsAlsoAny(s: string)
    requires Matches(IntPattern, s) && '\n' !in s
    ensures Matches(AnyPattern, s)
  {
  }

  // ---------------------------------------------------------------------
  // Which inputs reach which branch

  lemma Unfold(table: seq<Pattern>, s: string)
    requires table != []
    ensures ConvertWith(table, s) ==
      if Matches(table[0], s) then Apply(table[0], s) else ConvertWith(table[1..], s)
  {
  }

  /** `convert` over the table, written out as the chain of tests it
      performs in order. */
  lemma {:induction false} Cascade(s: string)
    ensures Convert(s) ==
      if Matches(IntPattern, s) then Apply(IntPattern, s)
      else if Matches(DecimalPattern, s) then Apply(DecimalPattern, s)
      else if Matches(ExponentPattern, s) then Apply(ExponentPattern, s)
      else if Matches(DateTimePattern, s) then Apply(DateTimePattern, s)
      else if Matches(DatePattern, s) then Apply(DatePattern, s)
      else if Matches(BoolPattern, s) then Apply(BoolPattern, s)
      else if Matches(NonePattern, s) then Apply(NonePattern, s)
      else if Matches(AnyPattern, s) then Apply(AnyPattern, s)
      else Converted(Str(s))
  {
    var t := TypeConversions;
    Unfold(t, s);
    Unfold(t[1..], s);
    Unfold(t[2..], s);
    Unfold(t[3..], s);
    Unfold(t[4..], s);
    Unfold(t[5..], s);
    Unfold(t[6..], s);
    Unfold(t[7..], s);
    assert t[1..][1..] == t[2..] && t[2..][1..] == t[3..] && t[3..][1..] == t[4..];
    assert t[4..][1..] == t[5..] && t[5..][1..] == t[6..] && t[6..][1..] == t[7..];
    assert t[7..][1..] == [];
  }

  /** None of the seven typed patterns matches. */
  predicate Untyped(s: string) {
    !Matches(IntPattern, s) && !Matches(DecimalPattern, s) && !Matches(ExponentPattern, s)
    && !Matches(DateTimePattern, s) && !Matches(DatePattern, s)
    && !Matches(BoolPattern, s) && !Matches(NonePattern, s)
  }

  lemma FirstCharOfBool(s: string)
    requires Matches(BoolPattern, s)
    ensures s != [] && (LowerChar(s[0]) == 't' || LowerChar(s[0]) == 'f')
  {
    var t := if BoolBody(s) then s else Chomp(s);
    assert Lower(t)[0] == LowerChar(t[0]);
    assert t[0] == s[0];
  }

  lemma FirstCharOfNone(s: string)
    requires Matches(NonePattern, s)
    ensures s != [] && LowerChar(s[0]) == 'n'
  {
    var t := if NoneBody(s) then s else Chomp(s);
    assert Lower(t)[0] == LowerChar(t[0]);
    assert t[0] == s[0];
  }

  /** A string of an optional sign and digits becomes an int, before any
      later pattern is tried. */
  lemma IntegerWins(s: string)
    requires Matches(IntPattern, s)
    ensures Convert(s) == Converted(Int(IntValue(s)))
  {
    Cascade(s);
  }

  /** int results come exactly from the integer pattern. */
  lemma IntegerIff(s: string)
    ensures (Convert(s).Converted? && Convert(s).value.Int?) <==> Matches(IntPattern, s)
  {
    Cascade(s);
  }

  /** float results come exactly from the two decimal patterns, and keep the
      source text. */
  lemma FloatIff(s: string)
    ensures (Convert(s).Converted? && Convert(s).value.Float?)
            <==> (!Matches(IntPattern, s) && (Matches(DecimalPattern, s) || Matches(ExponentPattern, s)))
    ensures Convert(s).Converted? && Convert(s).value.Float? ==> Convert(s).value.text == s
  {
    Cascade(s);
  }

  /** A date-time string is parsed with hour and minute: the date-only
      pattern, which also matches it, comes later. */
  lemma DateTimeParsed(s: string)
    requires DateTimePrefix(s)
    ensures StrptimeDateTime(s).Some? ==> Convert(s) == Converted(StrptimeDateTime(s).value)
    ensures StrptimeDateTime(s).None? ==> Convert(s) == Raised(ValueError)
  {
    DateIsNotNumber(s);
    ReachDateTime(s);
  }

  /** A date-only string gives a date-time at midnight, or raises when
      `strptime` rejects it. */
  lemma DateOnlyAtMidnight(s: string)
    requires DatePrefix(s) && !DateTimePrefix(s)
    ensures StrptimeDate(s).Some? ==> Convert(s) == Converted(StrptimeDate(s).value)
    ensures StrptimeDate(s).None? ==> Convert(s) == Raised(ValueError)
    ensures Convert(s).Converted? ==>
      (Convert(s).value.DateTime? && Convert(s).value.hour == 0 && Convert(s).value.minute == 0)
  {
    DateIsNotNumber(s);
    ReachDate(s);
  }

  /** A string only the date-only pattern matches, of the first five, is
      handed to `strptime(x, '%Y-%m-%d')`. */
  lemma ReachDate(s: string)
    requires !Matches(IntPattern, s) && !Matches(DecimalPattern, s) && !Matches(ExponentPattern, s)
    requires !Matches(DateTimePattern, s) && Matches(DatePattern, s)
    ensures Convert(s) == Apply(DatePattern, s)
  {
    var t := TypeConversions;
    forall j | 0 <= j < 4 ensures !Matches(t[j], s) {
      assert j == 0 || j == 1 || j == 2 || j == 3;
    }
    FirstMatchWins(t, s, 4);
  }

  /** A date-time string, which no numeric pattern matches, is handed to
      `strptime(x, '%Y-%m-%d %H:%M')`. */
  lemma ReachDateTime(s: string)
    requires !Matches(IntPattern, s) && !Matches(DecimalPattern, s) && !Matches(ExponentPattern, s)
    requires Matches(DateTimePattern, s)
    ensures Convert(s) == Apply(DateTimePattern, s)
  {
    var t := TypeConversions;
    TableEntries();
    forall j | 0 <= j < 3 ensures !Matches(t[j], s) {
      assert j == 0 || j == 1 || j == 2;
    }
    FirstMatchWins(t, s, 3);
  }

  /** `"true"` and `"false"` in any mix of cases become booleans. */
  lemma BoolAnyCase(s: string)
    requires Lower(s) == "true" || Lower(s) == "false"
    ensures Convert(s) == Converted(Bool(Lower(s) == "true"))
  {
    assert Matches(BoolPattern, s);
    FirstCharOfBool(s);
    LetterIsNoNumberOrDate(s);
    Cascade(s);
  }

  /** Only `none`, in any case (and with at most a final newline), becomes
      None. */
  lemma NoneIff(s: string)
    ensures Convert(s) == Converted(NoneValue) <==> Matches(NonePattern, s)
  {
    if Matches(NonePattern, s) {
      FirstCharOfNone(s);
      LetterIsNoNumberOrDate(s);
      if Matches(BoolPattern, s) {
        FirstCharOfBool(s);
      }
    }
    Cascade(s);
  }

  /** A string result is always the input itself, and it comes back exactly
      when none of the seven typed patterns matches. */
  lemma StringIff(s: string)
    ensures Convert(s).Converted? && Convert(s).value.Str? ==> Convert(s).value.s == s
    ensures (Convert(s).Converted? && Convert(s).value.Str?) <==> Untyped(s)
  {
    Cascade(s);
  }

  /** `convert` is not total: it raises exactly when a date pattern matched
      and `strptime` rejects the string, or when the boolean pattern matched
      through the final-newline rule and the dict lookup fails. */
  lemma RaisesIff(s: string)
    ensures Convert(s).Raised? <==>
      (DateTimePrefix(s) && StrptimeDateTime(s).None?) ||
      (DatePrefix(s) && !DateTimePrefix(s) && StrptimeDate(s).None?) ||
      (Matches(BoolPattern, s) && Lower(s) != "true" && Lower(s) != "false")
    ensures Convert(s).Raised? ==> Convert(s).error == ValueError || Convert(s).error == KeyError
  {
    if DatePrefix(s) {
      DateIsNotNumber(s);
    }
    if Matches(BoolPattern, s) {
      FirstCharOfBool(s);
      LetterIsNoNumberOrDate(s);
    }
    Cascade(s);
  }

  // ---------------------------------------------------------------------
  // The order of the table decides overlaps

  /** The table with the two date entries swapped. */
  const DateFirst: seq<Pattern> :=
    [IntPattern, DecimalPattern, ExponentPattern, DatePattern, DateTimePattern,
     BoolPattern, NonePattern, AnyPattern]

  /** With the date-only entry first, every date-time string would reach
      `strptime(x, '%Y-%m-%d')`, which rejects the time part. */
  lemma {:induction false} OrderDecidesDates(s: string)
    requires DateTimePrefix(s)
    ensures ConvertWith(DateFirst, s) == Raised(ValueError)
  {
    DateTimeIsAlsoDate(s);
    DateIsNotNumber(s);
    DateTimeHasTime(s);
    var t := DateFirst;
    Unfold(t, s);
    Unfold(t[1..], s);
    Unfold(t[2..], s);
    Unfold(t[3..], s);
    assert t[1..][1..] == t[2..] && t[2..][1..] == t[3..];
    assert ConvertWith(t, s) == Apply(DatePattern, s);
  }

  /** A date-time string is longer than a date, so `'%Y-%m-%d'` leaves
      unconverted data. */
  lemma DateTimeHasTime(s: string)
    requires DateTimePrefix(s)
    ensures StrptimeDate(s).None?
  {
    var (_, r) := YearPart(s).value;
    var (_, r2) := ShortField(r, '-').value;
    var (_, r3) := ShortField(r2, ' ').value;
    var d := DigitRun(r2);
    assert r2[d] == ' ';
    assert !Digits(r2) by { assert !IsDigit(r2[d]); }
  }

  // ---------------------------------------------------------------------
  // Particular strings

  lemma IntegerExamples()
    ensures Convert("42") == Converted(Int(42))
    ensures Convert("-7") == Converted(Int(-7))
  {
    DigitRunIs("42", 2);
    assert Number("42") == 42 by { assert "42"[..1] == "4"; }
    IntegerWins("42");
    assert Unsigned("-7") == "7";
    DigitRunIs("7", 1);
    IntegerWins("-7");
  }

  lemma DecimalExample()
    ensures Convert("3.14") == Converted(Float("3.14"))
  {
    var s := "3.14";
    DigitRunIs(s, 1);
    assert s[2..] == "14";
    DigitRunIs("14", 2);
    assert !EndsWithNewline(s);
    assert !Matches(IntPattern, s);
    assert Matches(DecimalPattern, s);
    Cascade(s);
  }

  /** A trailing dot is not a decimal. */
  lemma TrailingDotExample()
    ensures Convert("5.") == Converted(Str("5."))
  {
    var s := "5.";
    DigitRunIs(s, 1);
    assert Unsigned(s) == s && s[2..] == [];
    assert !EndsWithNewline(s);
    assert !Matches(IntPattern, s);
    assert !Matches(DecimalPattern, s);
    assert !Matches(ExponentPattern, s);
    assert |Lower(s)| == 2;
    assert Untyped(s);
    StringIff(s);
  }

  /** An exponent needs a dot before it. */
  lemma ExponentWithoutDotExample()
    ensures Convert("1e5") == Converted(Str("1e5"))
  {
    var s := "1e5";
    DigitRunIs(s, 1);
    assert Unsigned(s) == s;
    assert !EndsWithNewline(s);
    assert !Matches(IntPattern, s);
    assert !Matches(DecimalPattern, s);
    assert !Matches(ExponentPattern, s);
    assert |Lower(s)| == 3;
    assert Untyped(s);
    StringIff(s);
  }

  lemma NoneExamples()
    ensures Convert("None") == Converted(NoneValue)
    ensures Convert("null") == Converted(Str("null"))
  {
    NoneSpelledOut();
    NullIsString();
  }

  lemma NoneSpelledOut()
    ensures Convert("None") == Converted(NoneValue)
  {
    assert Lower("None") == "none";
    NoneIff("None");
  }

  lemma NullIsString()
    ensures Convert("null") == Converted(Str("null"))
  {
    var s := "null";
    NullUntyped();
    StringIff(s);
  }

  lemma NullUntyped()
    ensures Untyped("null")
  {
    var s := "null";
    LetterIsNoNumberOrDate(s);
    assert !EndsWithNewline(s);
    assert Lower(s) == "null";
  }

  lemma BoolExample()
    ensures Convert("TRUE") == Converted(Bool(true))
  {
    assert Lower("TRUE") == "true";
    BoolAnyCase("TRUE");
  }

  lemma Number2023()
    ensures DigitRun("2023") == 4 && Number("2023") == 2023
  {
    DigitRunIs("2023", 4);
    assert "2023"[..3] == "202" && "202"[..2] == "20" && "20"[..1] == "2";
    DigitRunIs("202", 3);
    DigitRunIs("20", 2);
    DigitRunIs("2", 1);
  }

  lemma YearOfExample()
    ensures YearPart("2023-1-5 10:30") == Some(("2023", "1-5 10:30"))
  {
    var s := "2023-1-5 10:30";
    assert s[..4] == "2023" && s[5..] == "1-5 10:30";
    DigitRunIs("2023", 4);
  }

  lemma MonthOfExample()
    ensures ShortField("1-5 10:30", '-') == Some(("1", "5 10:30"))
  {
    var r := "1-5 10:30";
    DigitRunIs(r, 1);
    assert r[..1] == "1" && r[2..] == "5 10:30";
  }

  lemma DayOfExample()
    ensures ShortField("5 10:30", ' ') == Some(("5", "10:30"))
  {
    var r := "5 10:30";
    DigitRunIs(r, 1);
    assert r[..1] == "5" && r[2..] == "10:30";
  }

  lemma HourOfExample()
    ensures ShortField("10:30", ':') == Some(("10", "30"))
  {
    var r := "10:30";
    DigitRunIs(r, 2);
    assert r[..2] == "10" && r[3..] == "30";
  }

  lemma DateTimeExampleMatches()
    ensures DateTimePrefix("2023-1-5 10:30")
  {
    YearOfExample();
    MonthOfExample();
    DayOfExample();
    HourOfExample();
  }

  lemma ExampleNumbers()
    ensures Digits("1") && Number("1") == 1 && Digits("5") && Number("5") == 5
    ensures Digits("10") && Number("10") == 10 && Digits("30") && Number("30") == 30
  {
    DigitRunIs("30", 2);
    DigitRunIs("10", 2);
    DigitRunIs("1", 1);
    DigitRunIs("5", 1);
    assert "10"[..1] == "1" && "30"[..1] == "3";
  }

  lemma DateTimeExampleParsed()
    ensures StrptimeDateTime("2023-1-5 10:30") == Some(DateTime(2023, 1, 5, 10, 30))
  {
    YearOfExample();
    MonthOfExample();
    DayOfExample();
    HourOfExample();
    StrptimeDateTimeOfFields("2023-1-5 10:30", "2023", "1-5 10:30", "1", "5 10:30", "5", "10:30", "10", "30");
    DateTimeOfExample();
  }

  lemma DateTimeOfExample()
    ensures Digits("2023") && Digits("1") && Digits("5") && Digits("10")
    ensures DateTimeOf("2023", "1", "5", "10", "30") == Some(DateTime(2023, 1, 5, 10, 30))
  {
    ExampleNumbers();
    Number2023();
    assert ValidDate(2023, 1, 5);
  }

  /** `strptime` on a string whose fields were split off one by one. */
  lemma StrptimeDateTimeOfFields(s: string, y: string, r: string, m: string, r2: string, d: string,
                                 r3: string, h: string, mi: string)
    requires YearPart(s) == Some((y, r)) && ShortField(r, '-') == Some((m, r2))
    requires ShortField(r2, ' ') == Some((d, r3)) && ShortField(r3, ':') == Some((h, mi))
    ensures StrptimeDateTime(s) == DateTimeOf(y, m, d, h, mi)
  {
  }

  lemma DateTimeExample()
    ensures Convert("2023-1-5 10:30") == Converted(DateTime(2023, 1, 5, 10, 30))
  {
    DateTimeExampleMatches();
    DateTimeExampleParsed();
    DateTimeParsed("2023-1-5 10:30");
  }

  /** The date fields of a `YYYY-MM-DD` or `YYYY-MM-DDx` string. */
  lemma DateFields(s: string, rest: string)
    requires s == "2023-" + rest && |rest| >= 4 && rest[..2] == "01" && rest[2] == '-'
    requires IsDigit(rest[3])
    ensures YearPart(s) == Some(("2023", rest))
    ensures ShortField(rest, '-') == Some(("01", rest[3..]))
    ensures DatePrefix(s)
  {
    assert s[..4] == "2023" && s[5..] == rest;
    Number2023();
    DigitRunIs(rest, 2);
  }

  /** `strptime(x, '%Y-%m-%d')` on a string whose fields were split off. */
  lemma StrptimeDateOfFields(s: string, y: string, r: string, m: string, d: string)
    requires YearPart(s) == Some((y, r)) && ShortField(r, '-') == Some((m, d))
    ensures StrptimeDate(s) == DateOf(y, m, d)
  {
  }

  /** The fields of `2023-01-05`, and of the same string with a suffix that
      does not start a time. */
  lemma DateOnlyFields(s: string, day: string)
    requires s == "2023-01-" + day && |day| >= 2 && IsDigit(day[0]) && IsDigit(day[1])
    requires |day| > 2 ==> !IsDigit(day[2]) && day[2] != ' '
    ensures YearPart(s) == Some(("2023", "01-" + day))
    ensures ShortField("01-" + day, '-') == Some(("01", day))
    ensures DatePrefix(s) && !DateTimePrefix(s)
  {
    var rest := "01-" + day;
    assert s == "2023-" + rest;
    DateFields(s, rest);
    assert rest[3..] == day;
    DigitRunIs(day, 2);
  }

  lemma DateOnlyExample()
    ensures Convert("2023-01-05") == Converted(DateTime(2023, 1, 5, 0, 0))
  {
    var s := "2023-01-05";
    DateOnlyFields(s, "05");
    StrptimeDateOfFields(s, "2023", "01-05", "01", "05");
    DateOfExample();
    DateOnlyAtMidnight(s);
  }

  lemma DateOfExample()
    ensures Digits("2023") && Digits("01")
    ensures DateOf("2023", "01", "05") == Some(DateTime(2023, 1, 5, 0, 0))
  {
    Number2023();
    DigitRunIs("01", 2);
    DigitRunIs("05", 2);
    assert Number("01") == 1 by { assert "01"[..1] == "0"; }
    assert Number("05") == 5 by { assert "05"[..1] == "0"; }
  }

  lemma TrailingJunkExample()
    ensures Convert("2023-01-05x") == Raised(ValueError)
  {
    var s := "2023-01-05x";
    DateOnlyFields(s, "05x");
    StrptimeDateOfFields(s, "2023", "01-05x", "01", "05x");
    TrailingJunkDay();
    DateOnlyAtMidnight(s);
  }

  lemma TrailingJunkDay()
    ensures Digits("2023") && Digits("01")
    ensures DateOf("2023", "01", "05x") == None
  {
    Number2023();
    DigitRunIs("01", 2);
  }

  lemma NoSuchDayExample()
    ensures Convert("2023-02-30") == Raised(ValueError)
  {
    var s := "2023-02-30";
    assert s[..4] == "2023" && s[5..] == "02-30";
    Number2023();
    assert YearPart(s) == Some(("2023", "02-30"));
    NoSuchDayFields();
    StrptimeDateOfFields(s, "2023", "02-30", "02", "30");
    NoSuchDay();
    DateOnlyAtMidnight(s);
  }

  lemma NoSuchDayFields()
    ensures ShortField("02-30", '-') == Some(("02", "30"))
    ensures DatePrefix("2023-02-30") && !DateTimePrefix("2023-02-30")
  {
    var s := "2023-02-30";
    assert s[..4] == "2023" && s[5..] == "02-30";
    Number2023();
    assert YearPart(s) == Some(("2023", "02-30"));
    DigitRunIs("02-30", 2);
    assert "02-30"[..2] == "02" && "02-30"[3..] == "30";
    DigitRunIs("30", 2);
    assert ShortField("30", ' ') == None;
  }

  lemma NoSuchDay()
    ensures Digits("2023") && Digits("02")
    ensures DateOf("2023", "02", "30") == None
  {
    Number2023();
    DigitRunIs("02", 2);
    DigitRunIs("30", 2);
    assert Number("02") == 2 by { assert "02"[..1] == "0"; }
    assert Number("30") == 30 by { assert "30"[..1] == "3"; }
    assert !ValidDate(2023, 2, 30);
  }

  /** `$` lets a final newline through: `"42\n"` is still an int, while
      `"true\n"` matches the boolean pattern and then fails the dict lookup. */
  lemma NewlineExamples()
    ensures Convert("42\n") == Converted(Int(42))
    ensures Convert("true\n") == Raised(KeyError)
  {
    var s := "42\n";
    assert EndsWithNewline(s) && Chomp(s) == "42";
    DigitRunIs("42", 2);
    DigitRunIs(s, 2);
    assert !IntBody(s);
    assert Number("42") == 42 by { assert "42"[..1] == "4"; }
    IntegerWins(s);
    var b := "true\n";
    assert EndsWithNewline(b) && Chomp(b) == "true";
    assert Lower("true") == "true";
    assert Matches(BoolPattern, b);
    assert Lower(b) != "true" && Lower(b) != "false" by {
      assert |Lower(b)| == 5 && Lower(b)[0] == 't';
    }
    RaisesIff(b);
    LetterIsNoNumberOrDate(b);
    Cascade(b);
  }
}
