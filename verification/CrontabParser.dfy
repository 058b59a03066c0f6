/** Parsing of crontab timers and files. A parser takes the remaining text and gives a
    value and what is left, or fails. */
module CrontabParser {
  import opened Wrappers

  datatype Field = Minute | Hours | Days | Months | DaysOfWeek

  datatype CrontabValue = Number(n: nat) | Range(low: nat, high: nat) | Step(d: nat) | Any

  datatype Timer = Timer(
    minutes: seq<CrontabValue>, hours: seq<CrontabValue>, days: seq<CrontabValue>,
    months: seq<CrontabValue>, dows: seq<CrontabValue>)

  function Boundaries(field: Field): (nat, nat) {
    match field
    case Minute => (0, 59)
    case Hours => (0, 23)
    case Days => (1, 31)
    case Months => (1, 12)
    case DaysOfWeek => (0, 6)
  }

  predicate Within(field: Field, n: nat) { Boundaries(field).0 <= n <= Boundaries(field).1 }

  // -------------------------------------------------------------------- numbers

  predicate IsDigit(ch: char) { '0' <= ch <= '9' }

  function LeadingDigits(text: string): (n: nat)
    ensures n <= |text|
  {
    if text == [] || !IsDigit(text[0]) then 0 else 1 + LeadingDigits(text[1..])
  }

  function Decimal(digits: string): nat {
    if digits == [] || !IsDigit(digits[|digits| - 1]) then 0
    else 10 * Decimal(digits[..|digits| - 1]) + (digits[|digits| - 1] as int - '0' as int)
  }

  /** `crontab_number`: the whole run of digits, if its value fits the field. */
  function ParseNumber(field: Field, text: string): Option<(nat, string)> {
    var n := LeadingDigits(text);
    if n == 0 || !Within(field, Decimal(text[..n])) then None else Some((Decimal(text[..n]), text[n..]))
  }

  /** `char`. */
  function Expect(ch: char, text: string): Option<string> {
    if text != [] && text[0] == ch then Some(text[1..]) else None
  }

  // --------------------------------------------------------------------- values

  function ParseRange(field: Field, text: string): Option<(CrontabValue, string)> {
    match ParseNumber(field, text)
    case None => None
    case Some((low, afterLow)) =>
      match Expect('-', afterLow)
      case None => None
      case Some(afterDash) =>
        match ParseNumber(field, afterDash)
        case None => None
        case Some((high, rest)) => if low < high then Some((Range(low, high), rest)) else None
  }

  /** A `/` that no valid step follows is left in place. */
  function ParseWildcard(field: Field, text: string): Option<(CrontabValue, string)> {
    match Expect('*', text)
    case None => None
    case Some(afterStar) =>
      match Expect('/', afterStar)
      case None => Some((Any, afterStar))
      case Some(afterSlash) =>
        match ParseNumber(field, afterSlash)
        case None => Some((Any, afterStar))
        case Some((d, rest)) => Some((Step(d), rest))
  }

  /** `crontab_value`: the first alternative that matches. */
  function ParseValue(field: Field, text: string): Option<(CrontabValue, string)> {
    if ParseRange(field, text).Some? then ParseRange(field, text)
    else if ParseWildcard(field, text).Some? then ParseWildcard(field, text)
    else match ParseNumber(field, text)
      case None => None
      case Some((n, rest)) => Some((Number(n), rest))
  }

  /** The rest of a comma-separated list; a comma that no value follows is left in place. */
  function ParseMore(field: Field, text: string): (seq<CrontabValue>, string)
    decreases |text|
  {
    match Expect(',', text)
    case None => ([], text)
    case Some(afterComma) =>
      match ParseValue(field, afterComma)
      case None => ([], text)
      case Some((v, rest)) =>
        if |rest| >= |text| then ([], text)
        else var (vs, end) := ParseMore(field, rest); ([v] + vs, end)
  }

  /** `crontab_values`: at least one value. */
  function ParseValues(field: Field, text: string): Option<(seq<CrontabValue>, string)> {
    match ParseValue(field, text)
    case None => None
    case Some((v, rest)) => var (vs, end) := ParseMore(field, rest); Some(([v] + vs, end))
  }

  /** Values and the blank behind them. */
  function ParseField(field: Field, text: string): Option<(seq<CrontabValue>, string)> {
    match ParseValues(field, text)
    case None => None
    case Some((vs, rest)) =>
      match Expect(' ', rest)
      case None => None
      case Some(end) => Some((vs, end))
  }

  /** `nom_crontab_timer`. */
  function ParseTimer(text: string): Option<(Timer, string)> {
    match ParseField(Minute, text)
    case None => None
    case Some((minutes, t1)) =>
      match ParseField(Hours, t1)
      case None => None
      case Some((hours, t2)) =>
        match ParseField(Days, t2)
        case None => None
        case Some((days, t3)) =>
          match ParseField(Months, t3)
          case None => None
          case Some((months, t4)) =>
            match ParseValues(DaysOfWeek, t4)
            case None => None
            case Some((dows, rest)) => Some((Timer(minutes, hours, days, months, dows), rest))
  }

  // ------------------------------------------------------------------ soundness

  predicate InBounds(field: Field, v: CrontabValue) {
    match v
    case Number(n) => Within(field, n)
    case Range(low, high) => Within(field, low) && Within(field, high) && low < high
    case Step(d) => Within(field, d)
    case Any => true
  }

  predicate AllInBounds(field: Field, vs: seq<CrontabValue>) {
    vs != [] && forall i :: 0 <= i < |vs| ==> InBounds(field, vs[i])
  }

  predicate ValidTimer(t: Timer) {
    && AllInBounds(Minute, t.minutes) && AllInBounds(Hours, t.hours) && AllInBounds(Days, t.days)
    && AllInBounds(Months, t.months) && AllInBounds(DaysOfWeek, t.dows)
  }

  /** Some text was consumed and the rest is untouched. */
  predicate Consumed(text: string, rest: string) {
    |rest| < |text| && text[|text| - |rest|..] == rest
  }

  lemma ExpectConsumes(ch: char, text: string)
    requires Expect(ch, text).Some?
    ensures Consumed(text, Expect(ch, text).value)
  {
  }

  lemma NumberSound(field: Field, text: string)
    requires ParseNumber(field, text).Some?
    ensures Within(field, ParseNumber(field, text).value.0)
    ensures Consumed(text, ParseNumber(field, text).value.1)
  {
  }

  lemma RangeSound(field: Field, text: string)
    requires ParseRange(field, text).Some?
    ensures InBounds(field, ParseRange(field, text).value.0)
    ensures Consumed(text, ParseRange(field, text).value.1)
  {
    var afterLow := ParseNumber(field, text).value.1;
    var afterDash := Expect('-', afterLow).value;
    var rest := ParseRange(field, text).value.1;
    NumberSound(field, text);
    ExpectConsumes('-', afterLow);
    NumberSound(field, afterDash);
    ConsumedTwice(text, afterLow, afterDash);
    ConsumedTwice(text, afterDash, rest);
  }

  lemma WildcardSound(field: Field, text: string)
    requires ParseWildcard(field, text).Some?
    ensures InBounds(field, ParseWildcard(field, text).value.0)
    ensures Consumed(text, ParseWildcard(field, text).value.1)
  {
    ExpectConsumes('*', text);
    var afterStar := Expect('*', text).value;
    if Expect('/', afterStar).Some? {
      ExpectConsumes('/', afterStar);
      var afterSlash := Expect('/', afterStar).value;
      ConsumedTwice(text, afterStar, afterSlash);
      if ParseNumber(field, afterSlash).Some? {
        NumberSound(field, afterSlash);
        ConsumedTwice(text, afterSlash, ParseNumber(field, afterSlash).value.1);
      }
    }
  }

  lemma ValueSound(field: Field, text: string)
    requires ParseValue(field, text).Some?
    ensures InBounds(field, ParseValue(field, text).value.0)
    ensures Consumed(text, ParseValue(field, text).value.1)
  {
    if ParseRange(field, text).Some? {
      RangeSound(field, text);
    } else if ParseWildcard(field, text).Some? {
      WildcardSound(field, text);
    } else {
      NumberSound(field, text);
    }
  }

  /** One turn of the list loop. */
  lemma MoreStep(field: Field, text: string, v: CrontabValue, rest: string)
    requires text != [] && text[0] == ',' && ParseValue(field, text[1..]) == Some((v, rest)) && |rest| < |text|
    ensures ParseMore(field, text) == ([v] + ParseMore(field, rest).0, ParseMore(field, rest).1)
  {
  }

  predicate MoreOk(field: Field, text: string, vs: seq<CrontabValue>, rest: string) {
    && (forall i :: 0 <= i < |vs| ==> InBounds(field, vs[i]))
    && (rest == text || Consumed(text, rest))
  }

  lemma {:induction false} MoreSound(field: Field, text: string)
    ensures MoreOk(field, text, ParseMore(field, text).0, ParseMore(field, text).1)
    decreases |text|
  {
    if text != [] && text[0] == ',' && ParseValue(field, text[1..]).Some? {
      var (v, rest) := ParseValue(field, text[1..]).value;
      ValueSound(field, text[1..]);
      ExpectConsumes(',', text);
      ConsumedTwice(text, text[1..], rest);
      MoreStep(field, text, v, rest);
      MoreSound(field, rest);
      var end := ParseMore(field, rest).1;
      if end != rest { ConsumedTwice(text, rest, end); }
    } else {
      assert ParseMore(field, text) == ([], text);
    }
  }

  lemma ValuesSound(field: Field, text: string)
    requires ParseValues(field, text).Some?
    ensures AllInBounds(field, ParseValues(field, text).value.0)
    ensures Consumed(text, ParseValues(field, text).value.1)
  {
    var rest := ParseValue(field, text).value.1;
    ValueSound(field, text);
    MoreSound(field, rest);
    var end := ParseMore(field, rest).1;
    if end != rest { ConsumedTwice(text, rest, end); }
  }

  lemma FieldSound(field: Field, text: string)
    requires ParseField(field, text).Some?
    ensures AllInBounds(field, ParseField(field, text).value.0)
    ensures Consumed(text, ParseField(field, text).value.1)
  {
    var rest := ParseValues(field, text).value.1;
    ValuesSound(field, text);
    ExpectConsumes(' ', rest);
    ConsumedTwice(text, rest, ParseField(field, text).value.1);
  }

  lemma ConsumedTwice(a: string, b: string, c: string)
    requires Consumed(a, b) && Consumed(b, c)
    ensures Consumed(a, c)
  {
    assert a[|a| - |b|..][|b| - |c|..] == a[|a| - |c|..];
  }

  /** Every accepted timer is in bounds, its ranges strictly increase, and the text
      behind it is handed on untouched. */
  lemma TimerSound(text: string)
    ensures match ParseTimer(text)
            case None => true
            case Some((timer, rest)) => ValidTimer(timer) && Consumed(text, rest)
  {
    if ParseTimer(text).Some? {
      var t1 := ParseField(Minute, text).value.1;
      var t2 := ParseField(Hours, t1).value.1;
      var t3 := ParseField(Days, t2).value.1;
      var t4 := ParseField(Months, t3).value.1;
      FieldSound(Minute, text);
      FieldSound(Hours, t1);
      FieldSound(Days, t2);
      FieldSound(Months, t3);
      ValuesSound(DaysOfWeek, t4);
      ConsumedTwice(text, t1, t2);
      ConsumedTwice(text, t2, t3);
      ConsumedTwice(text, t3, t4);
      ConsumedTwice(text, t4, ParseTimer(text).value.1);
    }
  }

  // ----------------------------------------------------------------- round trip

  function Digit(n: nat): char
    requires n < 10
  {
    ('0' as int + n) as char
  }

  function PrintNumber(n: nat): string {
    if n < 10 then [Digit(n)] else PrintNumber(n / 10) + [Digit(n % 10)]
  }

  function PrintValue(v: CrontabValue): string {
    match v
    case Number(n) => PrintNumber(n)
    case Range(low, high) => PrintNumber(low) + "-" + PrintNumber(high)
    case Step(d) => "*/" + PrintNumber(d)
    case Any => "*"
  }

  function PrintMore(vs: seq<CrontabValue>): string {
    if vs == [] then [] else [','] + (PrintValue(vs[0]) + PrintMore(vs[1..]))
  }

  function PrintValues(vs: seq<CrontabValue>): string
    requires vs != []
  {
    PrintValue(vs[0]) + PrintMore(vs[1..])
  }

  /** The canonical text of a timer. */
  function PrintTimer(t: Timer): string
    requires ValidTimer(t)
  {
    PrintValues(t.minutes) + (" " + (PrintValues(t.hours) + (" " + (PrintValues(t.days) + (" "
    + (PrintValues(t.months) + (" " + PrintValues(t.dows))))))))
  }

  predicate NoDigit(suffix: string) { suffix == [] || !IsDigit(suffix[0]) }

  /** Nothing at the front of `suffix` continues the value. */
  predicate EndsValue(field: Field, v: CrontabValue, suffix: string) {
    match v
    case Number(n) =>
      NoDigit(suffix) && (ParseAfter(field, '-', suffix).Some? ==> ParseAfter(field, '-', suffix).value <= n)
    case Any => ParseAfter(field, '/', suffix).None?
    case _ => NoDigit(suffix)
  }

  /** The number behind a character at the front. */
  function ParseAfter(field: Field, ch: char, suffix: string): Option<nat> {
    match Expect(ch, suffix)
    case None => None
    case Some(rest) =>
      match ParseNumber(field, rest)
      case None => None
      case Some((n, _)) => Some(n)
  }

  /** Nor does a further value follow. */
  predicate EndsList(field: Field, suffix: string) {
    !(suffix != [] && suffix[0] == ',' && ParseValue(field, suffix[1..]).Some?)
  }

  predicate Ends(field: Field, vs: seq<CrontabValue>, suffix: string) {
    (vs != [] ==> EndsValue(field, vs[|vs| - 1], suffix)) && EndsList(field, suffix)
  }

  lemma {:induction false} PrintedDigits(n: nat)
    ensures PrintNumber(n) != [] && Decimal(PrintNumber(n)) == n
    ensures forall i :: 0 <= i < |PrintNumber(n)| ==> IsDigit(PrintNumber(n)[i])
  {
    var s := PrintNumber(n);
    if n < 10 {
      assert s[..0] == [];
    } else {
      PrintedDigits(n / 10);
      assert s[..|s| - 1] == PrintNumber(n / 10);
    }
  }

  lemma {:induction false} DigitsEndThere(digits: string, suffix: string)
    requires (forall i :: 0 <= i < |digits| ==> IsDigit(digits[i])) && NoDigit(suffix)
    ensures LeadingDigits(digits + suffix) == |digits|
  {
    if digits == [] {
      assert digits + suffix == suffix;
    } else {
      assert (digits + suffix)[1..] == digits[1..] + suffix;
      DigitsEndThere(digits[1..], suffix);
    }
  }

  lemma {:induction false} DigitsGoOn(digits: string, suffix: string)
    requires (forall i :: 0 <= i < |digits| ==> IsDigit(digits[i])) && !NoDigit(suffix)
    ensures |digits| < LeadingDigits(digits + suffix)
  {
    if digits == [] {
      assert digits + suffix == suffix;
    } else {
      assert (digits + suffix)[1..] == digits[1..] + suffix;
      DigitsGoOn(digits[1..], suffix);
    }
  }

  lemma NumberBack(field: Field, n: nat, suffix: string)
    requires Within(field, n)
    ensures ParseNumber(field, PrintNumber(n) + suffix) == Some((n, suffix)) <==> NoDigit(suffix)
  {
    PrintedDigits(n);
    if NoDigit(suffix) {
      DigitsEndThere(PrintNumber(n), suffix);
      assert (PrintNumber(n) + suffix)[..|PrintNumber(n)|] == PrintNumber(n);
    } else {
      DigitsGoOn(PrintNumber(n), suffix);
    }
  }

  lemma ExpectBack(ch: char, text: string)
    ensures Expect(ch, [ch] + text) == Some(text)
  {
  }

  lemma NumberValueBack(field: Field, n: nat, suffix: string)
    requires Within(field, n)
    ensures ParseValue(field, PrintValue(Number(n)) + suffix) == Some((Number(n), suffix)) <==>
              EndsValue(field, Number(n), suffix)
  {
    var text := PrintNumber(n) + suffix;
    NumberBack(field, n, suffix);
    PrintedDigits(n);
    assert IsDigit(text[0]);
    assert ParseWildcard(field, text).None?;
    if NoDigit(suffix) {
      assert ParseRange(field, text).None? <==> EndsValue(field, Number(n), suffix);
    }
  }

  lemma RangeText(low: string, high: string, suffix: string)
    ensures low + "-" + high + suffix == low + (['-'] + (high + suffix))
  {
  }

  lemma RangeBack(field: Field, low: nat, high: nat, suffix: string)
    requires InBounds(field, Range(low, high))
    ensures ParseValue(field, PrintValue(Range(low, high)) + suffix) == Some((Range(low, high), suffix)) <==>
              NoDigit(suffix)
  {
    var tail := PrintNumber(high) + suffix;
    var text := PrintValue(Range(low, high)) + suffix;
    RangeText(PrintNumber(low), PrintNumber(high), suffix);
    NumberBack(field, low, ['-'] + tail);
    NumberBack(field, high, suffix);
    RangeParses(field, text, low, tail, Range(low, high), suffix);
  }

  lemma RangeParses(field: Field, text: string, low: nat, tail: string, v: CrontabValue, suffix: string)
    requires ParseNumber(field, text) == Some((low, ['-'] + tail)) && v.Range? && v.low == low < v.high
    ensures ParseValue(field, text) == Some((v, suffix)) <==> ParseNumber(field, tail) == Some((v.high, suffix))
  {
    ExpectBack('-', tail);
  }

  lemma WildcardBack(field: Field, afterStar: string)
    ensures ParseValue(field, ['*'] + afterStar) == ParseWildcard(field, ['*'] + afterStar)
    ensures Expect('*', ['*'] + afterStar) == Some(afterStar)
  {
    var text := ['*'] + afterStar;
    ExpectBack('*', afterStar);
    assert !IsDigit(text[0]);
    assert ParseNumber(field, text).None?;
  }

  lemma StepText(digits: string, suffix: string)
    ensures "*/" + digits + suffix == ['*'] + (['/'] + (digits + suffix))
  {
  }

  lemma StepBack(field: Field, d: nat, suffix: string)
    requires Within(field, d)
    ensures ParseValue(field, PrintValue(Step(d)) + suffix) == Some((Step(d), suffix)) <==> NoDigit(suffix)
  {
    var text := PrintNumber(d) + suffix;
    StepText(PrintNumber(d), suffix);
    WildcardBack(field, ['/'] + text);
    ExpectBack('/', text);
    NumberBack(field, d, suffix);
  }

  lemma AnyBack(field: Field, suffix: string)
    ensures ParseValue(field, PrintValue(Any) + suffix) == Some((Any, suffix)) <==> EndsValue(field, Any, suffix)
  {
    assert PrintValue(Any) + suffix == ['*'] + suffix;
    WildcardBack(field, suffix);
  }

  lemma ValueBack(field: Field, v: CrontabValue, suffix: string)
    requires InBounds(field, v)
    ensures ParseValue(field, PrintValue(v) + suffix) == Some((v, suffix)) <==> EndsValue(field, v, suffix)
  {
    match v
    case Number(n) => NumberValueBack(field, n, suffix);
    case Range(low, high) => RangeBack(field, low, high, suffix);
    case Step(d) => StepBack(field, d, suffix);
    case Any => AnyBack(field, suffix);
  }

  lemma ConsOnto(ch: char, a: string, b: string, suffix: string)
    ensures [ch] + (a + b) + suffix == [ch] + (a + (b + suffix))
    ensures ([ch] + (a + (b + suffix)))[1..] == a + (b + suffix)
  {
    assert a + b + suffix == a + (b + suffix);
  }

  /** A value that another one follows. */
  lemma MoreBackStep(field: Field, v: CrontabValue, tail: string, vs: seq<CrontabValue>, suffix: string)
    requires InBounds(field, v) && EndsValue(field, v, tail)
    ensures ParseMore(field, [','] + (PrintValue(v) + tail)) == ([v] + vs, suffix) <==>
              ParseMore(field, tail) == (vs, suffix)
  {
    ValueBack(field, v, tail);
    var text := [','] + (PrintValue(v) + tail);
    assert text[1..] == PrintValue(v) + tail;
    MoreStep(field, text, v, tail);
    ConsInjective(v, ParseMore(field, tail).0, v, vs);
  }

  /** The last value. */
  lemma MoreBackLast(field: Field, v: CrontabValue, suffix: string)
    requires InBounds(field, v)
    ensures ParseMore(field, [','] + (PrintValue(v) + suffix)) == ([v], suffix) <==> Ends(field, [v], suffix)
  {
    var text := [','] + (PrintValue(v) + suffix);
    assert text[1..] == PrintValue(v) + suffix;
    ValueBack(field, v, suffix);
    ListEnds(field, suffix);
    if ParseValue(field, text[1..]).Some? {
      var (w, rest) := ParseValue(field, text[1..]).value;
      ValueSound(field, text[1..]);
      MoreStep(field, text, w, rest);
      ListEnds(field, rest);
      ConsInjective(w, ParseMore(field, rest).0, v, []);
      assert [v] == [v] + [];
    }
  }

  /** A list that goes no further leaves everything in place. */
  lemma ListEnds(field: Field, text: string)
    ensures ParseMore(field, text) == ([], text) <==> EndsList(field, text)
    ensures ParseMore(field, text).0 == [] <==> EndsList(field, text)
  {
    if !EndsList(field, text) {
      var (v, rest) := ParseValue(field, text[1..]).value;
      ValueSound(field, text[1..]);
      MoreStep(field, text, v, rest);
    }
  }

  lemma {:induction false} MoreBack(field: Field, vs: seq<CrontabValue>, suffix: string)
    requires forall i :: 0 <= i < |vs| ==> InBounds(field, vs[i])
    ensures ParseMore(field, PrintMore(vs) + suffix) == (vs, suffix) <==> Ends(field, vs, suffix)
  {
    if vs == [] {
      assert PrintMore(vs) + suffix == suffix;
      ListEnds(field, suffix);
    } else {
      var tail := PrintMore(vs[1..]) + suffix;
      MoreText(vs, suffix);
      Uncons(vs);
      if |vs| == 1 {
        assert tail == suffix;
        MoreBackLast(field, vs[0], suffix);
      } else {
        MoreStarts(field, vs[0], vs[1..], suffix);
        MoreBack(field, vs[1..], suffix);
        MoreBackStep(field, vs[0], tail, vs[1..], suffix);
      }
    }
  }

  lemma MoreText(vs: seq<CrontabValue>, suffix: string)
    requires vs != []
    ensures PrintMore(vs) + suffix == [','] + (PrintValue(vs[0]) + (PrintMore(vs[1..]) + suffix))
  {
    ConsOnto(',', PrintValue(vs[0]), PrintMore(vs[1..]), suffix);
  }

  lemma Uncons<T>(s: seq<T>)
    requires s != []
    ensures s == [s[0]] + s[1..]
    ensures |s| == 1 ==> s[1..] == [] && s == [s[0]]
  {
  }

  lemma ConsInjective<T>(v: T, a: seq<T>, w: T, b: seq<T>)
    ensures [v] + a == [w] + b <==> v == w && a == b
  {
    if [v] + a == [w] + b {
      assert ([v] + a)[0] == v && ([w] + b)[0] == w;
      assert ([v] + a)[1..] == a && ([w] + b)[1..] == b;
    }
  }

  /** The comma behind a printed value continues no value. */
  lemma MoreStarts(field: Field, v: CrontabValue, vs: seq<CrontabValue>, suffix: string)
    requires vs != []
    ensures EndsValue(field, v, PrintMore(vs) + suffix)
  {
    assert (PrintMore(vs) + suffix)[0] == ',';
  }

  lemma ValuesBack(field: Field, vs: seq<CrontabValue>, suffix: string)
    requires AllInBounds(field, vs)
    ensures ParseValues(field, PrintValues(vs) + suffix) == Some((vs, suffix)) <==> Ends(field, vs, suffix)
  {
    var first, more := PrintValue(vs[0]), PrintMore(vs[1..]);
    assert first + more + suffix == first + (more + suffix);
    ValuesAsMore(field, first + (more + suffix), vs, suffix);
    ConsOnto(',', first, more, suffix);
    assert [','] + (first + more) == PrintMore(vs);
    MoreBack(field, vs, suffix);
  }

  /** A list is what follows a comma. */
  lemma ValuesAsMore(field: Field, text: string, vs: seq<CrontabValue>, suffix: string)
    requires vs != []
    ensures ParseValues(field, text) == Some((vs, suffix)) <==> ParseMore(field, [','] + text) == (vs, suffix)
  {
    var whole := [','] + text;
    assert whole[1..] == text;
    if ParseValue(field, text).Some? {
      var (v, rest) := ParseValue(field, text).value;
      ValueSound(field, text);
      MoreStep(field, whole, v, rest);
    }
  }

  lemma FieldBack(field: Field, vs: seq<CrontabValue>, suffix: string)
    requires AllInBounds(field, vs)
    ensures ParseField(field, PrintValues(vs) + (" " + suffix)) == Some((vs, suffix))
  {
    assert (" " + suffix)[0] == ' ';
    BlankEnds(field, vs, " " + suffix);
    ValuesBack(field, vs, " " + suffix);
    assert (" " + suffix)[1..] == suffix;
  }

  /** A blank ends every list. */
  lemma BlankEnds(field: Field, vs: seq<CrontabValue>, suffix: string)
    requires suffix != [] && (suffix[0] == ' ' || suffix[0] == '\t')
    ensures Ends(field, vs, suffix)
  {
  }

  lemma Onto(a: string, b: string, suffix: string)
    ensures (a + (" " + b)) + suffix == a + (" " + (b + suffix))
  {
  }

  /** Round trip: the text of any in-bounds timer parses to that timer and leaves what
      follows untouched, if and only if nothing there continues the last field. */
  lemma TimerRoundTrip(t: Timer, suffix: string)
    requires ValidTimer(t)
    ensures ParseTimer(PrintTimer(t) + suffix) == Some((t, suffix)) <==> Ends(DaysOfWeek, t.dows, suffix)
  {
    var p4 := PrintValues(t.dows);
    var p3 := PrintValues(t.months) + (" " + p4);
    var p2 := PrintValues(t.days) + (" " + p3);
    var p1 := PrintValues(t.hours) + (" " + p2);
    Onto(PrintValues(t.minutes), p1, suffix);
    Onto(PrintValues(t.hours), p2, suffix);
    Onto(PrintValues(t.days), p3, suffix);
    Onto(PrintValues(t.months), p4, suffix);
    FieldBack(Minute, t.minutes, p1 + suffix);
    FieldBack(Hours, t.hours, p2 + suffix);
    FieldBack(Days, t.days, p3 + suffix);
    FieldBack(Months, t.months, p4 + suffix);
    ValuesBack(DaysOfWeek, t.dows, suffix);
  }

  // ---------------------------------------------------------------------- files

  predicate IsBlank(ch: char) { ch == ' ' || ch == '\t' }

  /** What is left is the end of the text. */
  predicate Untouched(text: string, rest: string) { |rest| <= |text| && text[|text| - |rest|..] == rest }

  /** `space0`. */
  function SkipBlanks(text: string): (rest: string)
    ensures Untouched(text, rest)
  {
    if text != [] && IsBlank(text[0]) then SkipBlanks(text[1..]) else text
  }

  function SkipLine(text: string): (rest: string)
    ensures Untouched(text, rest)
  {
    if text != [] && text[0] != '\n' && text[0] != '\r' then SkipLine(text[1..]) else text
  }

  /** What follows the timer on a line, as the parsers of the task identifier, the options
      and the payload together read it. */
  type TailParser<C> = string -> Option<(C, string)>

  /** A tail parser reads from the front only. */
  ghost predicate ReadsFront<C>(tail: TailParser<C>) {
    forall text :: tail(text).Some? ==> Untouched(text, tail(text).value.1)
  }

  /** A comment, a crontab line or blanks: the first alternative that matches. */
  function ParseLine<C>(text: string, tail: TailParser<C>): (Option<(Timer, C)>, string) {
    var start := SkipBlanks(text);
    if start != [] && start[0] == '#' then (None, SkipLine(start[1..]))
    else match ParseTimer(start)
      case None => (None, start)
      case Some((timer, rest)) =>
        match tail(rest)
        case None => (None, start)
        case Some((c, end)) => (Some((timer, c)), end)
  }

  /** The end of a line or of the text. */
  function ParseEnd(text: string): Option<string> {
    var rest := SkipBlanks(text);
    if rest == [] then Some([])
    else if rest[0] == '\n' then Some(rest[1..])
    else if |rest| > 1 && rest[0] == '\r' && rest[1] == '\n' then Some(rest[2..])
    else None
  }

  /** `nom_crontab`: lines until the end of the text. A line that does not end properly
      fails the whole file, and so would one that consumes nothing. */
  function ParseFile<C>(text: string, tail: TailParser<C>): Option<(seq<(Timer, C)>, string)>
    decreases |text|
  {
    if text == [] then Some(([], text))
    else
      var (entry, afterLine) := ParseLine(text, tail);
      match ParseEnd(afterLine)
      case None => None
      case Some(next) =>
        if |next| >= |text| then None
        else match ParseFile(next, tail)
          case None => None
          case Some((entries, rest)) => Some(((if entry.Some? then [entry.value] else []) + entries, rest))
  }

  lemma UntouchedTwice(a: string, b: string, c: string)
    requires Untouched(a, b) && Untouched(b, c)
    ensures Untouched(a, c)
  {
    assert a[|a| - |b|..][|b| - |c|..] == a[|a| - |c|..];
  }

  lemma LineSound<C>(text: string, tail: TailParser<C>)
    requires ReadsFront(tail)
    ensures Untouched(text, ParseLine(text, tail).1)
    ensures ParseLine(text, tail).0.Some? ==> ValidTimer(ParseLine(text, tail).0.value.0)
  {
    var start := SkipBlanks(text);
    if start != [] && start[0] == '#' {
      CommentSound(text, start);
    } else if ParseTimer(start).Some? {
      TimerSound(start);
      var rest := ParseTimer(start).value.1;
      UntouchedTwice(text, start, rest);
      if tail(rest).Some? { UntouchedTwice(text, rest, tail(rest).value.1); }
    }
  }

  lemma CommentSound(text: string, start: string)
    requires Untouched(text, start) && start != []
    ensures Untouched(text, SkipLine(start[1..]))
  {
    FrontDropped(start, 1);
    UntouchedTwice(text, start, start[1..]);
    UntouchedTwice(text, start[1..], SkipLine(start[1..]));
  }

  lemma EndSound(text: string)
    requires ParseEnd(text).Some?
    ensures Untouched(text, ParseEnd(text).value)
    ensures text == [] || |ParseEnd(text).value| < |text|
  {
    var rest := SkipBlanks(text);
    if rest != [] { FrontDropped(rest, if rest[0] == '\n' then 1 else 2); }
    UntouchedTwice(text, rest, ParseEnd(text).value);
  }

  lemma FrontDropped(text: string, n: nat)
    requires n <= |text|
    ensures Untouched(text, text[n..])
  {
  }

  /** Every line makes progress, so the guard against one that does not never fires. */
  lemma LineProgress<C>(text: string, tail: TailParser<C>)
    requires ReadsFront(tail) && text != [] && ParseEnd(ParseLine(text, tail).1).Some?
    ensures Consumed(text, ParseEnd(ParseLine(text, tail).1).value)
  {
    var afterLine := ParseLine(text, tail).1;
    LineSound(text, tail);
    EndSound(afterLine);
    UntouchedTwice(text, afterLine, ParseEnd(afterLine).value);
  }

  /** The parse of a file stands at `at` and finds no end of line behind what it read. */
  ghost predicate FailsAt<C>(text: string, at: string, tail: TailParser<C>) {
    Untouched(text, at) && at != [] && ParseEnd(ParseLine(at, tail).1).None?
  }

  ghost predicate Whole<C>(parsed: Option<(seq<(Timer, C)>, string)>) {
    parsed.Some? ==> parsed.value.1 == [] && forall i :: 0 <= i < |parsed.value.0| ==> ValidTimer(parsed.value.0[i].0)
  }

  /** A successful parse consumes the whole text and every timer in it is in bounds; a
      failing one failed at the end of a line, never for lack of progress. */
  lemma {:induction false} FileSound<C>(text: string, tail: TailParser<C>)
    requires ReadsFront(tail)
    ensures Whole(ParseFile(text, tail))
    ensures ParseFile(text, tail).None? ==> exists at :: FailsAt(text, at, tail)
    decreases |text|
  {
    if text != [] {
      var (entry, afterLine) := ParseLine(text, tail);
      LineSound(text, tail);
      if ParseEnd(afterLine).None? {
        assert FailsAt(text, text, tail);
      } else {
        var next := ParseEnd(afterLine).value;
        LineProgress(text, tail);
        FileSound(next, tail);
        if ParseFile(next, tail).None? {
          var at :| FailsAt(next, at, tail);
          UntouchedTwice(text, next, at);
          assert FailsAt(text, at, tail);
        }
      }
    }
  }

  // ------------------------------------------------------------ files round trip

  datatype FileLine<C> = Entry(timer: Timer, more: string, item: C) | Comment(text: string) | Blanks(blanks: string)

  /** The tail parser reads `more` as `item` wherever the line ends behind it. */
  ghost predicate ReadsAs<C>(tail: TailParser<C>, more: string, item: C) {
    && more != [] && IsBlank(more[0])
    && forall rest: string :: tail(more + ("\n" + rest)) == Some((item, "\n" + rest))
  }

  ghost predicate WellFormed<C>(line: FileLine<C>, tail: TailParser<C>) {
    match line
    case Entry(timer, more, item) => ValidTimer(timer) && ReadsAs(tail, more, item)
    case Comment(text) => forall i :: 0 <= i < |text| ==> text[i] != '\n' && text[i] != '\r'
    case Blanks(blanks) => forall i :: 0 <= i < |blanks| ==> IsBlank(blanks[i])
  }

  ghost function PrintLine<C>(line: FileLine<C>, tail: TailParser<C>): string
    requires WellFormed(line, tail)
  {
    match line
    case Entry(timer, more, _) => PrintTimer(timer) + more
    case Comment(text) => ['#'] + text
    case Blanks(blanks) => blanks
  }

  ghost predicate AllWellFormed<C>(lines: seq<FileLine<C>>, tail: TailParser<C>) {
    forall i :: 0 <= i < |lines| ==> WellFormed(lines[i], tail)
  }

  ghost function PrintFile<C>(lines: seq<FileLine<C>>, tail: TailParser<C>): string
    requires AllWellFormed(lines, tail)
  {
    if lines == [] then [] else PrintLine(lines[0], tail) + ("\n" + PrintFile(lines[1..], tail))
  }

  function EntryOf<C>(line: FileLine<C>): seq<(Timer, C)> {
    if line.Entry? then [(line.timer, line.item)] else []
  }

  function EntriesOf<C>(lines: seq<FileLine<C>>): seq<(Timer, C)> {
    if lines == [] then [] else EntryOf(lines[0]) + EntriesOf(lines[1..])
  }

  lemma {:induction false} BlanksSkipped(blanks: string, rest: string)
    requires forall i :: 0 <= i < |blanks| ==> IsBlank(blanks[i])
    ensures SkipBlanks(blanks + ("\n" + rest)) == "\n" + rest
  {
    if blanks == [] {
      assert blanks + ("\n" + rest) == "\n" + rest;
    } else {
      var text := blanks + ("\n" + rest);
      assert text[1..] == blanks[1..] + ("\n" + rest) && text[0] == blanks[0] && IsBlank(text[0]);
      BlanksSkipped(blanks[1..], rest);
    }
  }

  lemma {:induction false} LineSkipped(text: string, rest: string)
    requires forall i :: 0 <= i < |text| ==> text[i] != '\n' && text[i] != '\r'
    ensures SkipLine(text + ("\n" + rest)) == "\n" + rest
  {
    if text == [] {
      assert text + ("\n" + rest) == "\n" + rest;
    } else {
      var line := text + ("\n" + rest);
      assert line[1..] == text[1..] + ("\n" + rest) && line[0] == text[0];
      LineSkipped(text[1..], rest);
    }
  }

  /** A printed timer starts with a digit or a star. */
  lemma TimerStarts(t: Timer)
    requires ValidTimer(t)
    ensures PrintTimer(t) != [] && (IsDigit(PrintTimer(t)[0]) || PrintTimer(t)[0] == '*')
  {
    var v := t.minutes[0];
    if v.Number? { PrintedDigits(v.n); }
    if v.Range? { PrintedDigits(v.low); }
    assert PrintValue(v) != [] && PrintTimer(t)[0] == PrintValue(v)[0];
  }

  lemma EntryParses<C>(start: string, tail: TailParser<C>, timer: Timer, suffix: string, item: C, end: string)
    requires start != [] && !IsBlank(start[0]) && start[0] != '#'
    requires ParseTimer(start) == Some((timer, suffix)) && tail(suffix) == Some((item, end))
    ensures ParseLine(start, tail) == (Some((timer, item)), end)
  {
    assert SkipBlanks(start) == start;
  }

  lemma EntryBack<C>(timer: Timer, more: string, item: C, tail: TailParser<C>, rest: string)
    requires ValidTimer(timer) && ReadsAs(tail, more, item)
    ensures ParseLine(PrintTimer(timer) + more + ("\n" + rest), tail) == (Some((timer, item)), "\n" + rest)
  {
    var suffix := more + ("\n" + rest);
    var text := PrintTimer(timer) + suffix;
    assert PrintTimer(timer) + more + ("\n" + rest) == text;
    TimerStarts(timer);
    assert text[0] == PrintTimer(timer)[0] && suffix[0] == more[0];
    BlankEnds(DaysOfWeek, timer.dows, suffix);
    TimerRoundTrip(timer, suffix);
    EntryParses(text, tail, timer, suffix, item, "\n" + rest);
  }

  lemma CommentParses<C>(body: string, tail: TailParser<C>)
    ensures ParseLine(['#'] + body, tail) == (None, SkipLine(body))
  {
    var line := ['#'] + body;
    assert SkipBlanks(line) == line;
    assert line[1..] == body;
  }

  lemma CommentBack<C>(text: string, tail: TailParser<C>, rest: string)
    requires forall i :: 0 <= i < |text| ==> text[i] != '\n' && text[i] != '\r'
    ensures ParseLine(['#'] + text + ("\n" + rest), tail) == (None, "\n" + rest)
  {
    var body := text + ("\n" + rest);
    assert ['#'] + text + ("\n" + rest) == ['#'] + body;
    CommentParses(body, tail);
    LineSkipped(text, rest);
  }

  /** No timer starts with a newline. */
  lemma NewlineIsNoTimer(rest: string)
    ensures ParseTimer("\n" + rest).None?
  {
    var start := "\n" + rest;
    assert start[0] == '\n';
    assert ParseNumber(Minute, start).None?;
    assert ParseWildcard(Minute, start).None?;
    assert ParseField(Minute, start).None?;
  }

  lemma BlanksBack<C>(blanks: string, tail: TailParser<C>, rest: string)
    requires forall i :: 0 <= i < |blanks| ==> IsBlank(blanks[i])
    ensures ParseLine(blanks + ("\n" + rest), tail) == (None, "\n" + rest)
  {
    BlanksSkipped(blanks, rest);
    NewlineIsNoTimer(rest);
    assert ("\n" + rest)[0] == '\n';
  }

  lemma LineBack<C>(line: FileLine<C>, tail: TailParser<C>, rest: string)
    requires WellFormed(line, tail)
    ensures ParseLine(PrintLine(line, tail) + ("\n" + rest), tail)
         == (if line.Entry? then Some((line.timer, line.item)) else None, "\n" + rest)
  {
    match line
    case Entry(timer, more, item) => EntryBack(timer, more, item, tail, rest);
    case Comment(text) => CommentBack(text, tail, rest);
    case Blanks(blanks) => BlanksBack(blanks, tail, rest);
  }

  lemma EndBack(rest: string)
    ensures ParseEnd("\n" + rest) == Some(rest)
  {
    assert ("\n" + rest)[1..] == rest;
  }

  /** Round trip for files: lines of timers, comments and blanks, each ended by a newline,
      parse to exactly their timers in order, with nothing left. */
  lemma {:induction false} FileRoundTrip<C>(lines: seq<FileLine<C>>, tail: TailParser<C>)
    requires AllWellFormed(lines, tail)
    ensures ParseFile(PrintFile(lines, tail), tail) == Some((EntriesOf(lines), []))
  {
    if lines != [] {
      var rest := PrintFile(lines[1..], tail);
      var text := PrintFile(lines, tail);
      assert WellFormed(lines[0], tail);
      assert text == PrintLine(lines[0], tail) + ("\n" + rest);
      LineBack(lines[0], tail, rest);
      EndBack(rest);
      FileRoundTrip(lines[1..], tail);
    }
  }
}
