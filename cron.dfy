// `parseCron` of the reminder scheduler: a five-field matcher where every
// field is `*` or a comma list of numbers, each list item converted with
// JavaScript's `Number`. Ranges (`1-5`) and steps (`*/5`) are not
// understood: they convert to NaN and never match.
module Cron {
  import opened Common
  import opened Text

  /** The local wall-clock readings of a `Date`: `getMinutes`, `getHours`,
      `getDate`, `getMonth` (0-based) and `getDay` (0 is Sunday). */
  datatype LocalTime = LocalTime(minutes: nat, hours: nat, date: nat, month0: nat, day: nat)

  predicate ValidTime(t: LocalTime) {
    t.minutes < 60 && t.hours < 24 && 1 <= t.date <= 31 && t.month0 < 12 && t.day < 7
  }

  /** The values the five fields are compared with, in field order; the month
      is compared 1-based. */
  function FieldValues(t: LocalTime): (v: seq<int>)
    ensures |v| == 5
  {
    [t.minutes, t.hours, t.date, t.month0 + 1, t.day]
  }

  /** The first index from `i` on that does not hold a decimal digit. */
  function DigitRunEnd(s: string, i: nat): (j: nat)
    requires i <= |s|
    ensures i <= j <= |s|
    ensures forall k :: i <= k < j ==> IsDigit(s[k])
    ensures j == |s| || !IsDigit(s[j])
    decreases |s| - i
  {
    if i < |s| && IsDigit(s[i]) then DigitRunEnd(s, i + 1) else i
  }

  /** The length of the run of decimal digits that starts `s`. */
  function DigitRun(s: string): (n: nat)
    ensures n <= |s|
    ensures forall i :: 0 <= i < n ==> IsDigit(s[i])
    ensures n == |s| || !IsDigit(s[n])
  {
    DigitRunEnd(s, 0)
  }

  /** The value of an unsigned decimal literal `digits [ . digits ]` (at least
      one digit in all), or None when the text is not such a literal or its
      value is not a whole number. */
  function DecimalValue(body: string): Option<int>
  {
    var k := DigitRun(body);
    var whole := DigitsValue(body[..k]);
    if k == |body| then
      (if k == 0 then None else Some(whole))
    else if body[k] != '.' then None
    else
      var frac := body[k + 1..];
      var m := DigitRun(frac);
      if m != |frac| || (k == 0 && m == 0) then None
      else if forall i :: 0 <= i < |frac| ==> frac[i] == '0' then Some(whole)
      else None
  }

  /** The whole number `Number(tok)` converts to, or None when the conversion
      gives NaN or a fraction (neither equals a clock reading). White space
      around the token is ignored and an empty token converts to 0. */
  function NumberValue(tok: string): Option<int>
  {
    var t := Trim(tok);
    if t == [] then Some(0)
    else
      var unsigned := if t[0] == '-' || t[0] == '+' then t[1..] else t;
      var v := DecimalValue(unsigned);
      if t[0] == '-' && v.Some? then Some(-v.value) else v
  }

  /** `items.map(Number)`, each conversion read as a whole number or None. */
  function Numbers(items: seq<string>): (r: seq<Option<int>>)
    ensures |r| == |items|
    ensures forall i :: 0 <= i < |items| ==> r[i] == NumberValue(items[i])
  {
    seq(|items|, i requires 0 <= i < |items| => NumberValue(items[i]))
  }

  /** `items.map(Number).includes(current)`. */
  predicate Includes(items: seq<string>, current: int)
  {
    Some(current) in Numbers(items)
  }

  /** `check(val, current)`: the field is `*` or one of its comma-separated
      items converts to `current`. */
  predicate FieldMatches(field: string, current: int) {
    field == "*" || Includes(Split(field, ','), current)
  }

  /** The outcome of `parseCron`. `Throws` is the TypeError raised by calling
      `split` on a missing field. */
  datatype CronResult = Matches | NoMatch | Throws

  /** Whether each of the first five fields that are present matches its
      clock reading. */
  function Verdicts(fields: seq<string>, values: seq<int>): (v: seq<bool>)
    requires |values| == 5
    ensures |v| == if |fields| < 5 then |fields| else 5
    ensures forall j :: 0 <= j < |v| ==> v[j] == FieldMatches(fields[j], values[j])
  {
    var n := if |fields| < 5 then |fields| else 5;
    seq(n, j requires 0 <= j < n => FieldMatches(fields[j], values[j]))
  }

  /** The `&&` chain from field `k` on: it stops at the first field that does
      not match; a missing field throws when it is reached. Evaluating every
      verdict up front changes nothing, as `check` has no effect. */
  function Outcome(v: seq<bool>, k: nat): CronResult
    requires |v| <= 5 && k <= 5
    decreases 5 - k
  {
    if k == 5 then Matches
    else if k >= |v| then Throws
    else if v[k] then Outcome(v, k + 1)
    else NoMatch
  }

  function ParseCron(expression: string, t: LocalTime): CronResult
  {
    Outcome(Verdicts(Split(expression, ' '), FieldValues(t)), 0)
  }

  /** The chain from `k` on matches exactly when the fields from `k` to the
      fifth are all present and all match; it throws exactly when fewer than
      five are present and all present from `k` on match; otherwise it
      answers no. */
  lemma {:induction false} OutcomeCases(v: seq<bool>, k: nat)
    requires |v| <= 5 && k <= 5 && k <= |v|
    ensures Outcome(v, k) == Matches <==> |v| == 5 && forall j :: k <= j < 5 ==> v[j]
    ensures Outcome(v, k) == Throws <==> |v| < 5 && forall j :: k <= j < |v| ==> v[j]
    ensures Outcome(v, k) == NoMatch <==> exists j :: k <= j < |v| && !v[j]
    decreases 5 - k
  {
    if k < 5 && k < |v| && v[k] {
      OutcomeCases(v, k + 1);
    }
  }

  /** An expression matches exactly when it has at least five space-separated
      fields and each of the first five matches its clock reading: minute,
      hour, day of month, 1-based month, day of week. */
  lemma MatchesIffAllFive(expression: string, t: LocalTime)
    ensures var fields := Split(expression, ' ');
      ParseCron(expression, t) == Matches <==>
        (|fields| >= 5 && forall j :: 0 <= j < 5 ==> FieldMatches(fields[j], FieldValues(t)[j]))
  {
    var fields := Split(expression, ' ');
    var v := Verdicts(fields, FieldValues(t));
    OutcomeCases(v, 0);
  }

  /** An expression with fewer than five fields throws exactly when every
      field it has matches; with five or more it never throws. */
  lemma ThrowsIffShort(expression: string, t: LocalTime)
    ensures var fields := Split(expression, ' ');
      ParseCron(expression, t) == Throws <==>
        (|fields| < 5 && forall j :: 0 <= j < |fields| ==> FieldMatches(fields[j], FieldValues(t)[j]))
  {
    var fields := Split(expression, ' ');
    var v := Verdicts(fields, FieldValues(t));
    OutcomeCases(v, 0);
  }

  /** A field that does not match its reading makes the expression answer
      no, unless an earlier field has already made it throw. */
  lemma FailingFieldBlocks(expression: string, t: LocalTime, j: nat)
    requires j < 5 && j < |Split(expression, ' ')|
    requires !FieldMatches(Split(expression, ' ')[j], FieldValues(t)[j])
    ensures ParseCron(expression, t) == NoMatch
  {
    var v := Verdicts(Split(expression, ' '), FieldValues(t));
    OutcomeCases(v, 0);
    assert !v[j];
  }

  /** Fields after the fifth are never looked at. */
  lemma ExtraFieldsIgnored(expression: string, extra: string, t: LocalTime)
    requires |Split(expression, ' ')| == 5
    ensures ParseCron(expression + " " + extra, t) == ParseCron(expression, t)
  {
    var fields := Split(expression, ' ');
    var longer := Split(expression + " " + extra, ' ');
    SplitJoinAppend(expression, extra, ' ');
    assert longer == fields + Split(extra, ' ');
    var v := FieldValues(t);
    assert Verdicts(longer, v) == Verdicts(fields, v);
  }

  /** Appending a separator and more text adds the split of that text. */
  lemma {:induction false} SplitJoinAppend(s: string, t: string, sep: char)
    ensures Split(s + [sep] + t, sep) == Split(s, sep) + Split(t, sep)
  {
    var whole := s + [sep] + t;
    if s == [] {
      assert whole[1..] == t;
    } else {
      SplitJoinAppend(s[1..], t, sep);
      assert whole[1..] == s[1..] + [sep] + t;
      if s[0] != sep {
        var r := Split(s[1..], sep);
        SplitCons(s[0], r, Split(t, sep));
      }
    }
  }

  lemma SplitCons(c: char, r: seq<string>, u: seq<string>)
    requires |r| >= 1
    ensures [[c] + (r + u)[0]] + (r + u)[1..] == ([[c] + r[0]] + r[1..]) + u
  {
  }

  /** A token containing `/` or `*` converts to NaN. */
  lemma StepTokenIsNaN(tok: string)
    requires '/' in tok || '*' in tok
    ensures NumberValue(tok) == None
  {
    var i :| 0 <= i < |tok| && (tok[i] == '/' || tok[i] == '*');
    TrimKeeps(tok, i);
    NumericAt(tok, i - TrimOffset(tok));
  }

  /** One character of an accepted token, after trimming. */
  lemma NumericAt(tok: string, j: nat)
    ensures NumberValue(tok).Some? && j < |Trim(tok)| ==>
      IsDigit(Trim(tok)[j]) || Trim(tok)[j] == '.' || (j == 0 && (Trim(tok)[j] == '-' || Trim(tok)[j] == '+'))
  {
    NumberValueOnlyNumeric(tok);
  }

  /** Everything NumberValue accepts is made of digits, one sign at the front
      and at most one point, after trimming. */
  lemma NumberValueOnlyNumeric(tok: string)
    ensures NumberValue(tok).Some? && Trim(tok) != [] ==>
      forall i :: 0 <= i < |Trim(tok)| ==>
        IsDigit(Trim(tok)[i]) || Trim(tok)[i] == '.' || (i == 0 && (Trim(tok)[i] == '-' || Trim(tok)[i] == '+'))
  {
    var t := Trim(tok);
    if NumberValue(tok).Some? && t != [] {
      var body := if t[0] == '-' || t[0] == '+' then t[1..] else t;
      DecimalOnlyNumeric(body);
      forall i | 0 <= i < |t|
        ensures IsDigit(t[i]) || t[i] == '.' || (i == 0 && (t[i] == '-' || t[i] == '+'))
      {
        if t[0] == '-' || t[0] == '+' {
          if i > 0 { assert t[i] == body[i - 1]; }
        } else {
          assert t[i] == body[i];
        }
      }
    }
  }

  lemma DecimalOnlyNumeric(body: string)
    ensures DecimalValue(body).Some? ==> forall i :: 0 <= i < |body| ==> IsDigit(body[i]) || body[i] == '.'
  {
    var k := DigitRun(body);
    if DecimalValue(body).Some? && k < |body| {
      var frac := body[k + 1..];
      forall i | k + 1 <= i < |body| ensures IsDigit(body[i]) {
        assert body[i] == frac[i - k - 1];
      }
    }
  }

  /** A range token `lo-hi` with decimal bounds converts to NaN. */
  lemma RangeTokenIsNaN(lo: string, hi: string)
    requires |lo| >= 1 && |hi| >= 1
    requires forall i :: 0 <= i < |lo| ==> IsDigit(lo[i])
    requires forall i :: 0 <= i < |hi| ==> IsDigit(hi[i])
    ensures NumberValue(lo + "-" + hi) == None
  {
    var tok := lo + "-" + hi;
    assert !IsSpace(tok[0]) && !IsSpace(tok[|tok| - 1]);
    TrimIdle(tok);
    DecimalOnlyNumeric(tok);
    assert tok[|lo|] == '-';
  }

  /** So a field that is a single range, such as `1-5`, is never satisfied. */
  lemma RangeFieldNeverMatches(lo: string, hi: string, current: int)
    requires |lo| >= 1 && |hi| >= 1
    requires forall i :: 0 <= i < |lo| ==> IsDigit(lo[i])
    requires forall i :: 0 <= i < |hi| ==> IsDigit(hi[i])
    ensures !FieldMatches(lo + "-" + hi, current)
  {
    var field := lo + "-" + hi;
    assert ',' !in field by {
      forall i | 0 <= i < |field| ensures field[i] != ',' {
        if i < |lo| { assert field[i] == lo[i]; }
        else if i > |lo| { assert field[i] == hi[i - |lo| - 1]; }
      }
    }
    OneItemField(field, current);
    RangeTokenIsNaN(lo, hi);
  }

  /** A field without commas is a single item. */
  lemma OneItemField(field: string, current: int)
    requires ',' !in field
    ensures FieldMatches(field, current) <==> field == "*" || NumberValue(field) == Some(current)
  {
    SplitNoSep(field, ',');
    assert Numbers([field]) == [NumberValue(field)];
  }

  // ... and neither is a step field such as `*/5`.
  lemma StepFieldNeverMatches(field: string, current: int)
    requires field != "*" && |field| >= 1 && field[0] == '*' && ',' !in field
    ensures !FieldMatches(field, current)
  {
    OneItemField(field, current);
    StepTokenIsNaN(field);
  }

  /** The digits of a number convert back to that number. */
  lemma NumberOfDigits(n: nat)
    ensures NumberValue(NatToString(n)) == Some(n)
  {
    DigitsUntrimmed(n);
    DigitsDecimal(n);
    DigitsOfNat(n);
    assert IsDigit(NatToString(n)[0]);
  }

  lemma DigitsUntrimmed(n: nat)
    ensures Trim(NatToString(n)) == NatToString(n)
  {
    var s := NatToString(n);
    assert !IsSpace(s[0]) && !IsSpace(s[|s| - 1]);
    TrimIdle(s);
  }

  lemma DigitsDecimal(n: nat)
    ensures DecimalValue(NatToString(n)) == Some(DigitsValue(NatToString(n)) as int)
  {
    var s := NatToString(n);
    DigitRunAll(s);
    assert s[..|s|] == s;
  }

  lemma DigitRunAll(s: string)
    requires forall i :: 0 <= i < |s| ==> IsDigit(s[i])
    ensures DigitRun(s) == |s|
  {
  }

  /** A field written as a comma list of numbers matches exactly the listed
      values. */
  lemma ListFieldMatches(ns: seq<nat>, current: int)
    requires |ns| >= 1
    ensures FieldMatches(Join(NumberList(ns), ","), current) <==> current in ns
  {
    var items := NumberList(ns);
    ListSplitsBack(ns);
    ListNotStar(ns);
    NumbersOfList(ns, current);
  }

  /** The comma list splits back into its numbers. */
  lemma ListSplitsBack(ns: seq<nat>)
    requires |ns| >= 1
    ensures Split(Join(NumberList(ns), ","), ',') == NumberList(ns)
  {
    var items := NumberList(ns);
    forall i | 0 <= i < |items| ensures ',' !in items[i] {
      DigitsHaveNoComma(ns[i]);
    }
    assert "," == [','];
    SplitJoin(items, ',');
  }

  lemma DigitsHaveNoComma(n: nat)
    ensures ',' !in NatToString(n)
  {
    var s := NatToString(n);
    forall j | 0 <= j < |s| ensures s[j] != ',' {
      assert IsDigit(s[j]);
    }
  }

  /** A comma list of numbers starts with a digit, so it is not `*`. */
  lemma ListNotStar(ns: seq<nat>)
    requires |ns| >= 1
    ensures Join(NumberList(ns), ",") != "*"
  {
    var items := NumberList(ns);
    JoinFirst(items, ",");
    assert IsDigit(items[0][0]);
  }

  /** The numbers of the list convert back to the listed values. */
  lemma NumbersOfList(ns: seq<nat>, current: int)
    ensures Some(current) in Numbers(NumberList(ns)) <==> current in ns
  {
    var items := NumberList(ns);
    var values := Numbers(items);
    forall i | 0 <= i < |items| ensures values[i] == Some(ns[i] as int) {
      NumberOfDigits(ns[i]);
    }
    if current in ns {
      var i :| 0 <= i < |ns| && ns[i] == current;
      assert values[i] == Some(current);
    }
    if Some(current) in values {
      var i :| 0 <= i < |values| && values[i] == Some(current);
      assert ns[i] == current;
    }
  }

  function NumberList(ns: seq<nat>): (items: seq<string>)
    ensures |items| == |ns|
    ensures forall i :: 0 <= i < |ns| ==> items[i] == NatToString(ns[i])
  {
    seq(|ns|, i requires 0 <= i < |ns| => NatToString(ns[i]))
  }

  lemma {:induction false} JoinFirst(parts: seq<string>, sep: string)
    requires |parts| >= 1 && |parts[0]| >= 1
    ensures |Join(parts, sep)| >= 1 && Join(parts, sep)[0] == parts[0][0]
  {
  }

  /** Five space-free fields joined by single spaces split back into them. */
  lemma FiveFields(a: string, b: string, c: string, d: string, e: string)
    requires ' ' !in a && ' ' !in b && ' ' !in c && ' ' !in d && ' ' !in e
    ensures Split(a + " " + b + " " + c + " " + d + " " + e, ' ') == [a, b, c, d, e]
  {
    var x3 := d + [' '] + e;
    var x2 := c + [' '] + x3;
    var x1 := b + [' '] + x2;
    var x0 := a + [' '] + x1;
    assert Split(x3, ' ') == [d, e] by {
      SplitNoSep(e, ' ');
      SplitPrefix(d, e, ' ');
    }
    assert Split(x1, ' ') == [b, c, d, e] by {
      SplitPrefix(c, x3, ' ');
      SplitPrefix(b, x2, ' ');
    }
    assert Split(x0, ' ') == [a, b, c, d, e] by {
      SplitPrefix(a, x1, ' ');
    }
    SpacedFive(a, b, c, d, e);
  }

  lemma SpacedFive(a: string, b: string, c: string, d: string, e: string)
    ensures a + " " + b + " " + c + " " + d + " " + e
      == a + [' '] + (b + [' '] + (c + [' '] + (d + [' '] + e)))
  {
    assert " " == [' '];
  }

  /** The weekday example of the reminder tool's own description,
      `0 9 * * 1-5`, never fires: its day-of-week field is a range. */
  lemma WeekdayExampleNeverFires(t: LocalTime)
    ensures ParseCron("0 9 * * 1-5", t) == NoMatch
  {
    assert "0 9 * * 1-5" == "0" + " " + "9" + " " + "*" + " " + "*" + " " + "1-5";
    FiveFields("0", "9", "*", "*", "1-5");
    assert "1-5" == "1" + "-" + "5";
    RangeFieldNeverMatches("1", "5", t.day);
    FailingFieldBlocks("0 9 * * 1-5", t, 4);
  }
}
