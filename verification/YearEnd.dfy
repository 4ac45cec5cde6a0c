/**
 Year ends in imported client sheets (backend/app/routers/imports.py): the
 accepted spellings, and what an accepted row does to a client's year end. Text is
 ASCII. The four patterns are matched by scanning; `Written` gives their meaning as
 expressions, without any order of trial.
 */
module YearEnd {
  import opened Common

  // --- characters -----------------------------------------------------------

  predicate IsDigit(c: char) { '0' <= c <= '9' }

  predicate IsLetter(c: char) { 'a' <= c <= 'z' }

  predicate IsSlash(c: char) { c == '-' || c == '/' }

  predicate IsGap(c: char) { c == ' ' || c == '.' || c == '-' }

  predicate IsBlank(c: char) { c == ' ' || '\t' <= c <= '\r' || '\U{1c}' <= c <= '\U{1f}' }

  function LowerChar(c: char): char {
    if 'A' <= c <= 'Z' then c - 'A' + 'a' else c
  }

  const DIGITS := "0123456789"
  const SMALL := "abcdefghijklmnopqrstuvwxyz"
  const CAPITAL := "ABCDEFGHIJKLMNOPQRSTUVWXYZ"

  lemma DigitsInOrder(c: char)
    ensures IsDigit(c) <==> c in DIGITS
  {
    if IsDigit(c) {
      assert DIGITS[(c - '0') as int] == c;
    }
  }

  lemma SmallInOrder(i: nat)
    requires i < 26
    ensures SMALL[i] == 'a' + i as char
  {
  }

  lemma CapitalInOrder(i: nat)
    requires i < 26
    ensures CAPITAL[i] == 'A' + i as char
  {
  }

  lemma SmallLetters(c: char)
    ensures IsLetter(c) <==> c in SMALL
  {
    if IsLetter(c) {
      SmallInOrder((c - 'a') as nat);
    }
    if c in SMALL {
      var i :| 0 <= i < 26 && SMALL[i] == c;
      SmallInOrder(i);
    }
  }

  lemma CapitalLetters(c: char)
    ensures 'A' <= c <= 'Z' <==> c in CAPITAL
  {
    if 'A' <= c <= 'Z' {
      CapitalInOrder((c - 'A') as nat);
    }
    if c in CAPITAL {
      var i :| 0 <= i < 26 && CAPITAL[i] == c;
      CapitalInOrder(i);
    }
  }

  lemma LowerIs(c: char)
    ensures forall i :: 0 <= i < 26 && c == CAPITAL[i] ==> LowerChar(c) == SMALL[i]
    ensures c !in CAPITAL ==> LowerChar(c) == c
  {
    CapitalLetters(c);
    forall i | 0 <= i < 26 && c == CAPITAL[i]
      ensures LowerChar(c) == SMALL[i]
    {
      CapitalInOrder(i);
      SmallInOrder(i);
    }
  }

  lemma BlanksAre(c: char)
    ensures IsBlank(c) <==> c in " \t\n\U{0b}\U{0c}\r\U{1c}\U{1d}\U{1e}\U{1f}"
  {
  }

  // The character classes, and lower case, member by member.
  lemma ClassesAre(c: char)
    ensures IsDigit(c) <==> c in DIGITS
    ensures IsLetter(c) <==> c in SMALL
    ensures IsSlash(c) <==> c in "-/"
    ensures IsGap(c) <==> c in " .-"
    ensures IsBlank(c) <==> c in " \t\n\U{0b}\U{0c}\r\U{1c}\U{1d}\U{1e}\U{1f}"
    ensures forall i :: 0 <= i < 26 && c == CAPITAL[i] ==> LowerChar(c) == SMALL[i]
    ensures c !in CAPITAL ==> LowerChar(c) == c
  {
    DigitsInOrder(c);
    SmallLetters(c);
    BlanksAre(c);
    LowerIs(c);
  }

  predicate All(s: string, p: char -> bool) { forall i :: 0 <= i < |s| ==> p(s[i]) }

  function Lower(s: string): (r: string)
    ensures |r| == |s| && forall i :: 0 <= i < |s| ==> r[i] == LowerChar(s[i])
  {
    seq(|s|, i requires 0 <= i < |s| => LowerChar(s[i]))
  }

  // Length of the longest prefix made of characters in `p`.
  function Span(s: string, p: char -> bool): (n: nat)
    ensures n <= |s| && All(s[..n], p) && (n < |s| ==> !p(s[n]))
  {
    if s == "" || !p(s[0]) then 0
    else
      var n := 1 + Span(s[1..], p);
      assert s[..n] == [s[0]] + s[1..][..n - 1];
      n
  }

  lemma SpanOf(a: string, b: string, p: char -> bool)
    requires All(a, p) && (b == "" || !p(b[0]))
    ensures Span(a + b, p) == |a| && (a + b)[..|a|] == a && (a + b)[|a|..] == b
  {
    var n := Span(a + b, p);
    assert forall i :: 0 <= i < |a| ==> (a + b)[i] == a[i];
    assert b != "" ==> (a + b)[|a|] == b[0];
    assert forall i :: 0 <= i < n ==> (a + b)[..n][i] == (a + b)[i];
  }

  function DropLeft(s: string): string { s[Span(s, IsBlank)..] }

  function DropRight(s: string): string
    decreases |s|
  {
    if s != "" && IsBlank(s[|s| - 1]) then DropRight(s[..|s| - 1]) else s
  }

  function Strip(s: string): string { DropRight(DropLeft(s)) }

  function Clean(raw: string): string { Lower(Strip(raw)) }

  function Number(s: string): (n: nat)
    requires All(s, IsDigit)
  {
    if s == "" then 0
    else
      Number(s[..|s| - 1]) * 10 + (s[|s| - 1] - '0') as nat
  }

  // --- the four patterns ------------------------------------------------------

  datatype MonthDay = MonthDay(month: nat, day: nat)

  datatype Pair = Pair(first: nat, second: nat)

  datatype Named = Named(word: string, number: nat)

  predicate ShortNumber(s: string) { 1 <= |s| <= 2 && All(s, IsDigit) }

  predicate Word(s: string) { 3 <= |s| <= 9 && All(s, IsLetter) }

  function MonthNumber(word: string): (m: Option<int>)
    requires Word(word)
    ensures m.Some? ==> 1 <= m.value <= 12
  {
    match word[..3]
    case "jan" => Some(1)
    case "feb" => Some(2)
    case "mar" => Some(3)
    case "apr" => Some(4)
    case "may" => Some(5)
    case "jun" => Some(6)
    case "jul" => Some(7)
    case "aug" => Some(8)
    case "sep" => Some(9)
    case "oct" => Some(10)
    case "nov" => Some(11)
    case "dec" => Some(12)
    case _ => None
  }

  function MatchPair(v: string): Option<Pair> {
    var n := Span(v, IsDigit);
    if 1 <= n <= 2 && n < |v| && IsSlash(v[n]) && ShortNumber(v[n + 1..])
    then Some(Pair(Number(v[..n]), Number(v[n + 1..])))
    else None
  }

  function MatchIso(v: string): Option<Pair> {
    if |v| > 4 && All(v[..4], IsDigit) && IsSlash(v[4]) then MatchPair(v[5..]) else None
  }

  function MatchNamed(v: string): (r: Option<Named>)
    ensures r.Some? ==> Word(r.value.word)
  {
    var n := Span(v, IsLetter);
    var rest := v[n..][Span(v[n..], IsGap)..];
    if Word(v[..n]) && ShortNumber(rest) then Some(Named(v[..n], Number(rest))) else None
  }

  function MatchReversed(v: string): (r: Option<Named>)
    ensures r.Some? ==> Word(r.value.word)
  {
    var n := Span(v, IsDigit);
    var rest := v[n..][Span(v[n..], IsGap)..];
    if ShortNumber(v[..n]) && Word(rest) then Some(Named(rest, Number(v[..n]))) else None
  }

  function MonthFirst(p: Pair): MonthDay {
    if p.first <= 12 then MonthDay(p.first, p.second) else MonthDay(p.second, p.first)
  }

  function OfNamed(r: Option<Named>): Option<MonthDay>
    requires r.Some? ==> Word(r.value.word)
  {
    if r.None? || MonthNumber(r.value.word).None? then None
    else Some(MonthDay(MonthNumber(r.value.word).value, r.value.number))
  }

  const MONTHS: seq<string> := [
    "january", "february", "march", "april", "may", "june",
    "july", "august", "september", "october", "november", "december"]

  lemma MonthBeginnings()
    ensures MONTHS[0][..3] == "jan" && MONTHS[1][..3] == "feb" && MONTHS[2][..3] == "mar" && MONTHS[3][..3] == "apr"
    ensures MONTHS[4][..3] == "may" && MONTHS[5][..3] == "jun" && MONTHS[6][..3] == "jul" && MONTHS[7][..3] == "aug"
    ensures MONTHS[8][..3] == "sep" && MONTHS[9][..3] == "oct" && MONTHS[10][..3] == "nov" && MONTHS[11][..3] == "dec"
  {
  }

  // A word names the month whose English name begins with the same three letters.
  lemma MonthsAreTheCalendar(word: string, m: int)
    requires Word(word)
    ensures MonthNumber(word) == Some(m) <==> 1 <= m <= 12 && word[..3] == MONTHS[m - 1][..3]
  {
    MonthBeginnings();
  }

  function ParseYearEnd(raw: string): Option<MonthDay> {
    var v := Clean(raw);
    if v == "" then None
    else if MatchIso(v).Some? then Some(MonthDay(MatchIso(v).value.first, MatchIso(v).value.second))
    else if MatchPair(v).Some? then Some(MonthFirst(MatchPair(v).value))
    else if OfNamed(MatchNamed(v)).Some? then OfNamed(MatchNamed(v))
    else OfNamed(MatchReversed(v))
  }

  // --- what the patterns mean -------------------------------------------------

  ghost predicate PairForm(v: string, p: Pair) {
    exists a, sep, b ::
      && ShortNumber(a) && IsSlash(sep) && ShortNumber(b)
      && v == a + [sep] + b && p == Pair(Number(a), Number(b))
  }

  ghost predicate IsoForm(v: string, p: Pair) {
    exists year, sep, rest ::
      |year| == 4 && All(year, IsDigit) && IsSlash(sep) && PairForm(rest, p) && v == year + [sep] + rest
  }

  ghost predicate NamedForm(v: string, r: Named) {
    exists word, gap, digits ::
      && Word(word) && All(gap, IsGap) && ShortNumber(digits)
      && v == word + gap + digits && r == Named(word, Number(digits))
  }

  ghost predicate ReversedForm(v: string, r: Named) {
    exists digits, gap, word ::
      && ShortNumber(digits) && All(gap, IsGap) && Word(word)
      && v == digits + gap + word && r == Named(word, Number(digits))
  }

  // Between three and nine letters, the first three those of the month's name.
  predicate NamesMonth(word: string, month: int) {
    3 <= |word| <= 9 && All(word, IsLetter) && 1 <= month <= 12 && word[..3] == MONTHS[month - 1][..3]
  }

  ghost predicate Written(v: string, md: MonthDay) {
    || IsoForm(v, Pair(md.month, md.day))
    || (md.month <= 12 && PairForm(v, Pair(md.month, md.day)))
    || (md.day > 12 && PairForm(v, Pair(md.day, md.month)))
    || (exists word :: NamesMonth(word, md.month) && (NamedForm(v, Named(word, md.day)) || ReversedForm(v, Named(word, md.day))))
  }

  // The lengths the forms allow.
  lemma LengthsAre(s: string)
    ensures ShortNumber(s) <==> (|s| == 1 || |s| == 2) && All(s, IsDigit)
    ensures Word(s) <==> |s| in {3, 4, 5, 6, 7, 8, 9} && All(s, IsLetter)
  {
  }

  lemma PairMatches(a: string, sep: char, b: string)
    requires ShortNumber(a) && IsSlash(sep) && ShortNumber(b)
    ensures MatchPair(a + [sep] + b) == Some(Pair(Number(a), Number(b)))
  {
    var v := a + [sep] + b;
    assert v == a + ([sep] + b);
    SpanOf(a, [sep] + b, IsDigit);
    assert v[|a| + 1..] == b;
  }

  lemma PairIs(v: string, p: Pair)
    ensures MatchPair(v) == Some(p) <==> PairForm(v, p)
  {
    if MatchPair(v) == Some(p) {
      var n := Span(v, IsDigit);
      assert v == v[..n] + [v[n]] + v[n + 1..];
    } else if PairForm(v, p) {
      var a, sep, b :| ShortNumber(a) && IsSlash(sep) && ShortNumber(b) && v == a + [sep] + b && p == Pair(Number(a), Number(b));
      PairMatches(a, sep, b);
    }
  }

  lemma IsoIs(v: string, p: Pair)
    ensures MatchIso(v) == Some(p) <==> IsoForm(v, p)
  {
    if MatchIso(v) == Some(p) {
      PairIs(v[5..], p);
      assert v == v[..4] + [v[4]] + v[5..];
    }
    if IsoForm(v, p) {
      var year, sep, rest :| |year| == 4 && All(year, IsDigit) && IsSlash(sep) && PairForm(rest, p) && v == year + [sep] + rest;
      assert v[..4] == year && v[5..] == rest;
      PairIs(rest, p);
    }
  }

  lemma NamedMatches(word: string, gap: string, digits: string)
    requires Word(word) && All(gap, IsGap) && ShortNumber(digits)
    ensures MatchNamed(word + gap + digits) == Some(Named(word, Number(digits)))
  {
    assert word + gap + digits == word + (gap + digits);
    SpanOf(word, gap + digits, IsLetter);
    SpanOf(gap, digits, IsGap);
  }

  lemma NamedIs(v: string, r: Named)
    ensures MatchNamed(v) == Some(r) <==> NamedForm(v, r)
  {
    if MatchNamed(v) == Some(r) {
      var n := Span(v, IsLetter);
      var k := Span(v[n..], IsGap);
      assert v == v[..n] + v[n..][..k] + v[n..][k..];
    } else if NamedForm(v, r) {
      var word, gap, digits :| Word(word) && All(gap, IsGap) && ShortNumber(digits)
                               && v == word + gap + digits && r == Named(word, Number(digits));
      NamedMatches(word, gap, digits);
    }
  }

  lemma ReversedMatches(digits: string, gap: string, word: string)
    requires ShortNumber(digits) && All(gap, IsGap) && Word(word)
    ensures MatchReversed(digits + gap + word) == Some(Named(word, Number(digits)))
  {
    assert digits + gap + word == digits + (gap + word);
    SpanOf(digits, gap + word, IsDigit);
    SpanOf(gap, word, IsGap);
  }

  lemma ReversedIs(v: string, r: Named)
    ensures MatchReversed(v) == Some(r) <==> ReversedForm(v, r)
  {
    if MatchReversed(v) == Some(r) {
      var n := Span(v, IsDigit);
      var k := Span(v[n..], IsGap);
      assert v == v[..n] + v[n..][..k] + v[n..][k..];
    } else if ReversedForm(v, r) {
      var digits, gap, word :| ShortNumber(digits) && All(gap, IsGap) && Word(word)
                               && v == digits + gap + word && r == Named(word, Number(digits));
      ReversedMatches(digits, gap, word);
    }
  }

  predicate EndsIn(v: string, p: char -> bool) { v != "" && p(v[|v| - 1]) }

  lemma IsoShape(v: string)
    requires MatchIso(v).Some?
    ensures Span(v, IsDigit) == 4
  {
    assert v == v[..4] + v[4..];
    SpanOf(v[..4], v[4..], IsDigit);
  }

  lemma PairShape(v: string)
    requires MatchPair(v).Some?
    ensures 1 <= Span(v, IsDigit) <= 2 && EndsIn(v, IsDigit)
  {
    var rest := v[Span(v, IsDigit) + 1..];
    assert rest[|rest| - 1] == v[|v| - 1];
  }

  lemma NamedShape(v: string)
    requires MatchNamed(v).Some?
    ensures Span(v, IsDigit) == 0 && v != ""
  {
    assert IsLetter(v[..Span(v, IsLetter)][0]);
  }

  lemma LastOfSuffix(v: string, n: nat, k: nat)
    requires n + k < |v|
    ensures var rest := v[n..][k..]; rest[|rest| - 1] == v[|v| - 1]
  {
  }

  lemma ReversedShape(v: string)
    requires MatchReversed(v).Some?
    ensures 1 <= Span(v, IsDigit) <= 2 && EndsIn(v, IsLetter)
  {
    var n := Span(v, IsDigit);
    var k := Span(v[n..], IsGap);
    LastOfSuffix(v, n, k);
  }

  // No text fits two patterns, so the order they are tried in does not matter.
  lemma PatternsAreDisjoint(v: string)
    ensures MatchIso(v).Some? ==> MatchPair(v).None? && MatchNamed(v).None? && MatchReversed(v).None?
    ensures MatchPair(v).Some? ==> MatchNamed(v).None? && MatchReversed(v).None?
    ensures MatchNamed(v).Some? ==> MatchReversed(v).None?
    ensures MatchIso(v).Some? || MatchPair(v).Some? || MatchNamed(v).Some? || MatchReversed(v).Some? ==> v != ""
  {
    if MatchIso(v).Some? { IsoShape(v); }
    if MatchPair(v).Some? { PairShape(v); }
    if MatchNamed(v).Some? { NamedShape(v); }
    if MatchReversed(v).Some? { ReversedShape(v); }
  }

  ghost predicate Matched(v: string, md: MonthDay) {
    || MatchIso(v) == Some(Pair(md.month, md.day))
    || (MatchPair(v).Some? && MonthFirst(MatchPair(v).value) == md)
    || OfNamed(MatchNamed(v)) == Some(md)
    || OfNamed(MatchReversed(v)) == Some(md)
  }

  lemma NamedMonthIs(r: Named, md: MonthDay)
    requires Word(r.word)
    ensures OfNamed(Some(r)) == Some(md) <==> NamesMonth(r.word, md.month) && r == Named(r.word, md.day)
  {
    MonthsAreTheCalendar(r.word, md.month);
  }

  lemma PatternFits(v: string, md: MonthDay)
    requires Matched(v, md)
    ensures Written(v, md)
  {
    if MatchIso(v) == Some(Pair(md.month, md.day)) {
      IsoIs(v, MatchIso(v).value);
    } else if MatchPair(v).Some? && MonthFirst(MatchPair(v).value) == md {
      PairIs(v, MatchPair(v).value);
    } else if OfNamed(MatchNamed(v)) == Some(md) {
      NamedIs(v, MatchNamed(v).value);
      NamedMonthIs(MatchNamed(v).value, md);
    } else {
      ReversedIs(v, MatchReversed(v).value);
      NamedMonthIs(MatchReversed(v).value, md);
    }
  }

  lemma FitsPattern(v: string, md: MonthDay)
    requires Written(v, md)
    ensures Matched(v, md)
  {
    var first, swapped := Pair(md.month, md.day), Pair(md.day, md.month);
    if IsoForm(v, first) {
      IsoIs(v, first);
    } else if md.month <= 12 && PairForm(v, first) {
      PairIs(v, first);
    } else if md.day > 12 && PairForm(v, swapped) {
      PairIs(v, swapped);
    } else {
      var word :| NamesMonth(word, md.month) && (NamedForm(v, Named(word, md.day)) || ReversedForm(v, Named(word, md.day)));
      NamedMonthIs(Named(word, md.day), md);
      NamedIs(v, Named(word, md.day));
      ReversedIs(v, Named(word, md.day));
    }
  }

  // A text is read as a month and day exactly when one of the four spellings says so.
  lemma ReadsExactlyTheFourSpellings(raw: string, md: MonthDay)
    ensures ParseYearEnd(raw) == Some(md) <==> Written(Clean(raw), md)
  {
    var v := Clean(raw);
    PatternsAreDisjoint(v);
    if Matched(v, md) {
      PatternFits(v, md);
    } else if Written(v, md) {
      FitsPattern(v, md);
    }
  }

  // --- printing and reading back ----------------------------------------------

  datatype Spelling =
    | Iso(year: string, sep: char, sep': char)
    | MonthThenDay(sep: char)
    | DayThenMonth(sep: char)
    | NameThenDay(word: string, gap: string)
    | DayThenName(gap: string, word: string)

  function Print(sp: Spelling, month: string, day: string): string {
    match sp
    case Iso(year, sep, sep') => year + [sep] + (month + [sep'] + day)
    case MonthThenDay(sep) => month + [sep] + day
    case DayThenMonth(sep) => day + [sep] + month
    case NameThenDay(word, gap) => word + gap + day
    case DayThenName(gap, word) => day + gap + word
  }

  predicate Usable(sp: Spelling, month: nat) {
    match sp
    case Iso(year, sep, sep') => |year| == 4 && All(year, IsDigit) && IsSlash(sep) && IsSlash(sep')
    case MonthThenDay(sep) => IsSlash(sep)
    case DayThenMonth(sep) => IsSlash(sep)
    case NameThenDay(word, gap) => NamesMonth(word, month) && All(gap, IsGap)
    case DayThenName(gap, word) => NamesMonth(word, month) && All(gap, IsGap)
  }

  // A bare pair is read month first unless its first number cannot be a month.
  predicate Unambiguous(sp: Spelling, md: MonthDay) {
    match sp
    case MonthThenDay(_) => md.month <= 12 || md.month == md.day
    case DayThenMonth(_) => md.day > 12 || md.month == md.day
    case _ => true
  }

  lemma YearIsSplitOff(year: string, sep: char, rest: string)
    requires |year| == 4 && rest != ""
    ensures var v := year + [sep] + rest;
            |v| > 4 && v[..4] == year && v[4] == sep && v[5..] == rest
  {
  }

  lemma IsoMatches(year: string, sep: char, sep': char, month: string, day: string)
    requires |year| == 4 && All(year, IsDigit) && IsSlash(sep) && IsSlash(sep') && ShortNumber(month) && ShortNumber(day)
    ensures MatchIso(year + [sep] + (month + [sep'] + day)) == Some(Pair(Number(month), Number(day)))
  {
    PairMatches(month, sep', day);
    YearIsSplitOff(year, sep, month + [sep'] + day);
  }

  lemma PrintMatches(sp: Spelling, month: string, day: string)
    requires ShortNumber(month) && ShortNumber(day) && Usable(sp, Number(month))
    ensures var v, md := Print(sp, month, day), MonthDay(Number(month), Number(day));
            match sp
            case Iso(_, _, _) => MatchIso(v) == Some(Pair(md.month, md.day))
            case MonthThenDay(_) => MatchPair(v) == Some(Pair(md.month, md.day))
            case DayThenMonth(_) => MatchPair(v) == Some(Pair(md.day, md.month))
            case NameThenDay(word, _) => MatchNamed(v) == Some(Named(word, md.day))
            case DayThenName(_, word) => MatchReversed(v) == Some(Named(word, md.day))
  {
    match sp
    case Iso(year, sep, sep') =>
      IsoMatches(year, sep, sep', month, day);
    case MonthThenDay(sep) => PairMatches(month, sep, day);
    case DayThenMonth(sep) => PairMatches(day, sep, month);
    case NameThenDay(word, gap) => NamedMatches(word, gap, day);
    case DayThenName(gap, word) => ReversedMatches(day, gap, word);
  }

  lemma {:induction false} DropRightIs(s: string) returns (right: string)
    ensures s == DropRight(s) + right && All(right, IsBlank)
    ensures DropRight(s) == "" || !IsBlank(DropRight(s)[|DropRight(s)| - 1])
    decreases |s|
  {
    right := "";
    if s != "" && IsBlank(s[|s| - 1]) {
      var rest := DropRightIs(s[..|s| - 1]);
      right := rest + [s[|s| - 1]];
    }
  }

  // Cleaning takes blanks off both ends, as many as there are, and lowers the rest.
  lemma CleanIs(raw: string) returns (left: string, core: string, right: string)
    ensures raw == left + core + right && Clean(raw) == Lower(core)
    ensures All(left, IsBlank) && All(right, IsBlank)
    ensures core == "" || (!IsBlank(core[0]) && !IsBlank(core[|core| - 1]))
  {
    var n := Span(raw, IsBlank);
    left, core := raw[..n], Strip(raw);
    right := DropRightIs(raw[n..]);
  }

  lemma {:induction false} DropRightBlanks(s: string, right: string)
    requires All(right, IsBlank) && s != "" && !IsBlank(s[|s| - 1])
    ensures DropRight(s + right) == s
  {
    if right != "" {
      assert (s + right)[..|s + right| - 1] == s + right[..|right| - 1];
      DropRightBlanks(s, right[..|right| - 1]);
    } else {
      assert s + right == s;
    }
  }

  lemma BlanksAndCaseAreIgnored(left: string, s: string, right: string)
    requires All(left, IsBlank) && All(right, IsBlank)
    requires s != "" && !IsBlank(s[0]) && !IsBlank(s[|s| - 1])
    ensures Clean(left + s + right) == Lower(s)
  {
    assert left + s + right == left + (s + right);
    SpanOf(left, s + right, IsBlank);
    DropRightBlanks(s, right);
  }

  lemma StripKeeps(s: string)
    requires s != "" && !IsBlank(s[0]) && !IsBlank(s[|s| - 1])
    ensures Strip(s) == s
  {
    assert DropLeft(s) == s;
  }

  lemma PrintHasNoBlankEnds(sp: Spelling, month: string, day: string)
    requires ShortNumber(month) && ShortNumber(day) && Usable(sp, Number(month))
    ensures var v := Print(sp, month, day); v != "" && !IsBlank(v[0]) && !IsBlank(v[|v| - 1])
  {
  }

  function Decimal(n: nat): (s: string)
    ensures s != ""
  {
    (if n < 10 then "" else Decimal(n / 10)) + ['0' + (n % 10) as char]
  }

  lemma NumberAppend(s: string, c: char)
    requires All(s, IsDigit) && IsDigit(c)
    ensures All(s + [c], IsDigit) && Number(s + [c]) == 10 * Number(s) + (c - '0') as nat
  {
    assert (s + [c])[..|s|] == s;
  }

  // Number reads decimal notation; one or two digits hold every number below a hundred.
  lemma {:induction false} NumberReadsDecimal(n: nat)
    ensures All(Decimal(n), IsDigit) && Number(Decimal(n)) == n
    ensures n < 100 ==> ShortNumber(Decimal(n))
  {
    var last := '0' + (n % 10) as char;
    assert IsDigit(last);
    if n < 10 {
      NumberAppend("", last);
    } else {
      NumberReadsDecimal(n / 10);
      NumberAppend(Decimal(n / 10), last);
    }
  }

  lemma TypedIsCleaned(left: string, typed: string, right: string, v: string)
    requires All(left, IsBlank) && All(right, IsBlank) && Lower(typed) == v
    requires v != "" && !IsBlank(v[0]) && !IsBlank(v[|v| - 1])
    ensures Clean(left + typed + right) == v
  {
    assert v[0] == LowerChar(typed[0]) && v[|v| - 1] == LowerChar(typed[|v| - 1]);
    BlanksAndCaseAreIgnored(left, typed, right);
  }

  lemma CleanPrintReadsBack(sp: Spelling, month: string, day: string, raw: string)
    requires ShortNumber(month) && ShortNumber(day) && Usable(sp, Number(month)) && Clean(raw) == Print(sp, month, day)
    ensures var md := MonthDay(Number(month), Number(day));
            ParseYearEnd(raw) == Some(md) <==> Unambiguous(sp, md)
  {
    var md := MonthDay(Number(month), Number(day));
    PrintMatches(sp, month, day);
    PatternsAreDisjoint(Clean(raw));
    if sp.NameThenDay? || sp.DayThenName? {
      NamedMonthIs(Named(sp.word, md.day), md);
    }
  }

  // Every spelling of a month and day, in any case and between any blanks, is read back
  // as printed exactly when it is unambiguous.
  lemma PrintedReadsBackExactly(sp: Spelling, month: string, day: string, left: string, typed: string, right: string)
    requires ShortNumber(month) && ShortNumber(day) && Usable(sp, Number(month))
    requires All(left, IsBlank) && All(right, IsBlank) && Lower(typed) == Print(sp, month, day)
    ensures var md := MonthDay(Number(month), Number(day));
            ParseYearEnd(left + typed + right) == Some(md) <==> Unambiguous(sp, md)
  {
    PrintHasNoBlankEnds(sp, month, day);
    TypedIsCleaned(left, typed, right, Print(sp, month, day));
    CleanPrintReadsBack(sp, month, day, left + typed + right);
  }

  // --- rows ---------------------------------------------------------------------

  function Kept(s: string): string {
    if s == "" then ""
    else (if IsDigit(s[0]) || s[0] == '.' || s[0] == '-' then [s[0]] else "") + Kept(s[1..])
  }

  // Only digits, points and minus signs are kept, in order.
  lemma {:induction false} KeptIs(s: string)
    ensures s != "" ==> Kept(s) == (if s[0] in "0123456789.-" then [s[0]] else "") + Kept(s[1..])
    ensures s == "" ==> Kept(s) == ""
  {
    if s != "" {
      DigitsInOrder(s[0]);
      assert s[0] in "0123456789.-" <==> s[0] in DIGITS || s[0] == '.' || s[0] == '-';
    }
  }

  function Signed(negative: bool, n: int): int { if negative then -n else n }

  // An unsigned decimal, cut to its whole part.
  function Unsigned(body: string): Option<nat> {
    var n := Span(body, IsDigit);
    var fraction := body[n..];
    var valid := if fraction == "" then n > 0 else fraction[0] == '.' && |body| > 1 && All(fraction[1..], IsDigit);
    if valid then Some(Number(body[..n])) else None
  }

  // The whole part of the number left when every other character is dropped.
  function WholePart(raw: string): Option<int> {
    var kept := Kept(raw);
    if kept == "" then None
    else
      var negative := kept[0] == '-';
      var body := if negative then kept[1..] else kept;
      if Unsigned(body).None? then None else Some(Signed(negative, Unsigned(body).value))
  }

  function Tail(fraction: Option<string>): string {
    if fraction.Some? then "." + fraction.value else ""
  }

  predicate IsDecimal(digits: string, fraction: Option<string>) {
    && All(digits, IsDigit) && (fraction.Some? ==> All(fraction.value, IsDigit))
    && (digits != "" || (fraction.Some? && fraction.value != ""))
  }

  lemma UnsignedTruncates(digits: string, fraction: Option<string>)
    requires IsDecimal(digits, fraction)
    ensures Unsigned(digits + Tail(fraction)) == Some(Number(digits))
  {
    SpanOf(digits, Tail(fraction), IsDigit);
    if fraction.Some? {
      assert Tail(fraction)[1..] == fraction.value;
    }
  }

  ghost predicate WrittenUnsigned(body: string, n: nat) {
    exists digits, fraction :: IsDecimal(digits, fraction) && body == digits + Tail(fraction) && n == Number(digits)
  }

  lemma UnsignedIsWritten(body: string)
    requires Unsigned(body).Some?
    ensures WrittenUnsigned(body, Unsigned(body).value)
  {
    var k := Span(body, IsDigit);
    var digits, rest := body[..k], body[k..];
    var fraction := if rest == "" then None else Some(rest[1..]);
    assert rest == Tail(fraction);
    assert body == digits + rest;
    assert IsDecimal(digits, fraction);
  }

  lemma UnsignedReadsExactly(body: string, n: nat)
    ensures Unsigned(body) == Some(n) <==> WrittenUnsigned(body, n)
  {
    if Unsigned(body) == Some(n) {
      UnsignedIsWritten(body);
    } else if WrittenUnsigned(body, n) {
      var digits, fraction :| IsDecimal(digits, fraction) && body == digits + Tail(fraction) && n == Number(digits);
      UnsignedTruncates(digits, fraction);
    }
  }

  // An optional minus before digits, a point and digits; not both digit groups empty.
  ghost predicate WrittenDecimal(kept: string, v: int) {
    exists negative, body, n: nat ::
      WrittenUnsigned(body, n) && kept == (if negative then "-" else "") + body && v == Signed(negative, n)
  }

  lemma UnsignedHasNoSign(body: string, n: nat)
    requires WrittenUnsigned(body, n)
    ensures body != "" && body[0] != '-'
  {
    var digits, fraction :| IsDecimal(digits, fraction) && body == digits + Tail(fraction);
    assert body[0] == if digits != "" then digits[0] else '.';
  }

  lemma WholePartOf(text: string, negative: bool, body: string, n: nat)
    requires WrittenUnsigned(body, n) && Kept(text) == (if negative then "-" else "") + body
    ensures WholePart(text) == Some(Signed(negative, n))
  {
    UnsignedHasNoSign(body, n);
    UnsignedReadsExactly(body, n);
    assert if negative then Kept(text)[1..] == body else Kept(text) == body;
  }

  lemma WholePartIsWritten(text: string)
    requires WholePart(text).Some?
    ensures WrittenDecimal(Kept(text), WholePart(text).value)
  {
    var kept := Kept(text);
    var negative := kept[0] == '-';
    var body := if negative then kept[1..] else kept;
    UnsignedIsWritten(body);
    assert kept == (if negative then "-" else "") + body;
  }

  // A cell is read exactly when what is left of it writes a decimal, and then as the
  // decimal's whole part, toward zero.
  lemma WholePartReadsExactly(text: string, v: int)
    ensures WholePart(text) == Some(v) <==> WrittenDecimal(Kept(text), v)
  {
    if WholePart(text) == Some(v) {
      WholePartIsWritten(text);
    }
    if WrittenDecimal(Kept(text), v) {
      var negative, body, n: nat :| WrittenUnsigned(body, n) && Kept(text) == (if negative then "-" else "") + body && v == Signed(negative, n);
      WholePartOf(text, negative, body, n);
    }
  }

  lemma {:induction false} DigitsAreKept(s: string)
    requires All(s, IsDigit)
    ensures Kept(s) == s
  {
    if s != "" {
      DigitsAreKept(s[1..]);
      assert s == [s[0]] + s[1..];
    }
  }

  lemma DigitsAreRead(s: string)
    requires s != "" && All(s, IsDigit)
    ensures WholePart(s) == Some(Number(s))
  {
    DigitsAreKept(s);
    assert IsDecimal(s, None) && s + Tail(None) == s;
    assert WrittenUnsigned(s, Number(s));
    assert "" + s == s;
    WholePartOf(s, false, s, Number(s));
  }

  // The columns that matter here; `Other` is any other column, and whether its text
  // was refused.
  datatype Cell =
    | YearEndCell(text: string)
    | MonthCell(text: string)
    | DayCell(text: string)
    | NameCell(text: string)
    | OtherCell(text: string, refused: bool)

  datatype Data = Data(month: Option<int>, day: Option<int>, named: bool)

  const NO_DATA: Data := Data(None, None, false)

  function DaysIn(month: int): int {
    if month == 2 then 29
    else if month == 4 || month == 6 || month == 9 || month == 11 then 30
    else 31
  }

  // A day of 2024, the leap year dates are checked against.
  predicate RealDay(month: int, day: int) {
    1 <= month <= 12 && 1 <= day <= DaysIn(month)
  }

  const DAYS_OF_2024: seq<int> := [31, 29, 31, 30, 31, 30, 31, 31, 30, 31, 30, 31]

  lemma RealDaysAreTheCalendar(month: int, day: int)
    ensures RealDay(month, day) <==> 1 <= month <= 12 && 1 <= day <= DAYS_OF_2024[month - 1]
  {
  }

  predicate Readable(cell: Cell) {
    Strip(cell.text) == "" ||
    match cell
    case YearEndCell(text) => ParseYearEnd(Strip(text)).Some?
    case MonthCell(text) => WholePart(Strip(text)).Some?
    case DayCell(text) => WholePart(Strip(text)).Some?
    case NameCell(_) => true
    case OtherCell(_, refused) => !refused
  }

  function Fill(data: Data, cell: Cell): Data {
    if Strip(cell.text) == "" || !Readable(cell) then data
    else
      match cell
      case YearEndCell(text) =>
        var md := ParseYearEnd(Strip(text)).value;
        data.(month := Some(md.month), day := Some(md.day))
      case MonthCell(text) => data.(month := WholePart(Strip(text)))
      case DayCell(text) => data.(day := WholePart(Strip(text)))
      case NameCell(_) => data.(named := true)
      case OtherCell(_, _) => data
  }

  // A year-end column is readable exactly when its text is in one of the four spellings,
  // and then sets month and day.
  lemma YearEndCellFills(data: Data, text: string, md: MonthDay)
    requires Strip(text) != ""
    ensures Readable(YearEndCell(text)) <==> exists x :: Written(Clean(Strip(text)), x)
    ensures Written(Clean(Strip(text)), md) ==>
              Fill(data, YearEndCell(text)) == Data(Some(md.month), Some(md.day), data.named)
  {
    ReadsExactlyTheFourSpellings(Strip(text), md);
    if Readable(YearEndCell(text)) {
      ReadsExactlyTheFourSpellings(Strip(text), ParseYearEnd(Strip(text)).value);
    } else {
      forall x
        ensures !Written(Clean(Strip(text)), x)
      {
        ReadsExactlyTheFourSpellings(Strip(text), x);
      }
    }
  }

  // A month or day column sets its own field, to the whole part of what it writes.
  lemma NumberCellsFill(data: Data, text: string, v: int)
    requires Strip(text) != ""
    ensures Readable(MonthCell(text)) <==> exists x :: WrittenDecimal(Kept(Strip(text)), x)
    ensures Readable(DayCell(text)) <==> Readable(MonthCell(text))
    ensures WrittenDecimal(Kept(Strip(text)), v) ==>
              && Fill(data, MonthCell(text)) == Data(Some(v), data.day, data.named)
              && Fill(data, DayCell(text)) == Data(data.month, Some(v), data.named)
  {
    WholePartReadsExactly(Strip(text), v);
    if Readable(MonthCell(text)) {
      WholePartReadsExactly(Strip(text), WholePart(Strip(text)).value);
    } else {
      forall x
        ensures !WrittenDecimal(Kept(Strip(text)), x)
      {
        WholePartReadsExactly(Strip(text), x);
      }
    }
  }

  // Blank cells and other columns set nothing; a name column only marks the row as named.
  lemma OtherCellsFill(data: Data, cell: Cell)
    ensures Strip(cell.text) == "" ==> Readable(cell) && Fill(data, cell) == data
    ensures cell.OtherCell? && Strip(cell.text) != "" ==> Fill(data, cell) == data && (Readable(cell) <==> !cell.refused)
    ensures cell.NameCell? && Strip(cell.text) != "" ==> Readable(cell) && Fill(data, cell) == Data(data.month, data.day, true)
  {
  }

  function FillAll(cells: seq<Cell>): Data {
    if cells == [] then NO_DATA else Fill(FillAll(cells[..|cells| - 1]), cells[|cells| - 1])
  }

  function MonthOf(data: Data): int { if data.month.Some? then data.month.value else 12 }

  function DayOf(data: Data): int { if data.day.Some? then data.day.value else 31 }

  method ReadCell(before: Data, cell: Cell) returns (data: Data, refused: bool)
    ensures data == Fill(before, cell) && (refused <==> !Readable(cell))
  {
    data, refused := before, false;
    var text := Strip(cell.text);
    if text == "" {
      return;
    }
    match cell {
      case YearEndCell(_) =>
        var parsed := ParseYearEnd(text);
        if parsed.None? {
          refused := true;
        } else {
          data := data.(month := Some(parsed.value.month), day := Some(parsed.value.day));
        }
      case MonthCell(_) =>
        if WholePart(text).None? {
          refused := true;
        } else {
          data := data.(month := WholePart(text));
        }
      case DayCell(_) =>
        if WholePart(text).None? {
          refused := true;
        } else {
          data := data.(day := WholePart(text));
        }
      case NameCell(_) =>
        data := data.(named := true);
      case OtherCell(_, bad) =>
        refused := bad;
    }
  }

  function Unreadable(cells: seq<Cell>): nat {
    if cells == [] then 0
    else Unreadable(cells[..|cells| - 1]) + if Readable(cells[|cells| - 1]) then 0 else 1
  }

  ghost predicate AllReadable(cells: seq<Cell>) { forall cell <- cells :: Readable(cell) }

  lemma {:induction false} NoneUnreadable(cells: seq<Cell>)
    ensures Unreadable(cells) == 0 <==> AllReadable(cells)
  {
    if cells != [] {
      var front, last := cells[..|cells| - 1], cells[|cells| - 1];
      assert cells == front + [last];
      NoneUnreadable(front);
    }
  }

  method ReadCells(cells: seq<Cell>) returns (data: Data, errors: nat)
    ensures data == FillAll(cells) && errors == Unreadable(cells)
  {
    data, errors := NO_DATA, 0;
    for i := 0 to |cells|
      invariant data == FillAll(cells[..i]) && errors == Unreadable(cells[..i])
    {
      assert cells[..i + 1][..i] == cells[..i];
      var refused;
      data, refused := ReadCell(data, cells[i]);
      if refused {
        errors := errors + 1;
      }
    }
    assert cells[..|cells|] == cells;
  }

  ghost predicate Accepted(cells: seq<Cell>) {
    AllReadable(cells) && FillAll(cells).named && RealDay(MonthOf(FillAll(cells)), DayOf(FillAll(cells)))
  }

  // What a date can be made of at all: a number beyond a C int raises another exception
  // than an unreal day does, and that one is not caught.
  predicate FitsInt(n: int) {
    -0x8000_0000 <= n <= 0x7fff_ffff
  }

  // A row is accepted exactly when every cell is readable, it names the client, and its
  // year end, completed by 31 December, is a real day; and then it is kept as read. An
  // oversized day of a month in range is no error of the row: the request fails.
  method ParseRow(cells: seq<Cell>) returns (data: Data, errors: nat, raised: bool)
    ensures errors == 0 && !raised <==> Accepted(cells)
    ensures errors == 0 && !raised ==> data == FillAll(cells) && RealDay(MonthOf(data), DayOf(data))
    ensures raised <==> 1 <= MonthOf(FillAll(cells)) <= 12 && !FitsInt(DayOf(FillAll(cells)))
  {
    data, errors := ReadCells(cells);
    raised := false;
    NoneUnreadable(cells);
    if !data.named {
      errors := errors + 1;
    }
    if !(1 <= MonthOf(data) <= 12) {
      errors := errors + 1;
      data := data.(month := Some(12));
    } else if !FitsInt(DayOf(data)) {
      raised := true;
    } else if !RealDay(MonthOf(data), DayOf(data)) {
      errors := errors + 1;
      data := data.(day := Some(28));
    }
  }

  // --- what accepted rows do to a client ------------------------------------------

  // Only the columns present are assigned.
  function Assign(month: int, day: int, data: Data): (int, int) {
    (if data.month.Some? then data.month.value else month, if data.day.Some? then data.day.value else day)
  }

  predicate SafeUpdate(data: Data) {
    data.month.Some? || data.day.None? || data.day.value <= 29
  }

  // An accepted row keeps every client it may update on a real day exactly when it
  // names a month, or no day, or a day every month has.
  lemma UpdatesKeepYearEndsRealExactly(data: Data)
    requires RealDay(MonthOf(data), DayOf(data))
    ensures (forall month, day :: RealDay(month, day) ==> var (m, d) := Assign(month, day, data); RealDay(m, d))
            <==> SafeUpdate(data)
  {
    if !SafeUpdate(data) {
      var (m, d) := Assign(2, 28, data);
      assert RealDay(2, 28) && !RealDay(m, d);
    }
  }

  lemma DecimalsAreRead(n: nat)
    ensures WholePart(Decimal(n)) == Some(n)
  {
    NumberReadsDecimal(n);
    DigitsAreRead(Decimal(n));
  }

  lemma ThirtyIsWritten()
    ensures Decimal(30) == "30"
  {
    assert Decimal(3) == "3";
  }

  lemma DayIsFilled(data: Data, text: string, n: int)
    requires text != "" && !IsBlank(text[0]) && !IsBlank(text[|text| - 1]) && WholePart(text) == Some(n)
    ensures Readable(DayCell(text)) && Fill(data, DayCell(text)) == data.(day := Some(n))
  {
    StripKeeps(text);
  }

  lemma NameIsFilled(data: Data, text: string)
    requires text != "" && !IsBlank(text[0]) && !IsBlank(text[|text| - 1])
    ensures Readable(NameCell(text)) && Fill(data, NameCell(text)) == data.(named := true)
  {
    StripKeeps(text);
  }

  lemma DayThirty(data: Data) returns (cell: Cell)
    ensures cell == DayCell("30") && Readable(cell) && Fill(data, cell) == data.(day := Some(30))
  {
    var text := Decimal(30);
    NumberReadsDecimal(30);
    DecimalsAreRead(30);
    DayIsFilled(data, text, 30);
    ThirtyIsWritten();
    cell := DayCell(text);
  }

  lemma TwoCells(a: Cell, b: Cell)
    ensures FillAll([a, b]) == Fill(Fill(NO_DATA, a), b)
    ensures AllReadable([a, b]) <==> Readable(a) && Readable(b)
  {
    assert [a, b][0] == a && [a, b][1] == b;
    assert [a][..0] == [] && [a, b][..1] == [a];
    assert FillAll([a]) == Fill(FillAll([]), a);
  }

  lemma NameAndThirtyAreAccepted(name: Cell, day: Cell)
    requires Readable(name) && Fill(NO_DATA, name) == Data(None, None, true)
    requires Readable(day) && Fill(Data(None, None, true), day) == Data(None, Some(30), true)
    ensures Accepted([name, day]) && FillAll([name, day]) == Data(None, Some(30), true)
  {
    TwoCells(name, day);
  }

  // Such a row is accepted: a sheet with a name and the day 30 moves 28 February to 30 February.
  lemma AcceptedDayCanBreakFebruary() returns (cells: seq<Cell>)
    ensures cells == [NameCell("A"), DayCell("30")]
    ensures Accepted(cells) && Assign(2, 28, FillAll(cells)) == (2, 30) && !RealDay(2, 30)
  {
    var name := NameCell("A");
    NameIsFilled(NO_DATA, name.text);
    var day := DayThirty(Data(None, None, true));
    NameAndThirtyAreAccepted(name, day);
    cells := [name, day];
  }

  // The year end of a client that the first row creates, from 31 December, and the
  // others update.
  function Imported(rows: seq<seq<Cell>>): (int, int) {
    if rows == [] then (12, 31)
    else
      var (month, day) := Imported(rows[..|rows| - 1]);
      Assign(month, day, FillAll(rows[|rows| - 1]))
  }

  // A client created from any accepted row has a real year end, and keeps one through
  // any accepted updates that are safe.
  lemma {:induction false} ImportedYearEndIsReal(rows: seq<seq<Cell>>)
    requires forall i :: 0 <= i < |rows| ==> Accepted(rows[i])
    requires forall i :: 0 < i < |rows| ==> SafeUpdate(FillAll(rows[i]))
    ensures var (month, day) := Imported(rows); RealDay(month, day)
  {
    if |rows| > 1 {
      ImportedYearEndIsReal(rows[..|rows| - 1]);
      assert Accepted(rows[|rows| - 1]);
      UpdatesKeepYearEndsRealExactly(FillAll(rows[|rows| - 1]));
    } else if rows != [] {
      assert rows[..0] == [];
      assert Accepted(rows[0]);
    }
  }
}
