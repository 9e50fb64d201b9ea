/** The duration parser `duration_to_s` (scaleops/promqlpandas.py:333-379).

    A duration string is one or more tokens `<digits><unit>` written back to
    back, with unit one of `ms s m h d w y`. Durations are counted here in
    whole milliseconds, so every multiplier is an integer and the sum is exact. */
module Durations {
  import opened Common

  datatype Unit = Ms | S | M | H | D | W | Y

  /** The unit's length in milliseconds (the table at lines 356-364, times 1000). */
  function Multiplier(u: Unit): (r: nat)
    ensures r > 0
  {
    match u
    case Ms => 1
    case S => 1000
    case M => 60 * 1000
    case H => 60 * 60 * 1000
    case D => 24 * 60 * 60 * 1000
    case W => 7 * 24 * 60 * 60 * 1000
    case Y => 365 * 24 * 60 * 60 * 1000
  }

  function UnitText(u: Unit): string
  {
    match u
    case Ms => "ms"
    case S => "s"
    case M => "m"
    case H => "h"
    case D => "d"
    case W => "w"
    case Y => "y"
  }

  predicate IsDigit(c: char) { '0' <= c <= '9' }

  function DigitValue(c: char): nat
    requires IsDigit(c)
  {
    (c as int) - ('0' as int)
  }

  predicate AllDigits(s: string) { forall i :: 0 <= i < |s| ==> IsDigit(s[i]) }

  /** `int(num)` of a decimal digit string, read left to right. */
  function DigitsValue(s: string): nat
    requires AllDigits(s)
  {
    if s == [] then 0 else DigitsValue(s[..|s| - 1]) * 10 + DigitValue(s[|s| - 1])
  }

  /** One token of the grammar: the digits as written and the unit. */
  datatype Token = Token(digits: string, unit: Unit)

  predicate ValidToken(t: Token) { |t.digits| > 0 && AllDigits(t.digits) }

  predicate ValidTokens(ts: seq<Token>) { forall i :: 0 <= i < |ts| ==> ValidToken(ts[i]) }

  function TokenText(t: Token): string { t.digits + UnitText(t.unit) }

  /** The string a token list spells. */
  function Render(ts: seq<Token>): string
  {
    if ts == [] then [] else TokenText(ts[0]) + Render(ts[1..])
  }

  /** The token list's length in milliseconds: the sum of count times multiplier. */
  function Total(ts: seq<Token>): nat
    requires ValidTokens(ts)
  {
    if ts == [] then 0 else Scaled(DigitsValue(ts[0].digits), ts[0].unit) + Total(ts[1..])
  }

  /** `count` units, in milliseconds: `count * Multiplier(u)`, written per unit
      so that every product has a constant factor. */
  function Scaled(count: nat, u: Unit): nat
  {
    match u
    case Ms => count
    case S => count * 1000
    case M => count * 60000
    case H => count * 3600000
    case D => count * 86400000
    case W => count * 604800000
    case Y => count * 31536000000
  }

  /** Length of the run of digits that starts `s` (the greedy `\d+`). */
  function DigitRun(s: string): (k: nat)
    ensures k <= |s|
  {
    if s != [] && IsDigit(s[0]) then 1 + DigitRun(s[1..]) else 0
  }

  /** The unit that starts `s` and the length of its text; `ms` is tried
      before `m`, as in the alternation `ms|s|m|h|d|w|y`. */
  function ScanUnit(s: string): Option<(Unit, nat)>
  {
    if |s| >= 2 && s[0] == 'm' && s[1] == 's' then Some((Ms, 2))
    else if s == [] then None
    else if s[0] == 's' then Some((S, 1))
    else if s[0] == 'm' then Some((M, 1))
    else if s[0] == 'h' then Some((H, 1))
    else if s[0] == 'd' then Some((D, 1))
    else if s[0] == 'w' then Some((W, 1))
    else if s[0] == 'y' then Some((Y, 1))
    else None
  }

  /** The token that starts `s` and the number of characters it takes. */
  function ScanToken(s: string): (r: Option<(Token, nat)>)
    ensures r.Some? ==> 0 < r.value.1 <= |s|
  {
    var k := DigitRun(s);
    if k == 0 then None
    else match ScanUnit(s[k..])
      case None => None
      case Some((u, n)) => if k + n <= |s| then Some((Token(s[..k], u), k + n)) else None
  }

  /** The scanner: the tokens `s` is made of, or None when some part of `s`
      is not a token. */
  function Tokenize(s: string): Option<seq<Token>>
    decreases |s|
  {
    if s == [] then Some([])
    else match ScanToken(s)
      case None => None
      case Some((t, n)) =>
        match Tokenize(s[n..])
        case None => None
        case Some(rest) => Some([t] + rest)
  }

  /** What a caller may pass as a duration. `Number` stands for a Python int or
      float (already a count of seconds, here of milliseconds); `TimeDelta` for
      a `datetime.timedelta`; `Other` for anything else. */
  datatype DurationInput = Text(text: string) | Number(ms: int) | TimeDelta(ms: int) | Other

  /** The outcome `duration_to_s` has for each input, in milliseconds. */
  function DurationSpec(d: DurationInput): Result<int, Error>
  {
    match d
    case Number(x) => Ok(x)
    case Text(s) => TextSpec(s)
    case TimeDelta(_) => Err(TypeError)
    case Other => Err(TypeError)
  }

  /** A string is refused unless it is one or more tokens (the `fullmatch` at
      line 369); otherwise it is worth the sum of its tokens. */
  function TextSpec(s: string): Result<int, Error>
  {
    if s == [] then Err(InvalidDuration)
    else match Tokenize(s)
      case None => Err(InvalidDuration)
      case Some(ts) => LemmaTokenizeValid(s); Ok(Total(ts))
  }

  /** `duration_to_s`: the type checks at lines 347-354, then the string parse. */
  method DurationToMs(d: DurationInput) returns (r: Result<int, Error>)
    ensures r == DurationSpec(d)
  {
    match d {
      case Number(x) => return Ok(x);
      case TimeDelta(_) => return Err(TypeError);
      case Other => return Err(TypeError);
      case Text(s) => r := ParseDurationText(s);
    }
  }

  /** The string parse at lines 356-379: one left-to-right scan that checks
      the grammar and adds up each token's milliseconds. */
  method ParseDurationText(s: string) returns (r: Result<int, Error>)
    ensures r == TextSpec(s)
  {
    if s == [] {
      return Err(InvalidDuration);
    }
    var i := 0;
    var total := 0;
    ghost var done: seq<Token> := [];
    ghost var whole := Tokenize(s);
    ScanStart(s);
    while i < |s|
      invariant 0 <= i <= |s|
      invariant ValidTokens(done)
      invariant whole == OptPrepend(done, Tokenize(s[i..]))
      invariant total == Total(done)
    {
      var j, num := ScanDigits(s, i);
      var unit := ScanUnit(s[j..]);
      if j == i || unit.None? {
        ScanFails(s, i, j, done, whole);
        return Err(InvalidDuration);
      }
      var (u, n) := unit.value;
      done := ScanAdvance(s, i, j, num, done, whole, total);
      total := total + Scaled(num, u);
      i := j + n;
    }
    TextSpecAccepts(s, whole, done, total);
    return Ok(total);
  }

  /** Before the loop: nothing read yet. */
  lemma ScanStart(s: string)
    ensures Tokenize(s) == OptPrepend([], Tokenize(s[0..]))
  {
    assert s[0..] == s;
    if Tokenize(s).Some? {
      assert [] + Tokenize(s).value == Tokenize(s).value;
    }
  }

  /** After the loop: the whole string was read as `done`. */
  lemma TextSpecAccepts(s: string, whole: Option<seq<Token>>, done: seq<Token>, total: int)
    requires s != [] && ValidTokens(done) && total == Total(done)
    requires whole == Tokenize(s) && whole == OptPrepend(done, Tokenize(s[|s|..]))
    ensures TextSpec(s) == Ok(total)
  {
    assert s[|s|..] == [];
    assert done + [] == done;
  }

  /** The `\d+` part of one token: the digit run that starts at `i`, and its
      value. */
  method ScanDigits(s: string, i: nat) returns (j: nat, num: nat)
    requires i <= |s|
    ensures i <= j <= |s| && DigitRun(s[i..]) == j - i
    ensures AllDigits(s[i..j]) && num == DigitsValue(s[i..j])
  {
    j, num := i, 0;
    while j < |s| && IsDigit(s[j])
      invariant i <= j <= |s|
      invariant AllDigits(s[i..j])
      invariant DigitRun(s[i..]) == (j - i) + DigitRun(s[j..])
      invariant num == DigitsValue(s[i..j])
    {
      DigitRunStep(s, j);
      DigitsSnoc(s, i, j);
      num := num * 10 + DigitValue(s[j]);
      j := j + 1;
    }
    assert DigitRun(s[j..]) == 0;
  }

  lemma DigitsSnoc(s: string, i: nat, j: nat)
    requires i <= j < |s| && AllDigits(s[i..j]) && IsDigit(s[j])
    ensures AllDigits(s[i..j + 1])
    ensures DigitsValue(s[i..j + 1]) == DigitsValue(s[i..j]) * 10 + DigitValue(s[j])
  {
    assert s[i..j + 1] == s[i..j] + [s[j]];
    assert s[i..j + 1][..j - i] == s[i..j];
  }

  lemma DigitRunStep(s: string, j: nat)
    requires j < |s| && IsDigit(s[j])
    ensures DigitRun(s[j..]) == 1 + DigitRun(s[j + 1..])
  {
    assert s[j..][1..] == s[j + 1..];
  }

  /** The scanner reads the token between `i` and the end of the unit after
      the digit run `s[i..j]`. */
  lemma ScanStep(s: string, i: nat, j: nat)
    requires i < j <= |s| && DigitRun(s[i..]) == j - i
    requires ScanUnit(s[j..]).Some?
    ensures j + ScanUnit(s[j..]).value.1 <= |s|
    ensures Tokenize(s[i..]) ==
            OptPrepend([Token(s[i..j], ScanUnit(s[j..]).value.0)],
                       Tokenize(s[j + ScanUnit(s[j..]).value.1..]))
  {
    ScanTokenAt(s, i, j);
    var (u, m) := ScanUnit(s[j..]).value;
    TokenizeOpt(s[i..], Token(s[i..j], u), j - i + m);
    assert s[i..][j - i + m..] == s[j + m..];
  }

  lemma ScanTokenAt(s: string, i: nat, j: nat)
    requires i < j <= |s| && DigitRun(s[i..]) == j - i
    requires ScanUnit(s[j..]).Some?
    ensures j + ScanUnit(s[j..]).value.1 <= |s|
    ensures ScanToken(s[i..]) ==
            Some((Token(s[i..j], ScanUnit(s[j..]).value.0), j - i + ScanUnit(s[j..]).value.1))
  {
    ScanUnitText(s[j..]);
    assert s[i..][j - i..] == s[j..];
    assert s[i..][..j - i] == s[i..j];
  }

  /** One step of the scanner, whether or not the rest is accepted. */
  lemma TokenizeOpt(x: string, t: Token, n: nat)
    requires x != [] && ScanToken(x) == Some((t, n))
    ensures Tokenize(x) == OptPrepend([t], Tokenize(x[n..]))
  {
  }

  /** The loop's step: one more token read, worth `num` units. */
  lemma ScanAdvance(s: string, i: nat, j: nat, num: nat, done: seq<Token>,
                    whole: Option<seq<Token>>, total: int) returns (next: seq<Token>)
    requires i < j <= |s| && DigitRun(s[i..]) == j - i
    requires AllDigits(s[i..j]) && num == DigitsValue(s[i..j])
    requires ScanUnit(s[j..]).Some?
    requires ValidTokens(done) && total == Total(done)
    requires whole == OptPrepend(done, Tokenize(s[i..]))
    ensures j + ScanUnit(s[j..]).value.1 <= |s|
    ensures ValidTokens(next)
    ensures whole == OptPrepend(next, Tokenize(s[j + ScanUnit(s[j..]).value.1..]))
    ensures Total(next) == total + Scaled(num, ScanUnit(s[j..]).value.0)
  {
    ScanStep(s, i, j);
    var (u, n) := ScanUnit(s[j..]).value;
    var t := Token(s[i..j], u);
    OptPrependAssoc(done, [t], Tokenize(s[j + n..]));
    TotalSnoc(done, t);
    next := done + [t];
  }

  /** Without digits, or without a unit after them, the string is refused. */
  lemma ScanFails(s: string, i: nat, j: nat, done: seq<Token>, whole: Option<seq<Token>>)
    requires i <= j <= |s| && i < |s| && DigitRun(s[i..]) == j - i
    requires j == i || ScanUnit(s[j..]).None?
    requires whole == Tokenize(s) && whole == OptPrepend(done, Tokenize(s[i..]))
    ensures TextSpec(s) == Err(InvalidDuration)
  {
    assert s[i..][j - i..] == s[j..];
    assert ScanToken(s[i..]) == None;
  }

  /** `done` followed by the list inside `o`. */
  function OptPrepend(done: seq<Token>, o: Option<seq<Token>>): Option<seq<Token>>
  {
    match o
    case None => None
    case Some(rest) => Some(done + rest)
  }

  lemma OptPrependAssoc(a: seq<Token>, b: seq<Token>, o: Option<seq<Token>>)
    ensures OptPrepend(a, OptPrepend(b, o)) == OptPrepend(a + b, o)
  {
    if o.Some? {
      assert a + (b + o.value) == (a + b) + o.value;
    }
  }

  lemma {:induction false} TotalAppend(a: seq<Token>, b: seq<Token>)
    requires ValidTokens(a) && ValidTokens(b)
    ensures ValidTokens(a + b) && Total(a + b) == Total(a) + Total(b)
  {
    if a != [] {
      assert (a + b)[1..] == a[1..] + b;
      TotalAppend(a[1..], b);
    } else {
      assert a + b == b;
    }
  }

  lemma TotalSnoc(done: seq<Token>, t: Token)
    requires ValidTokens(done) && ValidToken(t)
    ensures ValidTokens(done + [t])
    ensures Total(done + [t]) == Total(done) + Scaled(DigitsValue(t.digits), t.unit)
  {
    TotalAppend(done, [t]);
    assert [t][1..] == [];
  }

  lemma {:induction false} RenderAppend(a: seq<Token>, b: seq<Token>)
    ensures Render(a + b) == Render(a) + Render(b)
  {
    if a != [] {
      assert (a + b)[1..] == a[1..] + b;
      RenderAppend(a[1..], b);
    } else {
      assert a + b == b;
    }
  }

  /** The first `DigitRun(s)` characters are digits. */
  lemma {:induction false} DigitRunDigits(s: string)
    ensures AllDigits(s[..DigitRun(s)])
  {
    if s != [] && IsDigit(s[0]) {
      DigitRunDigits(s[1..]);
      assert s[..DigitRun(s)] == [s[0]] + s[1..][..DigitRun(s[1..])];
    }
  }

  /** A digit string followed by a non-digit (or nothing) has exactly that run. */
  lemma {:induction false} DigitRunOf(d: string, rest: string)
    requires AllDigits(d)
    requires rest == [] || !IsDigit(rest[0])
    ensures DigitRun(d + rest) == |d|
  {
    if d != [] {
      assert (d + rest)[1..] == d[1..] + rest;
      DigitRunOf(d[1..], rest);
    } else {
      assert d + rest == rest;
    }
  }

  /** A token the scanner reads is well formed and spelled by the characters
      it takes. */
  lemma ScanTokenText(s: string)
    requires ScanToken(s).Some?
    ensures ValidToken(ScanToken(s).value.0)
    ensures s[..ScanToken(s).value.1] == TokenText(ScanToken(s).value.0)
  {
    var k := DigitRun(s);
    DigitRunDigits(s);
    ScanUnitText(s[k..]);
    var (u, m) := ScanUnit(s[k..]).value;
    assert s[..k + m] == s[..k] + s[k..][..m];
  }

  /** One step of the scanner. */
  lemma TokenizeStep(s: string)
    requires s != [] && Tokenize(s).Some?
    ensures ScanToken(s).Some?
    ensures Tokenize(s[ScanToken(s).value.1..]).Some?
    ensures Tokenize(s).value == [ScanToken(s).value.0] + Tokenize(s[ScanToken(s).value.1..]).value
  {
  }

  /** The scanner's step, read forwards. */
  lemma TokenizeCons(s: string, t: Token, n: nat, rest: seq<Token>)
    requires s != [] && ScanToken(s) == Some((t, n))
    requires Tokenize(s[n..]) == Some(rest)
    ensures Tokenize(s) == Some([t] + rest)
  {
  }

  /** Every token the scanner produces is well formed. */
  lemma {:induction false} LemmaTokenizeValid(s: string)
    requires Tokenize(s).Some?
    ensures ValidTokens(Tokenize(s).value)
    decreases |s|
  {
    if s != [] {
      TokenizeStep(s);
      ScanTokenText(s);
      var (t, n) := ScanToken(s).value;
      LemmaTokenizeValid(s[n..]);
    }
  }

  /** The unit the scanner reads is spelled by the characters it takes. */
  lemma ScanUnitText(x: string)
    requires ScanUnit(x).Some?
    ensures ScanUnit(x).value.1 <= |x|
    ensures x[..ScanUnit(x).value.1] == UnitText(ScanUnit(x).value.0)
  {
  }

  /** A unit's text followed by nothing or by a digit is read as that unit. */
  lemma ScanUnitOf(u: Unit, rest: string)
    requires rest == [] || IsDigit(rest[0])
    ensures ScanUnit(UnitText(u) + rest) == Some((u, |UnitText(u)|))
  {
    var x := UnitText(u) + rest;
    match u
    case Ms => assert x[0] == 'm' && x[1] == 's';
    case S => assert x[0] == 's';
    case M =>
      assert x[0] == 'm';
      assert |x| >= 2 ==> x[1] == rest[0];
    case H => assert x[0] == 'h';
    case D => assert x[0] == 'd';
    case W => assert x[0] == 'w';
    case Y => assert x[0] == 'y';
  }

  /** Soundness of the scanner: what it accepts is the concatenation of the
      tokens it returns. */
  lemma {:induction false} TokenizeSound(s: string)
    requires Tokenize(s).Some?
    ensures ValidTokens(Tokenize(s).value) && Render(Tokenize(s).value) == s
    decreases |s|
  {
    LemmaTokenizeValid(s);
    if s != [] {
      TokenizeStep(s);
      ScanTokenText(s);
      var (t, n) := ScanToken(s).value;
      TokenizeSound(s[n..]);
      var rest := Tokenize(s[n..]).value;
      assert Render([t] + rest) == TokenText(t) + Render(rest) by {
        assert ([t] + rest)[1..] == rest;
      }
      assert s == s[..n] + s[n..];
    }
  }

  /** Completeness and unambiguity: a well-formed token list is read back as
      exactly that list (the `ms` unit is never mistaken for `m` followed by
      `s`, because every token starts with a digit). */
  lemma {:induction false} TokenizeRender(ts: seq<Token>)
    requires ValidTokens(ts)
    ensures Tokenize(Render(ts)) == Some(ts)
  {
    if ts != [] {
      assert ValidTokens(ts[1..]);
      TokenizeRender(ts[1..]);
      var n := ScanRenderHead(ts);
      TokenizeCons(Render(ts), ts[0], n, ts[1..]);
      assert [ts[0]] + ts[1..] == ts;
    }
  }

  /** The scanner reads the first token of a rendered list, and what is left
      is the rendering of the rest. */
  lemma ScanRenderHead(ts: seq<Token>) returns (n: nat)
    requires ValidTokens(ts) && ts != []
    ensures ScanToken(Render(ts)) == Some((ts[0], n))
    ensures n <= |Render(ts)| && Render(ts)[n..] == Render(ts[1..])
  {
    var rest := Render(ts[1..]);
    assert rest == [] || IsDigit(rest[0]) by {
      if ts[1..] != [] {
        assert ts[1..][0] == ts[1];
        assert rest == ts[1].digits + UnitText(ts[1].unit) + Render(ts[2..]);
        assert ValidToken(ts[1]);
      }
    }
    assert ValidToken(ts[0]);
    ScanTokenOf(ts[0], rest);
    n := |TokenText(ts[0])|;
    assert Render(ts)[n..] == rest;
  }

  /** A token's text followed by nothing or by a digit is read as that token. */
  lemma ScanTokenOf(t: Token, rest: string)
    requires ValidToken(t)
    requires rest == [] || IsDigit(rest[0])
    ensures ScanToken(TokenText(t) + rest) == Some((t, |TokenText(t)|))
  {
    var s := TokenText(t) + rest;
    var ut := UnitText(t.unit);
    var k := |t.digits|;
    assert s == t.digits + (ut + rest);
    DigitRunOf(t.digits, ut + rest);
    assert s[k..] == ut + rest;
    assert s[..k] == t.digits;
    ScanUnitOf(t.unit, rest);
  }

  /** `duration_to_s` accepts a string exactly when it is one or more tokens. */
  lemma AcceptsExactly(s: string)
    ensures DurationSpec(Text(s)).Ok? <==>
            exists ts :: |ts| > 0 && ValidTokens(ts) && Render(ts) == s
  {
    if DurationSpec(Text(s)).Ok? {
      TokenizeSound(s);
      var ts := Tokenize(s).value;
      assert |ts| > 0 && ValidTokens(ts) && Render(ts) == s;
    }
    if exists ts :: |ts| > 0 && ValidTokens(ts) && Render(ts) == s {
      var ts: seq<Token> :| |ts| > 0 && ValidTokens(ts) && Render(ts) == s;
      TokenizeRender(ts);
      assert s != [] by {
        assert ValidToken(ts[0]);
        assert |Render(ts)| >= |ts[0].digits|;
      }
    }
  }

  /** An accepted string is worth the sum of its tokens' milliseconds. */
  lemma ValueOfTokens(ts: seq<Token>)
    requires |ts| > 0 && ValidTokens(ts)
    ensures DurationSpec(Text(Render(ts))) == Ok(Total(ts))
  {
    ValueOfRendered(ts, Render(ts));
  }

  lemma ValueOfRendered(ts: seq<Token>, s: string)
    requires |ts| > 0 && ValidTokens(ts) && Render(ts) == s
    ensures TextSpec(s) == Ok(Total(ts))
  {
    TokenizeRender(ts);
    assert ValidToken(ts[0]);
    assert |Render(ts)| >= |ts[0].digits|;
  }

  /** The value is additive over concatenation of accepted strings. */
  lemma Additive(a: string, b: string)
    requires DurationSpec(Text(a)).Ok? && DurationSpec(Text(b)).Ok?
    ensures DurationSpec(Text(a + b)).Ok?
    ensures DurationSpec(Text(a + b)).value ==
            DurationSpec(Text(a)).value + DurationSpec(Text(b)).value
  {
    assert DurationSpec(Text(a)) == TextSpec(a);
    assert DurationSpec(Text(b)) == TextSpec(b);
    assert DurationSpec(Text(a + b)) == TextSpec(a + b);
    TextAdditive(a, b);
  }

  lemma TextAdditive(a: string, b: string)
    requires TextSpec(a).Ok? && TextSpec(b).Ok?
    ensures TextSpec(a + b).Ok?
    ensures TextSpec(a + b).value == TextSpec(a).value + TextSpec(b).value
  {
    var ta := TextSpecTokens(a);
    var tb := TextSpecTokens(b);
    ConcatSpec(a, b, ta, tb);
  }

  lemma ConcatSpec(a: string, b: string, ta: seq<Token>, tb: seq<Token>)
    requires a != [] && Tokenize(a) == Some(ta) && Tokenize(b) == Some(tb)
    requires ValidTokens(ta) && ValidTokens(tb)
    ensures TextSpec(a + b).Ok? && TextSpec(a + b).value == Total(ta) + Total(tb)
  {
    AcceptedConcat(a, b);
    TotalAppend(ta, tb);
    TextSpecOfTokens(a + b, ta + tb);
  }

  /** The tokens of an accepted string, and its value. */
  lemma TextSpecTokens(s: string) returns (ts: seq<Token>)
    requires TextSpec(s).Ok?
    ensures s != [] && Tokenize(s) == Some(ts)
    ensures ValidTokens(ts) && TextSpec(s).value == Total(ts)
  {
    ts := Tokenize(s).value;
    LemmaTokenizeValid(s);
  }

  /** Two accepted strings written one after the other are accepted. */
  lemma AcceptedConcat(a: string, b: string)
    requires a != [] && Tokenize(a).Some? && Tokenize(b).Some?
    ensures a + b != [] && Tokenize(a + b) == Some(Tokenize(a).value + Tokenize(b).value)
  {
    TokenizeStartsWithDigit(b);
    TokenizeConcat(a, b);
    assert |a + b| >= |a|;
  }

  lemma TextSpecOfTokens(s: string, ts: seq<Token>)
    requires s != [] && Tokenize(s) == Some(ts)
    ensures ValidTokens(ts) && TextSpec(s) == Ok(Total(ts))
  {
    LemmaTokenizeValid(s);
  }

  /** An accepted non-empty string starts with a digit. */
  lemma TokenizeStartsWithDigit(s: string)
    requires Tokenize(s).Some?
    ensures s == [] || IsDigit(s[0])
  {
    if s != [] {
      assert ScanToken(s).Some?;
      assert DigitRun(s) > 0;
    }
  }

  /** The scanner reads two accepted strings written one after the other as
      the tokens of the first followed by those of the second. */
  lemma {:induction false} TokenizeConcat(a: string, b: string)
    requires Tokenize(a).Some? && Tokenize(b).Some?
    requires b == [] || IsDigit(b[0])
    ensures Tokenize(a + b) == Some(Tokenize(a).value + Tokenize(b).value)
    decreases |a|
  {
    var tb := Tokenize(b).value;
    if a == [] {
      assert a + b == b;
      assert Tokenize(a).value + tb == tb;
    } else {
      var t, n, rest := TokenizeHead(a);
      TokenizeConcat(a[n..], b);
      assert a[n..] + b == [] || IsDigit((a[n..] + b)[0]);
      ConcatStep(a, b, t, n, rest, tb);
    }
  }

  /** The first token of an accepted non-empty string, and the tokens of the
      rest, which is empty or starts with a digit. */
  lemma TokenizeHead(a: string) returns (t: Token, n: nat, rest: seq<Token>)
    requires Tokenize(a).Some? && a != []
    ensures ValidToken(t) && 0 < n <= |a| && a[..n] == TokenText(t)
    ensures Tokenize(a[n..]) == Some(rest) && Tokenize(a).value == [t] + rest
    ensures a[n..] == [] || IsDigit(a[n..][0])
  {
    TokenizeStep(a);
    ScanTokenText(a);
    t, n := ScanToken(a).value.0, ScanToken(a).value.1;
    rest := Tokenize(a[n..]).value;
    TokenizeStartsWithDigit(a[n..]);
  }

  /** The step of `TokenizeConcat`: the first token of `a` is read first from
      `a + b` too. */
  lemma ConcatStep(a: string, b: string, t: Token, n: nat, rest: seq<Token>, tb: seq<Token>)
    requires ValidToken(t) && 0 < n <= |a| && a[..n] == TokenText(t)
    requires a[n..] + b == [] || IsDigit((a[n..] + b)[0])
    requires Tokenize(a[n..] + b) == Some(rest + tb)
    ensures Tokenize(a + b) == Some(([t] + rest) + tb)
  {
    SplitAfter(a, b, n);
    assert [t] + (rest + tb) == ([t] + rest) + tb;
    ConsText(t, a[n..] + b, rest + tb, a + b, ([t] + rest) + tb);
  }

  lemma SplitAfter(a: string, b: string, n: nat)
    requires n <= |a|
    ensures a + b == a[..n] + (a[n..] + b)
  {
    assert a == a[..n] + a[n..];
  }

  /** A token's text followed by an accepted string that is empty or starts
      with a digit is read as that token, then the string's tokens. */
  lemma ConsText(t: Token, c: string, tail: seq<Token>, x: string, all: seq<Token>)
    requires ValidToken(t) && (c == [] || IsDigit(c[0]))
    requires Tokenize(c) == Some(tail)
    requires x == TokenText(t) + c && all == [t] + tail
    ensures Tokenize(x) == Some(all)
  {
    ScanTokenOf(t, c);
    var n := |TokenText(t)|;
    assert x[n..] == c;
    TokenizeCons(x, t, n, tail);
  }

  /** A `timedelta` is refused by the type check at line 347, so the branch
      at line 353 is never reached; numbers pass through unchanged. */
  lemma NonStrings(x: int)
    ensures DurationSpec(TimeDelta(x)) == Err(TypeError)
    ensures DurationSpec(Other) == Err(TypeError)
    ensures DurationSpec(Number(x)) == Ok(x)
  {
  }

  lemma ExampleHourMinutes()
    ensures DurationSpec(Text("1h30m")) == Ok(5400000)
  {
    var ts := [Token("1", H), Token("30", M)];
    assert Render(ts) == "1h30m";
    assert DigitsValue("30") == 30 by { assert "30"[..1] == "3"; }
    assert Total(ts) == 5400000 by {
      assert ts[1..] == [Token("30", M)];
    }
    ValueOfTokens(ts);
  }

  lemma ExampleDays()
    ensures DurationSpec(Text("2d")) == Ok(172800000)
  {
    assert Render([Token("2", D)]) == "2d";
    ValueOfTokens([Token("2", D)]);
  }

  lemma ExampleMillis()
    ensures DurationSpec(Text("5ms")) == Ok(5)
  {
    assert Render([Token("5", Ms)]) == "5ms";
    ValueOfTokens([Token("5", Ms)]);
  }

  lemma ExampleRejected()
    ensures DurationSpec(Text("")) == Err(InvalidDuration)
    ensures DurationSpec(Text("abc")) == Err(InvalidDuration)
    ensures DurationSpec(Text("1h 30m")) == Err(InvalidDuration)
  {
    assert DigitRun("abc") == 0;
    var sp := "1h 30m";
    assert DigitRun(sp[2..]) == 0 by { assert sp[2..][0] == ' '; }
    assert Tokenize(sp[2..]) == None;
    assert DigitRun(sp) == 1 by {
      assert sp[1..][0] == 'h';
    }
    assert ScanUnit(sp[1..]) == Some((H, 1));
    assert sp[..1] == "1";
    assert ScanToken(sp) == Some((Token("1", H), 2));
  }
}
