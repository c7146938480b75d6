/**
 * The configuration file: reading `HighScore`, `Gravity` and `Friction` directives line by
 * line, and writing the three settings back. Lines are given as the list `getline` produced;
 * opening, reading and closing the file are not part of this model.
 */
module Config {
  import opened Wrappers

  /** The three settings the game reads from its configuration. */
  datatype Settings = Settings(highScore: int, gravityY: int, friction: real)

  /** The values in force before any line is read. */
  const Defaults: Settings := Settings(1000, 0, 0.0)

  /**
   * Why reading stopped, with the index of the offending line: a line of separators only
   * and a directive without a value both read past the last token, which the source does not
   * guard against; a value the conversion rejects ends the program with an exception.
   */
  datatype ConfigError = NoToken(line: nat) | NoValue(line: nat) | BadValue(line: nat)

  const IntMin: int := -0x8000_0000
  const IntMax: int := 0x7fff_ffff

  /** The tokenizer's separators: space, tab, carriage return and line feed. */
  predicate IsSeparator(c: char)
  {
    c == ' ' || c == '\t' || c == '\r' || c == '\n'
  }

  predicate NoSeparator(s: string)
  {
    forall m :: 0 <= m < |s| ==> !IsSeparator(s[m])
  }

  /** The longest prefix of `s` without a separator. */
  function Word(s: string): (r: string)
    ensures |r| <= |s| && r == s[..|r|] && NoSeparator(r)
    ensures |r| < |s| ==> IsSeparator(s[|r|])
    ensures |s| > 0 && !IsSeparator(s[0]) ==> |r| > 0
  {
    if s == [] || IsSeparator(s[0]) then [] else [s[0]] + Word(s[1..])
  }

  /** The tokens of a line: its maximal runs of non-separators, in order; empty tokens are dropped. */
  function Tokens(s: string): (r: seq<string>)
    ensures forall k :: 0 <= k < |r| ==> |r[k]| > 0 && NoSeparator(r[k])
    decreases |s|
  {
    if s == [] then []
    else if IsSeparator(s[0]) then Tokens(s[1..])
    else
      var w := Word(s);
      [w] + Tokens(s[|w|..])
  }

  /** The characters of `s` that are not separators, in order. */
  function NonSeparators(s: string): string
  {
    if s == [] then [] else (if IsSeparator(s[0]) then [] else [s[0]]) + NonSeparators(s[1..])
  }

  function Concat(ts: seq<string>): string
  {
    if ts == [] then [] else ts[0] + Concat(ts[1..])
  }

  lemma {:induction false} NonSeparatorsAppend(a: string, b: string)
    ensures NonSeparators(a + b) == NonSeparators(a) + NonSeparators(b)
    decreases |a|
  {
    if a != [] {
      assert (a + b)[1..] == a[1..] + b;
      NonSeparatorsAppend(a[1..], b);
    } else {
      assert a + b == b;
    }
  }

  lemma {:induction false} NonSeparatorsOfWord(s: string)
    requires NoSeparator(s)
    ensures NonSeparators(s) == s
    decreases |s|
  {
    if s != [] {
      NonSeparatorsOfWord(s[1..]);
    }
  }

  /** Tokenizing loses exactly the separators: the tokens put together are the other characters. */
  lemma {:induction false} TokensKeepAllOtherCharacters(s: string)
    ensures Concat(Tokens(s)) == NonSeparators(s)
    decreases |s|
  {
    if s == [] {
    } else if IsSeparator(s[0]) {
      TokensKeepAllOtherCharacters(s[1..]);
    } else {
      var w := Word(s);
      var rest := s[|w|..];
      TokensKeepAllOtherCharacters(rest);
      assert s == w + rest;
      NonSeparatorsAppend(w, rest);
      NonSeparatorsOfWord(w);
      assert Tokens(s) == [w] + Tokens(rest);
      assert ([w] + Tokens(rest))[1..] == Tokens(rest);
    }
  }

  predicate IsDigit(c: char)
  {
    '0' <= c <= '9'
  }

  predicate AllDigits(s: string)
  {
    forall m :: 0 <= m < |s| ==> IsDigit(s[m])
  }

  /** The value of a decimal digit string, read most significant digit first. */
  function DigitsValue(d: string): nat
    requires AllDigits(d)
  {
    if d == [] then 0 else DigitsValue(d[..|d| - 1]) * 10 + (d[|d| - 1] - '0') as nat
  }

  function Pow10(n: nat): (r: nat)
    ensures r >= 1
  {
    if n == 0 then 1 else 10 * Pow10(n - 1)
  }

  /** An optional leading sign, split off. */
  function Unsigned(t: string): string
  {
    if |t| > 0 && (t[0] == '-' || t[0] == '+') then t[1..] else t
  }

  predicate Negative(t: string)
  {
    |t| > 0 && t[0] == '-'
  }

  /** The conversion of a token to a 32-bit int: an optional sign, then one or more digits, within range. */
  function ParseInt(t: string): (r: Option<int>)
    ensures r.Some? ==> IntMin <= r.value <= IntMax
    ensures r.Some? ==> |Unsigned(t)| > 0 && AllDigits(Unsigned(t))
  {
    var digits := Unsigned(t);
    if |digits| == 0 || !AllDigits(digits) then None
    else
      var v := if Negative(t) then -(DigitsValue(digits) as int) else DigitsValue(digits) as int;
      if IntMin <= v <= IntMax then Some(v) else None
  }

  /** The index of the first '.', or the length when there is none. */
  function DotIndex(s: string): (r: nat)
    ensures r <= |s|
    ensures r < |s| ==> s[r] == '.'
    ensures forall m :: 0 <= m < r ==> s[m] != '.'
  {
    if s == [] then 0 else if s[0] == '.' then 0 else 1 + DotIndex(s[1..])
  }

  /**
   * The conversion of a token to a number, for plain decimals: an optional sign, digits, and
   * an optional fraction after a '.', with at least one digit in all.
   */
  function ParseDecimal(t: string): (r: Option<real>)
  {
    var body := Unsigned(t);
    var dot := DotIndex(body);
    var whole := body[..dot];
    var frac := if dot < |body| then body[dot + 1..] else [];
    if |whole| + |frac| == 0 || !AllDigits(whole) || !AllDigits(frac) then None
    else
      var m := DigitsValue(whole) as real + DigitsValue(frac) as real / Pow10(|frac|) as real;
      Some(if Negative(t) then -m else m)
  }

  /** Every token the int conversion accepts, the decimal conversion accepts with the same value. */
  lemma DecimalExtendsInt(t: string)
    requires ParseInt(t).Some?
    ensures ParseDecimal(t) == Some(ParseInt(t).value as real)
  {
    var body := Unsigned(t);
    assert DotIndex(body) == |body|;
    assert body[..|body|] == body;
  }

  /** The value that follows the keyword token, as `ParseScore` and `ParseGravity` convert it. */
  function ParseIntValue(tokens: seq<string>, line: nat): (r: Result<int, ConfigError>)
    requires |tokens| >= 1
    ensures r.Ok? <==> |tokens| >= 2 && ParseInt(tokens[1]).Some?
    ensures r.Ok? ==> r.value == ParseInt(tokens[1]).value
  {
    if |tokens| < 2 then Err(NoValue(line))
    else match ParseInt(tokens[1])
      case None => Err(BadValue(line))
      case Some(v) => Ok(v)
  }

  /** The value that follows the keyword token, as `ParseFriction` converts it. */
  function ParseFriction(tokens: seq<string>, line: nat): (r: Result<real, ConfigError>)
    requires |tokens| >= 1
    ensures r.Ok? <==> |tokens| >= 2 && ParseDecimal(tokens[1]).Some?
    ensures r.Ok? ==> r.value == ParseDecimal(tokens[1]).value
  {
    if |tokens| < 2 then Err(NoValue(line))
    else match ParseDecimal(tokens[1])
      case None => Err(BadValue(line))
      case Some(v) => Ok(v)
  }

  /** One line of the configuration: an empty line is skipped, the first token picks the setting. */
  function ApplyLine(c: Settings, line: string, lineNo: nat): Result<Settings, ConfigError>
  {
    if |line| == 0 then Ok(c)
    else
      var tokens := Tokens(line);
      if |tokens| == 0 then Err(NoToken(lineNo))
      else if tokens[0] == "HighScore" then
        match ParseIntValue(tokens, lineNo)
        case Err(e) => Err(e)
        case Ok(v) => Ok(c.(highScore := v))
      else if tokens[0] == "Gravity" then
        match ParseIntValue(tokens, lineNo)
        case Err(e) => Err(e)
        case Ok(v) => Ok(c.(gravityY := v))
      else if tokens[0] == "Friction" then
        match ParseFriction(tokens, lineNo)
        case Err(e) => Err(e)
        case Ok(v) => Ok(c.(friction := v))
      else Ok(c)
  }

  /** The settings after every line has been applied in order to the defaults. */
  function Load(lines: seq<string>): Result<Settings, ConfigError>
  {
    if lines == [] then Ok(Defaults)
    else match Load(lines[..|lines| - 1])
      case Err(e) => Err(e)
      case Ok(c) => ApplyLine(c, lines[|lines| - 1], |lines| - 1)
  }

  /** The read loop: one line at a time, three settings updated in place. */
  method ReadConfig(lines: seq<string>) returns (r: Result<Settings, ConfigError>)
    ensures r == Load(lines)
  {
    var highScore, gravityY, friction := 1000, 0, 0.0;
    for i := 0 to |lines|
      invariant Load(lines[..i]) == Ok(Settings(highScore, gravityY, friction))
    {
      assert lines[..i + 1][..i] == lines[..i];
      var line := lines[i];
      if |line| > 0 {
        var tokens := Tokens(line);
        var next: Result<Settings, ConfigError> := Ok(Settings(highScore, gravityY, friction));
        if |tokens| == 0 {
          next := Err(NoToken(i));
        } else if tokens[0] == "HighScore" {
          var v := ParseIntValue(tokens, i);
          if v.Err? { next := Err(v.error); } else { highScore := v.value; }
        } else if tokens[0] == "Gravity" {
          var v := ParseIntValue(tokens, i);
          if v.Err? { next := Err(v.error); } else { gravityY := v.value; }
        } else if tokens[0] == "Friction" {
          var v := ParseFriction(tokens, i);
          if v.Err? { next := Err(v.error); } else { friction := v.value; }
        }
        if next.Err? {
          ErrorsAreFinal(lines, i + 1);
          return next;
        }
      }
    }
    assert lines[..|lines|] == lines;
    r := Ok(Settings(highScore, gravityY, friction));
  }

  /** Once a line fails, later lines are never read: the error is the result. */
  lemma {:induction false} ErrorsAreFinal(lines: seq<string>, i: nat)
    requires i <= |lines| && Load(lines[..i]).Err?
    ensures Load(lines) == Load(lines[..i])
    decreases |lines| - i
  {
    if i < |lines| {
      assert lines[..i + 1][..i] == lines[..i];
      ErrorsAreFinal(lines, i + 1);
    } else {
      assert lines[..i] == lines;
    }
  }

  /** The decimal text of a natural number, most significant digit first. */
  function NatToString(n: nat): (r: string)
    ensures |r| > 0 && AllDigits(r)
  {
    if n < 10 then [('0' as int + n) as char]
    else NatToString(n / 10) + [('0' as int + n % 10) as char]
  }

  /** How an int is written to a stream: a '-' for negative values, then the digits. */
  function IntToString(v: int): string
  {
    if v < 0 then "-" + NatToString(-v) else NatToString(v)
  }

  lemma {:induction false} NatToStringValue(n: nat)
    ensures DigitsValue(NatToString(n)) == n
  {
    var d := NatToString(n);
    if n >= 10 {
      NatToStringValue(n / 10);
      assert d[..|d| - 1] == NatToString(n / 10);
    }
  }

  /** Every 32-bit int is read back from the text it is written as. */
  lemma IntRoundTrip(v: int)
    requires IntMin <= v <= IntMax
    ensures ParseInt(IntToString(v)) == Some(v)
  {
    NatToStringValue(if v < 0 then -v else v);
    if v < 0 {
      assert Unsigned(IntToString(v)) == NatToString(-v);
    } else {
      assert Unsigned(IntToString(v)) == NatToString(v);
    }
  }

  /**
   * The lines written back on exit, with the friction written as `frictionText`: the stream's
   * formatting of a float is not part of this model.
   */
  function WriteConfig(c: Settings, frictionText: string): seq<string>
  {
    ["HighScore " + IntToString(c.highScore), "Gravity " + IntToString(c.gravityY), "Friction " + frictionText]
  }

  /** A word followed by a separator, or by nothing, is the first token. */
  lemma TokensOfWord(w: string, rest: string)
    requires |w| > 0 && NoSeparator(w) && (rest == [] || IsSeparator(rest[0]))
    ensures Tokens(w + rest) == [w] + Tokens(rest)
  {
    WordStopsAtSeparator(w, rest);
    assert (w + rest)[0] == w[0];
    assert (w + rest)[|w|..] == rest;
  }

  /** A directive line, keyword and value separated by one space, has exactly those two tokens. */
  lemma TokensOfDirective(keyword: string, value: string)
    requires |keyword| > 0 && NoSeparator(keyword) && |value| > 0 && NoSeparator(value)
    ensures Tokens(keyword + " " + value) == [keyword, value]
  {
    assert keyword + " " + value == keyword + (" " + value);
    TokensOfWord(keyword, " " + value);
    assert (" " + value)[1..] == value;
    assert Tokens(" " + value) == Tokens(value);
    TokensOfWord(value, []);
    assert value + [] == value;
  }

  lemma {:induction false} WordStopsAtSeparator(w: string, rest: string)
    requires NoSeparator(w) && (rest == [] || IsSeparator(rest[0]))
    ensures Word(w + rest) == w
    decreases |w|
  {
    if w == [] {
      assert w + rest == rest;
    } else {
      assert (w + rest)[1..] == w[1..] + rest;
      WordStopsAtSeparator(w[1..], rest);
    }
  }

  lemma NatToStringNoSeparator(n: nat)
    ensures NoSeparator(NatToString(n))
  {
    var s := NatToString(n);
    forall m | 0 <= m < |s| ensures !IsSeparator(s[m]) {
      assert IsDigit(s[m]);
    }
  }

  /** Reading one more line applies it to the settings read so far. */
  lemma LoadAppend(lines: seq<string>, line: string)
    ensures Load(lines + [line]) == match Load(lines)
      case Err(e) => Err(e)
      case Ok(c) => ApplyLine(c, line, |lines|)
  {
    assert (lines + [line])[..|lines|] == lines;
  }

  /** The written text of an int is a single token. */
  lemma IntTextIsToken(v: int)
    ensures |IntToString(v)| > 0 && NoSeparator(IntToString(v))
  {
    NatToStringNoSeparator(if v < 0 then -v else v);
  }

  lemma ApplyHighScoreLine(c: Settings, v: int, lineNo: nat)
    requires IntMin <= v <= IntMax
    ensures ApplyLine(c, "HighScore " + IntToString(v), lineNo) == Ok(c.(highScore := v))
  {
    IntRoundTrip(v);
    IntTextIsToken(v);
    TokensOfDirective("HighScore", IntToString(v));
    assert "HighScore " + IntToString(v) == "HighScore" + " " + IntToString(v);
  }

  lemma ApplyGravityLine(c: Settings, v: int, lineNo: nat)
    requires IntMin <= v <= IntMax
    ensures ApplyLine(c, "Gravity " + IntToString(v), lineNo) == Ok(c.(gravityY := v))
  {
    IntRoundTrip(v);
    IntTextIsToken(v);
    TokensOfDirective("Gravity", IntToString(v));
    assert "Gravity " + IntToString(v) == "Gravity" + " " + IntToString(v);
  }

  lemma ApplyFrictionLine(c: Settings, text: string, f: real, lineNo: nat)
    requires |text| > 0 && NoSeparator(text) && ParseDecimal(text) == Some(f)
    ensures ApplyLine(c, "Friction " + text, lineNo) == Ok(c.(friction := f))
  {
    TokensOfDirective("Friction", text);
    assert "Friction " + text == "Friction" + " " + text;
  }

  /**
   * Write-back and read-back agree: the two ints come back as they were, and the friction comes
   * back as whatever its text converts to.
   */
  lemma WriteThenRead(c: Settings, frictionText: string, f: real)
    requires IntMin <= c.highScore <= IntMax && IntMin <= c.gravityY <= IntMax
    requires |frictionText| > 0 && NoSeparator(frictionText) && ParseDecimal(frictionText) == Some(f)
    ensures Load(WriteConfig(c, frictionText)) == Ok(c.(friction := f))
  {
    var lines := WriteConfig(c, frictionText);
    LoadAppend([], lines[0]);
    ApplyHighScoreLine(Defaults, c.highScore, 0);
    assert [] + [lines[0]] == lines[..1];
    LoadAppend(lines[..1], lines[1]);
    ApplyGravityLine(Defaults.(highScore := c.highScore), c.gravityY, 1);
    assert lines[..1] + [lines[1]] == lines[..2];
    LoadAppend(lines[..2], lines[2]);
    ApplyFrictionLine(Defaults.(highScore := c.highScore, gravityY := c.gravityY), frictionText, f, 2);
    assert lines[..2] + [lines[2]] == lines;
  }

  /** A line whose first token is no keyword changes nothing. */
  lemma UnknownLineIgnored(lines: seq<string>, line: string)
    requires |Tokens(line)| > 0
    requires Tokens(line)[0] != "HighScore" && Tokens(line)[0] != "Gravity" && Tokens(line)[0] != "Friction"
    ensures Load(lines + [line]) == Load(lines)
  {
    assert (lines + [line])[..|lines|] == lines;
  }

  /** Two printed HighScore lines appended to a file that reads: the second one's value is in force. */
  lemma LastDirectiveWins(lines: seq<string>, v1: int, v2: int)
    requires IntMin <= v1 <= IntMax && IntMin <= v2 <= IntMax && Load(lines).Ok?
    ensures Load(lines + ["HighScore " + IntToString(v1), "HighScore " + IntToString(v2)])
         == Ok(Load(lines).value.(highScore := v2))
  {
    var l1, l2 := "HighScore " + IntToString(v1), "HighScore " + IntToString(v2);
    var c := Load(lines).value;
    LoadAppend(lines, l1);
    ApplyHighScoreLine(c, v1, |lines|);
    LoadAppend(lines + [l1], l2);
    ApplyHighScoreLine(c.(highScore := v1), v2, |lines| + 1);
    assert lines + [l1] + [l2] == lines + [l1, l2];
  }

  /** A line that reads without error and does not name HighScore leaves the high score as it was. */
  lemma OtherLineKeepsHighScore(c: Settings, line: string, lineNo: nat)
    requires ApplyLine(c, line, lineNo).Ok? && FirstToken(line) != Some("HighScore")
    ensures ApplyLine(c, line, lineNo).value.highScore == c.highScore
  {
  }

  /** A line that reads without error and does not name Gravity leaves the gravity as it was. */
  lemma OtherLineKeepsGravity(c: Settings, line: string, lineNo: nat)
    requires ApplyLine(c, line, lineNo).Ok? && FirstToken(line) != Some("Gravity")
    ensures ApplyLine(c, line, lineNo).value.gravityY == c.gravityY
  {
  }

  /** A line that reads without error and does not name Friction leaves the friction as it was. */
  lemma OtherLineKeepsFriction(c: Settings, line: string, lineNo: nat)
    requires ApplyLine(c, line, lineNo).Ok? && FirstToken(line) != Some("Friction")
    ensures ApplyLine(c, line, lineNo).value.friction == c.friction
  {
  }

  /**
   * In a file that reads without error, the high score is the value on the last line that names HighScore,
   * whatever lines come between and however the value is written.
   */
  lemma {:induction false} LastHighScoreWins(lines: seq<string>, k: nat)
    requires Load(lines).Ok? && k < |lines| && FirstToken(lines[k]) == Some("HighScore")
    requires forall m :: k < m < |lines| ==> FirstToken(lines[m]) != Some("HighScore")
    ensures |Tokens(lines[k])| >= 2 && ParseInt(Tokens(lines[k])[1]).Some?
    ensures Load(lines).value.highScore == ParseInt(Tokens(lines[k])[1]).value
  {
    var init := lines[..|lines| - 1];
    assert Load(init).Ok?;
    if k < |lines| - 1 {
      forall m | k <= m < |init| ensures init[m] == lines[m] { }
      LastHighScoreWins(init, k);
      OtherLineKeepsHighScore(Load(init).value, lines[|lines| - 1], |lines| - 1);
    }
  }

  /** In a file that reads without error, the gravity is the value on the last line that names Gravity. */
  lemma {:induction false} LastGravityWins(lines: seq<string>, k: nat)
    requires Load(lines).Ok? && k < |lines| && FirstToken(lines[k]) == Some("Gravity")
    requires forall m :: k < m < |lines| ==> FirstToken(lines[m]) != Some("Gravity")
    ensures |Tokens(lines[k])| >= 2 && ParseInt(Tokens(lines[k])[1]).Some?
    ensures Load(lines).value.gravityY == ParseInt(Tokens(lines[k])[1]).value
  {
    var init := lines[..|lines| - 1];
    assert Load(init).Ok?;
    if k < |lines| - 1 {
      forall m | k <= m < |init| ensures init[m] == lines[m] { }
      LastGravityWins(init, k);
      OtherLineKeepsGravity(Load(init).value, lines[|lines| - 1], |lines| - 1);
    }
  }

  /** In a file that reads without error, the friction is the value on the last line that names Friction. */
  lemma {:induction false} LastFrictionWins(lines: seq<string>, k: nat)
    requires Load(lines).Ok? && k < |lines| && FirstToken(lines[k]) == Some("Friction")
    requires forall m :: k < m < |lines| ==> FirstToken(lines[m]) != Some("Friction")
    ensures |Tokens(lines[k])| >= 2 && ParseDecimal(Tokens(lines[k])[1]).Some?
    ensures Load(lines).value.friction == ParseDecimal(Tokens(lines[k])[1]).value
  {
    var init := lines[..|lines| - 1];
    assert Load(init).Ok?;
    if k < |lines| - 1 {
      forall m | k <= m < |init| ensures init[m] == lines[m] { }
      LastFrictionWins(init, k);
      OtherLineKeepsFriction(Load(init).value, lines[|lines| - 1], |lines| - 1);
    }
  }

  /** Only the keyword and the value count: tokens after the second are ignored. */
  lemma ExtraTokensIgnored(c: Settings, l1: string, l2: string, lineNo: nat)
    requires |Tokens(l1)| >= 2 && |Tokens(l2)| >= 2 && Tokens(l1)[..2] == Tokens(l2)[..2]
    ensures ApplyLine(c, l1, lineNo) == ApplyLine(c, l2, lineNo)
  {
    assert Tokens(l1)[0] == Tokens(l1)[..2][0] && Tokens(l2)[0] == Tokens(l2)[..2][0];
    assert Tokens(l1)[1] == Tokens(l1)[..2][1] && Tokens(l2)[1] == Tokens(l2)[..2][1];
  }

  lemma {:induction false} OnlySeparatorsNoTokens(s: string)
    requires forall m :: 0 <= m < |s| ==> IsSeparator(s[m])
    ensures Tokens(s) == []
    decreases |s|
  {
    if s != [] {
      OnlySeparatorsNoTokens(s[1..]);
    }
  }

  /** A non-empty line of separators only has no first token to read: reading stops there. */
  lemma BlankLineIsAnError(c: Settings, line: string, lineNo: nat)
    requires |line| > 0 && forall m :: 0 <= m < |line| ==> IsSeparator(line[m])
    ensures ApplyLine(c, line, lineNo) == Err(NoToken(lineNo))
  {
    OnlySeparatorsNoTokens(line);
  }

  /** The first token of a line, if it has one. */
  function FirstToken(line: string): Option<string>
  {
    var tokens := Tokens(line);
    if |tokens| == 0 then None else Some(tokens[0])
  }

  /** A setting that no line names keeps its default. */
  lemma {:induction false} AbsentDirectivesKeepDefaults(lines: seq<string>)
    requires Load(lines).Ok?
    ensures (forall k :: 0 <= k < |lines| ==> FirstToken(lines[k]) != Some("HighScore"))
            ==> Load(lines).value.highScore == Defaults.highScore
    ensures (forall k :: 0 <= k < |lines| ==> FirstToken(lines[k]) != Some("Gravity"))
            ==> Load(lines).value.gravityY == Defaults.gravityY
    ensures (forall k :: 0 <= k < |lines| ==> FirstToken(lines[k]) != Some("Friction"))
            ==> Load(lines).value.friction == Defaults.friction
  {
    if lines != [] {
      var init := lines[..|lines| - 1];
      assert Load(init).Ok?;
      AbsentDirectivesKeepDefaults(init);
      forall k | 0 <= k < |init| ensures init[k] == lines[k] { }
    }
  }
}
