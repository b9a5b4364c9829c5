/** The coloured console/file logger of src/utils/logger.ts: the colour
    table, argument formatting, message assembly, colour-code stripping,
    token-based date formatting, day-based log file names, and the logger
    object whose `id` is mutable state shared by all its level handlers.
    The clock is a parameter; console and file output are returned as a list
    of writes instead of being performed. */
module Logger {
  import opened Wrappers
  import opened Text

  const ESC: char := '\U{1B}'

  /** An SGR colour sequence `ESC [ n m`. */
  function Sgr(n: string): string {
    [ESC] + "[" + n + "m"
  }

  const Reset := Sgr("0")
  const Gray := Sgr("90")
  const Red := Sgr("31")
  const Green := Sgr("32")
  const Yellow := Sgr("33")
  const Blue := Sgr("34")
  const Magenta := Sgr("35")
  const Cyan := Sgr("36")
  const White := Sgr("37")

  datatype Theme = Theme(id: string, datetime: string, message: string, level: string)

  /** The keys of the level table, in declaration order. */
  const LevelKeys: seq<string> := ["default", "info", "warn", "error", "success", "debug"]

  /** The level table: one colour theme per key. */
  const Levels: map<string, Theme> := map[
    "default" := Theme(Blue, Green, White, White),
    "info" := Theme(Blue, White, Blue, Blue),
    "warn" := Theme(Blue, White, Yellow, Yellow),
    "error" := Theme(Blue, Red, Red, Red),
    "success" := Theme(Blue, White, Green, Green),
    "debug" := Theme(Blue, Green, White, Magenta)
  ]

  predicate NoEsc(s: string) {
    forall i :: 0 <= i < |s| ==> s[i] != ESC
  }

  /** A string that is exactly one sequence the stripper removes. */
  predicate IsColourCode(s: string) {
    (|s| == 4 || |s| == 5) && s[0] == ESC && s[1] == '[' && s[|s| - 1] == 'm'
    && forall i :: 2 <= i < |s| - 1 ==> IsDigit(s[i])
  }

  predicate IsColourTheme(t: Theme) {
    IsColourCode(t.id) && IsColourCode(t.datetime) && IsColourCode(t.message) && IsColourCode(t.level)
  }

  /** An SGR sequence with a one- or two-digit parameter is a colour code. */
  lemma SgrIsCode(n: string)
    requires 1 <= |n| <= 2 && AllDigits(n)
    ensures IsColourCode(Sgr(n))
  {
    var s := Sgr(n);
    assert s == [ESC, '['] + n + ['m'];
    forall i | 2 <= i < |s| - 1 ensures IsDigit(s[i]) {
      assert s[i] == n[i - 2];
    }
  }

  /** Every colour of the palette is a colour code. */
  lemma PaletteIsCodes()
    ensures IsColourCode(Reset) && IsColourCode(Gray) && IsColourCode(Red) && IsColourCode(Green)
    ensures IsColourCode(Yellow) && IsColourCode(Blue) && IsColourCode(Magenta) && IsColourCode(Cyan)
    ensures IsColourCode(White)
  {
    SgrIsCode("0"); SgrIsCode("90"); SgrIsCode("31"); SgrIsCode("32"); SgrIsCode("33");
    SgrIsCode("34"); SgrIsCode("35"); SgrIsCode("36"); SgrIsCode("37");
  }

  /** The level table lists exactly its keys, and every theme in it is made of
      colour codes. */
  lemma LevelTable()
    ensures forall k :: k in LevelKeys <==> k in Levels
    ensures forall i, j :: 0 <= i < j < |LevelKeys| ==> LevelKeys[i] != LevelKeys[j]
    ensures forall k :: k in Levels ==> IsColourTheme(Levels[k])
  {
    PaletteIsCodes();
    assert |LevelKeys[0]| == 7 && |LevelKeys[1]| == 4 && |LevelKeys[2]| == 4;
    assert |LevelKeys[3]| == 5 && |LevelKeys[4]| == 7 && |LevelKeys[5]| == 5;
    assert LevelKeys[0][0] != LevelKeys[4][0] && LevelKeys[1][0] != LevelKeys[2][0] && LevelKeys[3][0] != LevelKeys[5][0];
  }

  /** Each key of the level table is plain text naming a theme of colour
      codes. */
  lemma LevelEntry(key: string)
    requires key in Levels
    ensures NoEsc(key) && IsColourTheme(Levels[key])
  {
    LevelTable();
    KeysArePlain();
  }

  lemma KeysArePlain()
    ensures forall k :: k in LevelKeys ==> NoEsc(k)
  {
    assert NoEsc(LevelKeys[0]) && NoEsc(LevelKeys[1]) && NoEsc(LevelKeys[2]);
    assert NoEsc(LevelKeys[3]) && NoEsc(LevelKeys[4]) && NoEsc(LevelKeys[5]);
  }

  // ---------------------------------------------------------------------
  // stripAnsiCodes

  /** Length of the colour code `ESC [ d{1,2} m` at the start of `s`, or 0
      when none starts there. Two digits are tried before one, as the
      greedy quantifier does; the pattern's second alternative `ESC [ 0 m` is
      already an instance of the first. */
  function AnsiCodeLen(s: string): (n: nat)
    ensures n == 0 || n == 4 || n == 5
    ensures n > 0 ==> n <= |s| && IsColourCode(s[..n])
    ensures n > 0 ==> s[0] == ESC
  {
    if |s| >= 4 && s[0] == ESC && s[1] == '[' && IsDigit(s[2]) then
      if |s| >= 5 && IsDigit(s[3]) && s[4] == 'm' then 5
      else if s[3] == 'm' then 4
      else 0
    else 0
  }

  /** `stripAnsiCodes`: deletes every colour code, scanning left to right and
      resuming after each deletion. */
  function StripAnsi(s: string): (r: string)
    ensures |r| <= |s|
    decreases |s|
  {
    if s == [] then ""
    else
      var n := AnsiCodeLen(s);
      if n > 0 then StripAnsi(s[n..]) else [s[0]] + StripAnsi(s[1..])
  }

  /** Text without ESC is its own stripped form, also in front of other text. */
  lemma {:induction false} StripPlainPrefix(a: string, b: string)
    requires NoEsc(a)
    ensures StripAnsi(a + b) == a + StripAnsi(b)
    decreases |a|
  {
    if a != [] {
      var s := a + b;
      assert s[0] == a[0];
      assert s[1..] == a[1..] + b;
      StripPlainPrefix(a[1..], b);
      assert a == [a[0]] + a[1..];
    } else {
      assert a + b == b;
    }
  }

  /** A string without ESC comes back unchanged. */
  lemma StripWithoutEsc(s: string)
    requires NoEsc(s)
    ensures StripAnsi(s) == s
  {
    StripPlainPrefix(s, "");
    assert s + "" == s;
  }

  /** A leading colour code is deleted and the rest is stripped. */
  lemma StripCodePrefix(c: string, b: string)
    requires IsColourCode(c)
    ensures StripAnsi(c + b) == StripAnsi(b)
  {
    var s := c + b;
    assert s[..|c|] == c;
    if |c| == 4 {
      assert s[3] == 'm';
      assert AnsiCodeLen(s) == 4;
    } else {
      assert AnsiCodeLen(s) == 5;
    }
    assert s[|c|..] == b;
  }

  /** The reset code, like every colour the logger uses, is removed. */
  lemma ResetIsStripped(b: string)
    ensures StripAnsi(Reset + b) == StripAnsi(b)
  {
    StripCodePrefix(Reset, b);
  }

  // ---------------------------------------------------------------------
  // formatArgs and messageFactory

  /** `formatArgs` for string arguments: joined with single spaces. */
  function FormatArgs(args: seq<string>): string {
    Join(args, " ")
  }

  /** The timestamp text: ISO form with the first `T` turned into a space and
      the first `Z` dropped. */
  function Timestamp(iso: string): string {
    ReplaceFirst(ReplaceFirst(iso, "T", " "), "Z", "")
  }

  /** For an ISO instant `<date>T<time>Z`, the timestamp is `<date> <time>`. */
  lemma TimestampOfIso(date: string, time: string)
    requires forall i :: 0 <= i < |date| ==> date[i] != 'T' && date[i] != 'Z'
    requires forall i :: 0 <= i < |time| ==> time[i] != 'T' && time[i] != 'Z'
    ensures Timestamp(date + "T" + time + "Z") == date + " " + time
  {
    assert date + "T" + time + "Z" == date + ['T'] + (time + "Z");
    ReplaceFirstChar(date, 'T', time + "Z", " ");
    var head := date + " " + time;
    assert date + " " + (time + "Z") == head + ['Z'] + "";
    forall i | 0 <= i < |head| ensures head[i] != 'Z' {
      if i < |date| { assert head[i] == date[i]; }
      else if i > |date| { assert head[i] == time[i - |date| - 1]; }
    }
    ReplaceFirstChar(head, 'Z', "", "");
    assert head + "" + "" == head;
  }

  /** One ` - `-separated segment: `<reset> - <colour><text><reset>`. The
      pieces of a line are grouped from the right throughout. */
  function Segment(colour: string, text: string): string {
    Reset + (" - " + (colour + (text + Reset)))
  }

  /** A segment that is present only when its value is truthy. */
  function OptSegment(present: bool, colour: string, text: string): string {
    if present then Segment(colour, text) else ""
  }

  /** The timestamp segment: `<reset><colour>[<timestamp>]<reset>`. */
  function Head(colour: string, timestamp: string): string {
    Reset + (colour + (("[" + timestamp + "]") + Reset))
  }

  /** `messageFactory`, with the timestamp text passed in; `""` stands for a
      falsy `id` or `level`. */
  function MessageFactory(id: string, level: string, args: seq<string>, colors: Theme, timestamp: string): string {
    Head(colors.datetime, timestamp)
    + (OptSegment(id != "", colors.id, "[id:" + id + "]")
    + (OptSegment(level != "", colors.level, "[" + level + "]")
    + Segment(colors.message, FormatArgs(args))))
  }

  /** The line as it reads once its colours are removed. */
  function PlainMessage(id: string, level: string, args: seq<string>, timestamp: string): string {
    ("[" + timestamp + "]")
    + (PlainSegment(id != "", "[id:" + id + "]")
    + (PlainSegment(level != "", "[" + level + "]")
    + (" - " + FormatArgs(args))))
  }

  /** ` - <text>` when present, nothing otherwise. */
  function PlainSegment(present: bool, text: string): string {
    if present then " - " + text else ""
  }

  /** Every line starts with the timestamp segment and ends with the
      formatted arguments followed by the reset code. */
  lemma MessageFrame(id: string, level: string, args: seq<string>, colors: Theme, timestamp: string)
    ensures var m := MessageFactory(id, level, args, colors, timestamp);
      StartsWith(m, Reset + colors.datetime + "[" + timestamp + "]" + Reset)
      && EndsWith(m, FormatArgs(args) + Reset)
  {
    var head := Head(colors.datetime, timestamp);
    var idp := OptSegment(id != "", colors.id, "[id:" + id + "]");
    var lvp := OptSegment(level != "", colors.level, "[" + level + "]");
    var text := FormatArgs(args);
    PrefixOfConcat(head, idp + (lvp + Segment(colors.message, text)));
    assert head == Reset + colors.datetime + "[" + timestamp + "]" + Reset;
    SuffixOfConcat(colors.message, text + Reset);
    SuffixExtend(" - ", colors.message + (text + Reset), text + Reset);
    SuffixExtend(Reset, " - " + (colors.message + (text + Reset)), text + Reset);
    SuffixExtend(lvp, Segment(colors.message, text), text + Reset);
    SuffixExtend(idp, lvp + Segment(colors.message, text), text + Reset);
    SuffixExtend(head, idp + (lvp + Segment(colors.message, text)), text + Reset);
  }

  /** `(a + b) + c` is `a + (b + c)`. */
  lemma Regroup(a: string, b: string, c: string)
    ensures (a + b) + c == a + (b + c)
  {
  }

  /** Stripping the timestamp head leaves the bracketed timestamp. */
  lemma StripHead(colour: string, timestamp: string, rest: string)
    requires IsColourCode(colour) && NoEsc("[" + timestamp + "]")
    ensures StripAnsi(Head(colour, timestamp) + rest) == ("[" + timestamp + "]") + StripAnsi(rest)
  {
    var stamp := "[" + timestamp + "]";
    var s3 := Reset + rest;
    var s2 := stamp + s3;
    var s1 := colour + s2;
    Regroup(stamp, Reset, rest);
    Regroup(colour, stamp + Reset, rest);
    Regroup(Reset, colour + (stamp + Reset), rest);
    assert StripAnsi(Reset + s1) == StripAnsi(s1) by { ResetIsCode(); StripCodePrefix(Reset, s1); }
    assert StripAnsi(s1) == StripAnsi(s2) by { StripCodePrefix(colour, s2); }
    assert StripAnsi(s2) == stamp + StripAnsi(s3) by { StripPlainPrefix(stamp, s3); }
    assert StripAnsi(s3) == StripAnsi(rest) by { ResetIsCode(); StripCodePrefix(Reset, rest); }
  }

  lemma ResetIsCode()
    ensures IsColourCode(Reset)
  {
  }

  lemma DashIsPlain()
    ensures NoEsc(" - ")
  {
  }

  /** Stripping a segment leaves ` - ` and its text. */
  lemma StripSegment(colour: string, text: string, rest: string)
    requires IsColourCode(colour) && NoEsc(text)
    ensures StripAnsi(Segment(colour, text) + rest) == " - " + text + StripAnsi(rest)
  {
    var s4 := Reset + rest;
    var s3 := text + s4;
    var s2 := colour + s3;
    var s1 := " - " + s2;
    Regroup(text, Reset, rest);
    Regroup(colour, text + Reset, rest);
    Regroup(" - ", colour + (text + Reset), rest);
    Regroup(Reset, " - " + (colour + (text + Reset)), rest);
    var r := StripAnsi(rest);
    assert StripAnsi(Reset + s1) == StripAnsi(s1) by { ResetIsCode(); StripCodePrefix(Reset, s1); }
    assert StripAnsi(s1) == " - " + StripAnsi(s2) by { DashIsPlain(); StripPlainPrefix(" - ", s2); }
    assert StripAnsi(s2) == StripAnsi(s3) by { StripCodePrefix(colour, s3); }
    assert StripAnsi(s3) == text + StripAnsi(s4) by { StripPlainPrefix(text, s4); }
    assert StripAnsi(s4) == r by { ResetIsCode(); StripCodePrefix(Reset, rest); }
  }

  lemma {:induction false} JoinNoEsc(parts: seq<string>, sep: string)
    requires NoEsc(sep)
    requires forall i :: 0 <= i < |parts| ==> NoEsc(parts[i])
    ensures NoEsc(Join(parts, sep))
  {
    if |parts| > 1 {
      JoinNoEsc(parts[1..], sep);
    }
  }

  /** What reaches the log file: for ESC-free timestamp, id, level and
      arguments and a theme made of colour codes, stripping the coloured line
      leaves `[timestamp]`, then ` - [id:<id>]` exactly when `id` is
      non-empty, then ` - [<level>]` exactly when `level` is non-empty, then
      ` - ` and the space-joined arguments. */
  lemma StripMessage(id: string, level: string, args: seq<string>, colors: Theme, timestamp: string)
    requires NoEsc(id) && NoEsc(level) && NoEsc(timestamp)
    requires forall i :: 0 <= i < |args| ==> NoEsc(args[i])
    requires IsColourTheme(colors)
    ensures StripAnsi(MessageFactory(id, level, args, colors, timestamp))
            == PlainMessage(id, level, args, timestamp)
  {
    JoinNoEsc(args, " ");
    NoEscJoin3("[", timestamp, "]");
    NoEscJoin3("[id:", id, "]");
    NoEscJoin3("[", level, "]");
    StripTail(colors, id != "", "[id:" + id + "]", level != "", "[" + level + "]", FormatArgs(args));
    StripHead(colors.datetime, timestamp,
      OptSegment(id != "", colors.id, "[id:" + id + "]")
      + (OptSegment(level != "", colors.level, "[" + level + "]")
      + Segment(colors.message, FormatArgs(args))));
  }

  lemma NoEscJoin3(a: string, b: string, c: string)
    requires NoEsc(a) && NoEsc(b) && NoEsc(c)
    ensures NoEsc(a + b + c)
  {
    var s := a + b + c;
    forall i | 0 <= i < |s| ensures s[i] != ESC {
      if i < |a| { assert s[i] == a[i]; }
      else if i < |a| + |b| { assert s[i] == b[i - |a|]; }
      else { assert s[i] == c[i - |a| - |b|]; }
    }
  }

  /** Stripping the optional id and level segments and the arguments
      segment. */
  lemma StripTail(colors: Theme, hasId: bool, idText: string, hasLevel: bool, levelText: string, text: string)
    requires IsColourTheme(colors) && NoEsc(idText) && NoEsc(levelText) && NoEsc(text)
    ensures StripAnsi(OptSegment(hasId, colors.id, idText)
              + (OptSegment(hasLevel, colors.level, levelText) + Segment(colors.message, text)))
            == PlainSegment(hasId, idText) + (PlainSegment(hasLevel, levelText) + (" - " + text))
  {
    var argsSeg := Segment(colors.message, text);
    var lvp := OptSegment(hasLevel, colors.level, levelText);
    var idp := OptSegment(hasId, colors.id, idText);
    assert StripAnsi(argsSeg) == " - " + text by {
      StripSegment(colors.message, text, "");
      assert argsSeg + "" == argsSeg;
    }
    assert StripAnsi(lvp + argsSeg) == PlainSegment(hasLevel, levelText) + (" - " + text) by {
      if hasLevel {
        StripSegment(colors.level, levelText, argsSeg);
      } else {
        assert lvp + argsSeg == argsSeg;
      }
    }
    if hasId {
      StripSegment(colors.id, idText, lvp + argsSeg);
    } else {
      assert idp + (lvp + argsSeg) == lvp + argsSeg;
    }
  }

  // ---------------------------------------------------------------------
  // formatDate

  /** The calendar fields a `Date` yields in local time; `month` is already
      `getMonth() + 1`. */
  datatype DateFields = DateFields(year: nat, month: nat, day: nat, hours: nat, minutes: nat, seconds: nat)

  /** A field written with at least two digits. */
  function Padded(n: nat): (r: string)
    ensures AllDigits(r) && |r| >= 2
  {
    PadStart2(NatToString(n))
  }

  /** The tokens of the replacement table, in its declaration order. */
  const Tokens: seq<string> := ["YYYY", "YY", "MM", "DD", "HH", "mm", "ss", "M", "D", "H", "m", "s"]

  /** What each token of `Tokens` is replaced by, position for position. */
  function TokenValues(d: DateFields): (r: seq<string>)
    ensures |r| == 12 && forall k :: 0 <= k < |r| ==> AllDigits(r[k])
  {
    var year := NatToString(d.year);
    var yy := SliceLast2(year);
    var mo, da, ho, mi, se := Padded(d.month), Padded(d.day), Padded(d.hours), Padded(d.minutes), Padded(d.seconds);
    var m1, d1, h1, i1, s1 := NatToString(d.month), NatToString(d.day), NatToString(d.hours),
                              NatToString(d.minutes), NatToString(d.seconds);
    [year, yy, mo, da, ho, mi, se, m1, d1, h1, i1, s1]
  }

  /** The replacement table: the twelve tokens in declaration order, each
      beginning with a token letter and paired with its own value, which is
      decimal digits. */
  function Replacements(d: DateFields): (r: seq<(string, string)>)
    ensures |r| == 12 && ValidTable(r)
    ensures forall k :: 0 <= k < |r| ==> r[k].0 == Tokens[k] && r[k].1 == TokenValues(d)[k]
    ensures forall k :: 0 <= k < |r| ==> IsTokenLetter(r[k].0[0]) && AllDigits(r[k].1)
  {
    var values := TokenValues(d);
    seq(12, k requires 0 <= k < 12 => (Tokens[k], values[k]))
  }

  predicate ValidTable(reps: seq<(string, string)>) {
    forall k :: 0 <= k < |reps| ==> |reps[k].0| > 0
  }

  /** Applies the table's replacements one after another. */
  function ApplyAll(s: string, reps: seq<(string, string)>): string
    requires ValidTable(reps)
    decreases |reps|
  {
    if reps == [] then s else ApplyAll(ReplaceAll(s, reps[0].0, reps[0].1), reps[1..])
  }

  /** `formatDate`: replaces every token of the table in turn, each globally. */
  method FormatDate(d: DateFields, format: string) returns (formatted: string)
    ensures formatted == ApplyAll(format, Replacements(d))
  {
    var reps := Replacements(d);
    formatted := format;
    var i := 0;
    while i < |reps|
      invariant 0 <= i <= |reps|
      invariant ApplyAll(formatted, reps[i..]) == ApplyAll(format, reps)
    {
      assert reps[i..][1..] == reps[i + 1..];
      formatted := ReplaceAll(formatted, reps[i].0, reps[i].1);
      i := i + 1;
    }
  }

  /** The letters the tokens begin with. */
  predicate IsTokenLetter(c: char) {
    c == 'Y' || c == 'M' || c == 'D' || c == 'H' || c == 'm' || c == 's'
  }

  /** Replacements whose token cannot start anywhere in `s` leave it alone. */
  lemma {:induction false} ApplyAllAbsent(s: string, reps: seq<(string, string)>)
    requires ValidTable(reps)
    requires forall k, i :: 0 <= k < |reps| && 0 <= i < |s| ==> s[i] != reps[k].0[0]
    ensures ApplyAll(s, reps) == s
  {
    if reps != [] {
      ReplaceAllAbsent(s, reps[0].0, reps[0].1);
      ApplyAllAbsent(s, reps[1..]);
    }
  }

  /** A format without any token letter comes back unchanged. */
  lemma FormatWithoutTokens(d: DateFields, format: string)
    requires forall i :: 0 <= i < |format| ==> !IsTokenLetter(format[i])
    ensures ApplyAll(format, Replacements(d)) == format
  {
    ApplyAllAbsent(format, Replacements(d));
  }

  /** Digits are never token letters, so a fully replaced string is stable. */
  lemma DigitsStable(s: string, reps: seq<(string, string)>)
    requires AllDigits(s) && ValidTable(reps)
    requires forall k :: 0 <= k < |reps| ==> IsTokenLetter(reps[k].0[0])
    ensures ApplyAll(s, reps) == s
  {
    ApplyAllAbsent(s, reps);
  }

  /** A two-letter token's value for a field below 100 is exactly two digits
      denoting the field. */
  lemma PaddedValue(n: nat)
    requires n < 100
    ensures |Padded(n)| == 2 && AllDigits(Padded(n)) && DigitsValue(Padded(n)) == n
  {
    var r := NatToString(n);
    NatToStringRoundTrip(n);
    if n < 10 {
      assert Padded(n) == "0" + r;
      assert ("0" + r)[..1] == "0";
    } else {
      assert n / 10 < 10;
      assert |r| == 2;
    }
  }

  /** The two tokens of one field: `plain` is the field's digits with no
      leading zero, `padded` the same with one `0` in front below 10. */
  predicate FieldTokens(padded: string, plain: string, n: nat) {
    && AllDigits(plain) && DigitsValue(plain) == n && (n >= 10 ==> plain[0] != '0')
    && padded == (if n < 10 then "0" + plain else plain)
    && AllDigits(padded) && DigitsValue(padded) == n
  }

  /** `padStart(2, '0')` and `String` of one field. */
  lemma FieldTokensOf(n: nat)
    ensures FieldTokens(Padded(n), NatToString(n), n)
  {
    NatToStringRoundTrip(n);
    if n < 100 {
      PaddedValue(n);
    }
  }

  /** What each value of the table denotes: `YYYY` the year, `YY` the year
      modulo 100 in two digits (from year 10 on), and for each of month, day,
      hours, minutes and seconds the two-letter token the padded field and
      the one-letter token the plain one. */
  lemma TokenValuesDenote(d: DateFields)
    ensures var v := TokenValues(d);
      && DigitsValue(v[0]) == d.year
      && (d.year >= 10 ==> |v[1]| == 2 && DigitsValue(v[1]) == d.year % 100)
      && FieldTokens(v[2], v[7], d.month) && FieldTokens(v[3], v[8], d.day)
      && FieldTokens(v[4], v[9], d.hours) && FieldTokens(v[5], v[10], d.minutes)
      && FieldTokens(v[6], v[11], d.seconds)
  {
    var v := TokenValues(d);
    assert DigitsValue(v[0]) == d.year by {
      NatToStringRoundTrip(d.year);
    }
    if d.year >= 10 {
      YearSuffix(d.year);
    }
    assert FieldTokens(v[2], v[7], d.month) by { FieldTokensOf(d.month); }
    assert FieldTokens(v[3], v[8], d.day) by { FieldTokensOf(d.day); }
    assert FieldTokens(v[4], v[9], d.hours) by { FieldTokensOf(d.hours); }
    assert FieldTokens(v[5], v[10], d.minutes) by { FieldTokensOf(d.minutes); }
    assert FieldTokens(v[6], v[11], d.seconds) by { FieldTokensOf(d.seconds); }
  }

  /** `YY` is the year modulo 100, written with two digits, for years from
      10 on. */
  lemma YearSuffix(y: nat)
    requires y >= 10
    ensures |SliceLast2(NatToString(y))| == 2
    ensures DigitsValue(SliceLast2(NatToString(y))) == y % 100
  {
    var r := NatToString(y);
    var q := NatToString(y / 10);
    assert r == q + [DigitChar(y % 10)];
    var last := q[|q| - 1];
    assert last as int - '0' as int == (y / 10) % 10 by {
      if y / 10 >= 10 {
        assert q == NatToString(y / 10 / 10) + [DigitChar((y / 10) % 10)];
      }
    }
    var two := SliceLast2(r);
    assert two == [last, DigitChar(y % 10)];
    assert two[..1] == [last];
    assert DigitsValue(two) == DigitsValue([last]) * 10 + y % 10;
    assert DigitsValue([last]) == (y / 10) % 10 by {
      assert [last][..0] == [];
    }
    LastTwoDigits(y);
  }

  lemma LastTwoDigits(y: nat)
    ensures ((y / 10) % 10) * 10 + y % 10 == y % 100
  {
    var a, b := y / 100, y % 100;
    assert y / 10 == 10 * a + b / 10;
    assert (y / 10) % 10 == b / 10;
  }

  /** The default format `YYYYMMDD` gives the year, then the month and day
      padded to two digits. */
  lemma DefaultFormat(d: DateFields)
    ensures ApplyAll("YYYYMMDD", Replacements(d))
            == NatToString(d.year) + Padded(d.month) + Padded(d.day)
  {
    var reps := Replacements(d);
    var v := TokenValues(d);
    var y, mo, da := v[0], v[2], v[3];
    assert reps[0] == ("YYYY", y) && reps[1].0 == "YY" && reps[2] == ("MM", mo) && reps[3] == ("DD", da);
    var s1, s4 := y + "MMDD", y + mo + da;
    assert ApplyAll("YYYYMMDD", reps) == ApplyAll(s1, reps[1..]) by {
      YearStep(y);
    }
    assert ApplyAll(s1, reps[1..]) == ApplyAll(s1, reps[2..]) by {
      ShortYearStep(y, reps[1].1);
      assert reps[1..][1..] == reps[2..];
    }
    assert ApplyAll(s1, reps[2..]) == ApplyAll(y + mo + "DD", reps[3..]) by {
      MonthStep(y, mo);
      assert reps[2..][1..] == reps[3..];
    }
    assert ApplyAll(y + mo + "DD", reps[3..]) == ApplyAll(s4, reps[4..]) by {
      DayStep(y + mo, da);
      assert reps[3..][1..] == reps[4..];
    }
    assert AllDigits(s4) by { DigitsConcat(y, mo); DigitsConcat(y + mo, da); }
    DigitsStable(s4, reps[4..]);
  }

  lemma DigitsConcat(a: string, b: string)
    requires AllDigits(a) && AllDigits(b)
    ensures AllDigits(a + b)
  {
    forall i | 0 <= i < |a + b| ensures IsDigit((a + b)[i]) {
      if i >= |a| { assert (a + b)[i] == b[i - |a|]; }
    }
  }

  lemma YearStep(y: string)
    requires AllDigits(y)
    ensures ReplaceAll("YYYYMMDD", "YYYY", y) == y + "MMDD"
  {
    assert "YYYYMMDD" == "YYYY" + "MMDD";
    ReplaceAllLeading("YYYY", "MMDD", y);
    ReplaceAllAbsent("MMDD", "YYYY", y);
  }

  lemma ShortYearStep(y: string, yy: string)
    requires AllDigits(y)
    ensures ReplaceAll(y + "MMDD", "YY", yy) == y + "MMDD"
  {
    var s := y + "MMDD";
    forall i | 0 <= i < |s| ensures s[i] != 'Y' {
      if i < |y| { assert s[i] == y[i]; } else { assert s[i] == "MMDD"[i - |y|]; }
    }
    ReplaceAllAbsent(s, "YY", yy);
  }

  lemma MonthStep(y: string, mo: string)
    requires AllDigits(y) && AllDigits(mo)
    ensures ReplaceAll(y + "MMDD", "MM", mo) == y + mo + "DD"
  {
    assert "MMDD" == "MM" + "DD";
    ReplaceAllPrefixFree(y, "MMDD", "MM", mo);
    ReplaceAllLeading("MM", "DD", mo);
    ReplaceAllAbsent("DD", "MM", mo);
  }

  lemma DayStep(p: string, da: string)
    requires AllDigits(p)
    ensures ReplaceAll(p + "DD", "DD", da) == p + da
  {
    ReplaceAllPrefixFree(p, "DD", "DD", da);
    assert "DD" + "" == "DD";
    ReplaceAllLeading("DD", "", da);
    assert da + "" == da;
  }

  // ---------------------------------------------------------------------
  // getDayBasedFilePath

  /** Trailing separators are ignored, except that a path of separators keeps
      one. */
  function DropTrailingSlashes(p: string): (q: string)
    ensures |q| <= |p|
    ensures |q| > 1 ==> q[|q| - 1] != '/'
  {
    if |p| > 1 && p[|p| - 1] == '/' then DropTrailingSlashes(p[..|p| - 1]) else p
  }

  /** Index of the last `/`, if any. */
  function LastSlash(s: string): (r: Option<nat>)
    ensures r.Some? ==> r.value < |s| && s[r.value] == '/'
                        && forall j :: r.value < j < |s| ==> s[j] != '/'
    ensures r.None? ==> forall j :: 0 <= j < |s| ==> s[j] != '/'
  {
    if s == [] then None
    else if s[|s| - 1] == '/' then Some(|s| - 1)
    else LastSlash(s[..|s| - 1])
  }

  /** `path.dirname` on `/`-separated paths. */
  function Dirname(p: string): (r: string)
    ensures r != ""
  {
    var q := DropTrailingSlashes(p);
    match LastSlash(q)
    case None => "."
    case Some(k) => if k == 0 then "/" else q[..k]
  }

  /** `path.basename` on `/`-separated paths. */
  function Basename(p: string): (r: string)
    ensures forall i :: 0 <= i < |r| ==> r[i] != '/'
  {
    var q := DropTrailingSlashes(p);
    match LastSlash(q)
    case None => q
    case Some(k) => q[k + 1..]
  }

  /** `path.join(dir, name)` for the directories `Dirname` yields. */
  function JoinPath(dir: string, name: string): string {
    if dir == "." then name else if dir == "/" then "/" + name else dir + "/" + name
  }

  /** `getDayBasedFilePath`, with the current date passed in. */
  function DayBasedFilePath(originalPath: string, dateFormat: string, now: DateFields): string {
    var datePrefix := ApplyAll(dateFormat, Replacements(now)) + "-";
    JoinPath(Dirname(originalPath), datePrefix + Basename(originalPath))
  }

  predicate NoSlash(s: string) {
    forall i :: 0 <= i < |s| ==> s[i] != '/'
  }

  lemma NoSlashConcat(a: string, b: string)
    requires NoSlash(a) && NoSlash(b)
    ensures NoSlash(a + b)
  {
    forall i | 0 <= i < |a + b| ensures (a + b)[i] != '/' {
      if i >= |a| { assert (a + b)[i] == b[i - |a|]; }
    }
  }

  /** Joining a file name onto a directory and splitting again gives both
      back. */
  lemma JoinSplit(p: string, name: string)
    requires name != [] && NoSlash(name)
    ensures Dirname(JoinPath(Dirname(p), name)) == Dirname(p)
    ensures Basename(JoinPath(Dirname(p), name)) == name
  {
    var dir := Dirname(p);
    var j := JoinPath(dir, name);
    assert DropTrailingSlashes(j) == j by {
      assert j[|j| - 1] == name[|name| - 1];
    }
    if dir == "." {
      assert LastSlash(j) == None;
    } else if dir == "/" {
      assert j[0] == '/';
      assert LastSlash(j) == Some(0);
      assert j[1..] == name;
    } else {
      assert j[|dir|] == '/';
      assert forall i :: |dir| < i < |j| ==> j[i] == name[i - |dir| - 1];
      assert LastSlash(j) == Some(|dir|);
      assert j[..|dir|] == dir;
      assert j[|dir| + 1..] == name;
    }
  }

  /** The day-based path keeps the directory and puts the formatted date and
      a dash in front of the base name. */
  lemma DayBasedPathShape(originalPath: string, dateFormat: string, now: DateFields)
    requires NoSlash(dateFormat)
    ensures var r := DayBasedFilePath(originalPath, dateFormat, now);
      Dirname(r) == Dirname(originalPath)
      && Basename(r) == ApplyAll(dateFormat, Replacements(now)) + "-" + Basename(originalPath)
  {
    var reps := Replacements(now);
    var prefix := ApplyAll(dateFormat, reps);
    assert NoSlash(prefix) by {
      forall k | 0 <= k < |reps| ensures NoSlash(reps[k].1) {
        assert AllDigits(reps[k].1);
      }
      NoSlashFormat(dateFormat, reps);
    }
    var base := Basename(originalPath);
    NoSlashConcat(prefix, "-");
    NoSlashConcat(prefix + "-", base);
    JoinSplit(originalPath, prefix + "-" + base);
  }

  /** Formatting with slash-free values never introduces `/`. */
  lemma {:induction false} NoSlashFormat(s: string, reps: seq<(string, string)>)
    requires ValidTable(reps) && NoSlash(s)
    requires forall k :: 0 <= k < |reps| ==> NoSlash(reps[k].1)
    ensures NoSlash(ApplyAll(s, reps))
    decreases |reps|
  {
    if reps != [] {
      NoSlashReplace(s, reps[0].0, reps[0].1);
      NoSlashFormat(ReplaceAll(s, reps[0].0, reps[0].1), reps[1..]);
    }
  }

  lemma {:induction false} NoSlashReplace(s: string, t: string, v: string)
    requires |t| > 0 && NoSlash(s) && NoSlash(v)
    ensures NoSlash(ReplaceAll(s, t, v))
    decreases |s|
  {
    if |s| >= |t| {
      if s[..|t|] == t {
        NoSlashReplace(s[|t|..], t, v);
        NoSlashConcat(v, ReplaceAll(s[|t|..], t, v));
      } else {
        NoSlashReplace(s[1..], t, v);
        NoSlashConcat([s[0]], ReplaceAll(s[1..], t, v));
      }
    }
  }

  // ---------------------------------------------------------------------
  // logFactory

  /** The options of `logFactory`; absent options take their defaults. */
  datatype LogOptions = LogOptions(
    id: Option<string>,
    path: Option<string>,
    colors: Option<Theme>,
    toStdout: Option<bool>,
    dayBasedFileLog: Option<bool>,
    dateFormat: Option<string>)

  /** One handler: its theme and its level text (`""` for the base logger). */
  datatype Handler = Handler(theme: Theme, level: string)

  /** The clock as one handler call reads it: the ISO instant used for the
      timestamp and the local calendar fields used for day-based paths. */
  datatype Clock = Clock(iso: string, local: DateFields)

  /** An output the handler performs. */
  datatype Write = Stdout(line: string) | FileAppend(path: string, text: string)

  /** The level handlers `logFactory` attaches: every key but `default`. */
  function HandlerKeys(): set<string> {
    set k | k in LevelKeys && k != "default"
  }

  /** The logger object returned by `logFactory`. `currentId` is the state
      shared by every handler; `""` stands for an unset id, which is just as
      falsy. */
  class Log {
    var currentId: string
    var handlers: map<string, Handler>
    const base: Handler
    const logPath: string
    const toStdout: bool
    const dayBasedFileLog: bool
    const dateFormat: string

    ghost predicate Valid()
      reads this
    {
      && handlers.Keys == HandlerKeys()
      && forall k :: k in handlers ==> k in Levels && handlers[k] == Handler(Levels[k], k)
    }

    /** `logFactory`: resolves the defaults and attaches a handler for each
        key of the level table other than `default`. */
    constructor (options: LogOptions)
      ensures Valid()
      ensures currentId == options.id.GetOr("")
      ensures base == Handler(if options.colors.Some? then options.colors.value else Levels["default"], "")
      ensures logPath == options.path.GetOr("")
      ensures toStdout == (options.toStdout != Some(false))
      ensures dayBasedFileLog == (options.dayBasedFileLog == Some(true))
      ensures dateFormat == options.dateFormat.GetOr("YYYYMMDD")
    {
      currentId := options.id.GetOr("");
      base := Handler(if options.colors.Some? then options.colors.value else Levels["default"], "");
      logPath := options.path.GetOr("");
      toStdout := options.toStdout != Some(false);
      dayBasedFileLog := options.dayBasedFileLog == Some(true);
      dateFormat := options.dateFormat.GetOr("YYYYMMDD");
      var attached: map<string, Handler> := map[];
      var i := 0;
      while i < |LevelKeys|
        invariant 0 <= i <= |LevelKeys|
        invariant attached.Keys == set k | k in LevelKeys[..i] && k != "default"
        invariant forall k :: k in attached ==> k in Levels && attached[k] == Handler(Levels[k], k)
      {
        var key := LevelKeys[i];
        if key != "default" {
          attached := attached[key := Handler(Levels[key], key)];
        }
        assert LevelKeys[..i + 1] == LevelKeys[..i] + [key];
        i := i + 1;
      }
      assert LevelKeys[..i] == LevelKeys;
      handlers := attached;
    }

    /** `logger.id(newId)`: changes the id every handler uses from now on and
        returns the same logger. */
    method Id(newId: string) returns (self: Log)
      requires Valid()
      modifies this`currentId
      ensures Valid()
      ensures self == this && currentId == newId
    {
      currentId := newId;
      self := this;
    }

    /** The writes one call of handler `h` performs, given the clock. */
    function Emit(h: Handler, args: seq<string>, now: Clock): (w: seq<Write>)
      reads this
      ensures |w| == (if toStdout then 1 else 0) + (if logPath != "" then 1 else 0)
      ensures toStdout ==> w[0] == Stdout(MessageFactory(currentId, h.level, args, h.theme, Timestamp(now.iso)))
      ensures logPath != "" ==> w[|w| - 1].FileAppend?
      ensures logPath != "" ==> w[|w| - 1].path
                                == if dayBasedFileLog then DayBasedFilePath(logPath, dateFormat, now.local) else logPath
      ensures logPath != "" ==> w[|w| - 1].text
                                == StripAnsi(MessageFactory(currentId, h.level, args, h.theme, Timestamp(now.iso))) + "\n"
    {
      var message := MessageFactory(currentId, h.level, args, h.theme, Timestamp(now.iso));
      var out := if toStdout then [Stdout(message)] else [];
      if logPath != "" then
        var filePath := if dayBasedFileLog then DayBasedFilePath(logPath, dateFormat, now.local) else logPath;
        out + [FileAppend(filePath, StripAnsi(message) + "\n")]
      else out
    }

    /** Calling the logger itself: the base theme and no level segment. */
    function Call(args: seq<string>, now: Clock): seq<Write>
      reads this
    {
      Emit(base, args, now)
    }

    /** Calling `logger.<key>`, for a key of the level table other than
        `default`. */
    function CallLevel(key: string, args: seq<string>, now: Clock): seq<Write>
      reads this
      requires Valid() && key in HandlerKeys()
    {
      Emit(handlers[key], args, now)
    }

    /** Each level handler writes its own coloured line, and its file line is
        the plain text with the level name as the level segment. */
    lemma LevelFileLine(key: string, args: seq<string>, now: Clock)
      requires Valid() && key in HandlerKeys() && logPath != ""
      requires NoEsc(currentId) && NoEsc(Timestamp(now.iso))
      requires forall i :: 0 <= i < |args| ==> NoEsc(args[i])
      ensures var w := CallLevel(key, args, now);
        w[|w| - 1].text == PlainMessage(currentId, key, args, Timestamp(now.iso)) + "\n"
    {
      var h := handlers[key];
      assert h == Handler(Levels[key], key);
      LevelEntry(key);
      StripMessage(currentId, key, args, h.theme, Timestamp(now.iso));
    }
  }

  /** After `logger.id(x)` every handler's line carries `[id:x]`. */
  method IdReachesHandlers(l: Log, newId: string, key: string, args: seq<string>, now: Clock)
    returns (w: seq<Write>)
    requires l.Valid() && key in HandlerKeys() && l.toStdout
    modifies l
    ensures l.Valid() && l.currentId == newId
    ensures w == l.CallLevel(key, args, now)
    ensures w[0] == Stdout(MessageFactory(newId, key, args, Levels[key], Timestamp(now.iso)))
  {
    var same := l.Id(newId);
    w := same.CallLevel(key, args, now);
  }
}
