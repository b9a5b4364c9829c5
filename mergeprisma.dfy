/** scripts/merge-prisma.ts: rebuilds `schema.prisma` from its own header and
    the files of the `models` directory. The header is the old schema with
    every `model`, `enum` and `type` block deleted; each `.prisma` file of
    the listing is then appended under a banner naming it. The schema text
    and the directory listing with each file's content are inputs, the new
    schema text is the output. */
module MergePrisma {
  import opened Wrappers
  import opened Text

  // ---------------------------------------------------------------------
  // The header: `/(model|enum|type)\s+\w+\s+{[^}]*}/g` replaced by ''

  /** Length of the keyword the pattern's alternation matches at the start of
      `s`, or 0. The three keywords begin with different letters, so at most
      one applies. */
  function KeywordLen(s: string): (n: nat)
    ensures n == 0 || n == 4 || n == 5
    ensures n > 0 ==> n <= |s|
  {
    if StartsWith(s, "model") then 5
    else if StartsWith(s, "enum") || StartsWith(s, "type") then 4
    else 0
  }

  /** The parts of the pattern after the keyword, in order: `\s+`, `\w+`,
      `\s+`, `{`, and `[^}]*}`. */
  datatype Part = Space1 | Name | Space2 | Open | Body

  function Rank(p: Part): nat {
    match p
    case Space1 => 4
    case Name => 3
    case Space2 => 2
    case Open => 1
    case Body => 0
  }

  /** The part that comes after `p`. */
  function Next(p: Part): Part {
    match p
    case Space1 => Name
    case Name => Space2
    case Space2 => Open
    case Open => Body
    case Body => Body
  }

  /** The character class a repeated part (`\s+` or `\w+`) is made of. */
  predicate InClass(p: Part, c: char) {
    match p
    case Space1 => IsJsSpace(c)
    case Name => IsWordChar(c)
    case Space2 => IsJsSpace(c)
    case Open => false
    case Body => false
  }

  /** A match length `k` characters further on. */
  function Shift(r: Option<nat>, k: nat): Option<nat> {
    match r
    case None => None
    case Some(n) => Some(n + k)
  }

  /** Length of the text at the start of `s` that matches the pattern from
      part `p` on, or `None`. `seen` says whether the repeated part `p` has
      already taken a character. `\s`, `\w` and `{` share no character, so
      every run is taken whole and the body ends at the first `}`: the
      pattern has one way to succeed, and this left-to-right scan finds it. */
  function Match(s: string, p: Part, seen: bool): (r: Option<nat>)
    ensures r.Some? ==> 0 < r.value <= |s|
    decreases |s|, Rank(p)
  {
    match p
    case Open =>
      if s != [] && s[0] == '{' then Shift(Match(s[1..], Body, false), 1) else None
    case Body =>
      if s == [] then None
      else if s[0] == '}' then Some(1)
      else Shift(Match(s[1..], Body, false), 1)
    case _ =>
      if s != [] && InClass(p, s[0]) then Shift(Match(s[1..], p, true), 1)
      else if seen then Match(s, Next(p), false)
      else None
  }

  /** Every match of the rest of the pattern ends with the body's `}`. */
  lemma {:induction false} MatchEndsAtBrace(s: string, p: Part, seen: bool)
    ensures Match(s, p, seen).Some? ==> s[Match(s, p, seen).value - 1] == '}'
    decreases |s|, Rank(p)
  {
    match p
    case Open =>
      if s != [] && s[0] == '{' {
        MatchEndsAtBrace(s[1..], Body, false);
      }
    case Body =>
      if s != [] && s[0] != '}' {
        MatchEndsAtBrace(s[1..], Body, false);
      }
    case _ =>
      if s != [] && InClass(p, s[0]) {
        MatchEndsAtBrace(s[1..], p, true);
      } else if seen {
        MatchEndsAtBrace(s, Next(p), false);
      }
  }

  /** Length of the block the pattern matches at the start of `s`, or 0. */
  function BlockLen(s: string): (n: nat)
    ensures n <= |s|
    ensures n > 0 ==> s[n - 1] == '}' && KeywordLen(s) > 0
  {
    var k := KeywordLen(s);
    if k == 0 then 0
    else
      MatchEndsAtBrace(s[k..], Space1, false);
      match Match(s[k..], Space1, false)
      case None => 0
      case Some(n) => k + n
  }

  /** A global replacement by the empty string: scanning left to right, each
      match `len` reports is deleted and the scan resumes right after it;
      where `len` reports none, one character is kept. */
  function DeleteMatches(s: string, len: string -> nat): (r: string)
    requires forall t :: len(t) <= |t|
    ensures |r| <= |s|
    decreases |s|
  {
    if s == [] then ""
    else
      var n := len(s);
      if n > 0 then DeleteMatches(s[n..], len) else [s[0]] + DeleteMatches(s[1..], len)
  }

  /** `originalSchema.replace(/(model|enum|type)\s+\w+\s+{[^}]*}/gms, '')`. */
  function StripBlocks(s: string): (r: string)
    ensures |r| <= |s|
  {
    DeleteMatches(s, BlockLen)
  }

  /** Between positions `k` and `j` of `s` no match starts, so that stretch
      is kept as it is. */
  lemma {:induction false} DeleteKeepsFrom(s: string, k: nat, j: nat, len: string -> nat)
    requires forall t :: len(t) <= |t|
    requires k <= j <= |s|
    requires forall i :: k <= i < j ==> len(s[i..]) == 0
    ensures DeleteMatches(s[k..], len) == s[k..j] + DeleteMatches(s[j..], len)
    decreases j - k
  {
    if k == j {
      assert s[k..j] == [];
    } else {
      SliceStep(s, k, j, DeleteMatches(s[j..], len));
      DeleteStep(s[k..], len);
      DeleteKeepsFrom(s, k + 1, j, len);
    }
  }

  lemma SliceStep(s: string, k: nat, j: nat, d: string)
    requires k < j <= |s|
    ensures s[k..][1..] == s[k + 1..] && s[k..][0] == s[k]
    ensures [s[k]] + (s[k + 1..j] + d) == s[k..j] + d
  {
    assert [s[k]] + s[k + 1..j] == s[k..j];
  }

  /** Where no match starts, the first character is kept. */
  lemma DeleteStep(s: string, len: string -> nat)
    requires forall t :: len(t) <= |t|
    requires s != [] && len(s) == 0
    ensures DeleteMatches(s, len) == [s[0]] + DeleteMatches(s[1..], len)
  {
  }

  /** Text at which no match starts is kept as it is, in front of whatever
      the rest becomes. */
  lemma DeleteKeeps(plain: string, rest: string, len: string -> nat)
    requires forall t :: len(t) <= |t|
    requires forall i :: 0 <= i < |plain| ==> len((plain + rest)[i..]) == 0
    ensures DeleteMatches(plain + rest, len) == plain + DeleteMatches(rest, len)
  {
    var s := plain + rest;
    DeleteKeepsFrom(s, 0, |plain|, len);
    assert s[0..] == s;
    assert s[0..|plain|] == plain;
    assert s[|plain|..] == rest;
  }

  /** A match at the front is deleted whole. */
  lemma DeleteLeading(m: string, rest: string, len: string -> nat)
    requires forall t :: len(t) <= |t|
    requires m != [] && len(m + rest) == |m|
    ensures DeleteMatches(m + rest, len) == DeleteMatches(rest, len)
  {
    assert (m + rest)[|m|..] == rest;
  }

  // ---------------------------------------------------------------------
  // What a block is, stated on its parts

  predicate IsKeyword(kw: string) {
    kw == "model" || kw == "enum" || kw == "type"
  }

  predicate AllSpace(s: string) {
    forall i :: 0 <= i < |s| ==> IsJsSpace(s[i])
  }

  predicate AllWord(s: string) {
    forall i :: 0 <= i < |s| ==> IsWordChar(s[i])
  }

  predicate NoClose(s: string) {
    forall i :: 0 <= i < |s| ==> s[i] != '}'
  }

  /** A declaration the header loses: keyword, whitespace, name, whitespace,
      then a brace-delimited body without `}`. */
  function Block(kw: string, ws1: string, name: string, ws2: string, body: string): string {
    kw + ws1 + name + ws2 + "{" + body + "}"
  }

  predicate BlockParts(kw: string, ws1: string, name: string, ws2: string, body: string) {
    IsKeyword(kw) && ws1 != [] && AllSpace(ws1) && name != [] && AllWord(name)
    && ws2 != [] && AllSpace(ws2) && NoClose(body)
  }

  /** `\s` and `\w` share no character. */
  lemma SpaceNotWord(c: char)
    ensures IsJsSpace(c) ==> !IsWordChar(c)
  {
  }

  /** A repeated part takes its whole (non-empty) run, then hands over to
      the next part. */
  lemma RunOf(p: Part, run: string, t: string, seen: bool)
    requires p.Space1? || p.Name? || p.Space2?
    requires run != [] && forall i :: 0 <= i < |run| ==> InClass(p, run[i])
    requires t == [] || !InClass(p, t[0])
    ensures Match(run + t, p, seen) == Shift(Match(t, Next(p), false), |run|)
  {
    var s := run + t;
    assert s[0] == run[0];
    RunStep(p, s, seen);
    assert s[1..] == run[1..] + t;
    RunTail(p, run[1..], t);
  }

  /** Once the run has started, the rest of it is consumed. */
  lemma {:induction false} RunTail(p: Part, run: string, t: string)
    requires p.Space1? || p.Name? || p.Space2?
    requires forall i :: 0 <= i < |run| ==> InClass(p, run[i])
    requires t == [] || !InClass(p, t[0])
    ensures Match(run + t, p, true) == Shift(Match(t, Next(p), false), |run|)
    decreases |run|
  {
    var s := run + t;
    if run == [] {
      assert s == t;
      RunEnd(p, t, true);
    } else {
      assert s[0] == run[0];
      RunStep(p, s, true);
      assert s[1..] == run[1..] + t;
      RunTail(p, run[1..], t);
    }
  }

  /** A character of the run's class is consumed. */
  lemma RunStep(p: Part, s: string, seen: bool)
    requires p.Space1? || p.Name? || p.Space2?
    requires s != [] && InClass(p, s[0])
    ensures Match(s, p, seen) == Shift(Match(s[1..], p, true), 1)
  {
  }

  /** The run ends at the first character outside its class. */
  lemma RunEnd(p: Part, t: string, seen: bool)
    requires p.Space1? || p.Name? || p.Space2?
    requires t == [] || !InClass(p, t[0])
    ensures Match(t, p, seen) == if seen then Match(t, Next(p), false) else None
  {
  }

  /** The body runs up to and including the first `}`. */
  lemma {:induction false} BodyOf(body: string, rest: string)
    requires NoClose(body)
    ensures Match(body + "}" + rest, Body, false) == Some(|body| + 1)
    decreases |body|
  {
    if body == [] {
      assert (body + "}" + rest)[0] == '}';
    } else {
      assert (body + "}" + rest)[1..] == body[1..] + "}" + rest;
      BodyOf(body[1..], rest);
    }
  }

  lemma KeywordLenOf(kw: string, t: string)
    requires IsKeyword(kw)
    ensures KeywordLen(kw + t) == |kw|
  {
    var s := kw + t;
    assert s[..|kw|] == kw;
    if kw != "model" {
      assert s[0] != 'm';
    }
  }

  /** `{`, then the body up to and including the first `}`. */
  lemma OpenOf(body: string, rest: string)
    requires NoClose(body)
    ensures Match("{" + body + "}" + rest, Open, false) == Some(|body| + 2)
  {
    assert ("{" + body + "}" + rest)[1..] == body + "}" + rest;
    BodyOf(body, rest);
  }

  /** Whitespace in front of a text that starts with `{` and matches from the
      brace on. */
  lemma AfterNameOf(ws2: string, c: string, m: nat)
    requires ws2 != [] && AllSpace(ws2)
    requires c != [] && c[0] == '{' && Match(c, Open, false) == Some(m)
    ensures Match(ws2 + c, Space2, false) == Some(|ws2| + m)
  {
    RunOf(Space2, ws2, c, false);
  }

  /** A name in front of a text that starts with whitespace and matches from
      there on. */
  lemma NameOf(name: string, c: string, m: nat)
    requires name != [] && AllWord(name)
    requires c != [] && IsJsSpace(c[0]) && Match(c, Space2, false) == Some(m)
    ensures Match(name + c, Name, false) == Some(|name| + m)
  {
    SpaceNotWord(c[0]);
    RunOf(Name, name, c, false);
  }

  /** Whitespace and a name in front of a text that starts with whitespace
      and matches from there on. */
  lemma AfterKeywordOf(ws1: string, name: string, c: string, m: nat)
    requires ws1 != [] && AllSpace(ws1) && name != [] && AllWord(name)
    requires c != [] && IsJsSpace(c[0]) && Match(c, Space2, false) == Some(m)
    ensures Match(ws1 + (name + c), Space1, false) == Some(|ws1| + |name| + m)
  {
    NameOf(name, c, m);
    SpaceNotWord(name[0]);
    assert (name + c)[0] == name[0];
    Prepend(Space1, ws1, name + c, |name| + m);
  }

  /** A run of a repeated part in front of a text the next part matches. */
  lemma Prepend(p: Part, run: string, t: string, m: nat)
    requires p.Space1? || p.Name? || p.Space2?
    requires run != [] && forall i :: 0 <= i < |run| ==> InClass(p, run[i])
    requires t == [] || !InClass(p, t[0])
    requires Match(t, Next(p), false) == Some(m)
    ensures Match(run + t, p, false) == Some(|run| + m)
  {
    RunOf(p, run, t, false);
  }

  /** A keyword in front of a text that matches from the first whitespace
      on. */
  lemma BlockLenOf(kw: string, c: string, m: nat)
    requires IsKeyword(kw) && Match(c, Space1, false) == Some(m)
    ensures BlockLen(kw + c) == |kw| + m
  {
    KeywordLenOf(kw, c);
    assert (kw + c)[|kw|..] == c;
  }

  /** Everything in front of the `{`, given that the text from the brace on
      matches. */
  lemma HeadOf(kw: string, ws1: string, name: string, ws2: string, c: string, m: nat)
    requires IsKeyword(kw) && ws1 != [] && AllSpace(ws1) && name != [] && AllWord(name)
    requires ws2 != [] && AllSpace(ws2)
    requires c != [] && c[0] == '{' && Match(c, Open, false) == Some(m)
    ensures BlockLen(kw + (ws1 + (name + (ws2 + c)))) == |kw| + |ws1| + |name| + |ws2| + m
  {
    AfterNameOf(ws2, c, m);
    assert (ws2 + c)[0] == ws2[0];
    AfterKeywordOf(ws1, name, ws2 + c, |ws2| + m);
    BlockLenOf(kw, ws1 + (name + (ws2 + c)), |ws1| + |name| + |ws2| + m);
  }

  /** A block followed by more text, regrouped from the right. */
  lemma BlockSplit(kw: string, ws1: string, name: string, ws2: string, body: string, rest: string)
    ensures Block(kw, ws1, name, ws2, body) + rest == kw + (ws1 + (name + (ws2 + ("{" + body + "}" + rest))))
  {
  }

  lemma BlockOfParts(kw: string, ws1: string, name: string, ws2: string, body: string, rest: string)
    requires BlockParts(kw, ws1, name, ws2, body)
    ensures BlockLen(kw + (ws1 + (name + (ws2 + ("{" + body + "}" + rest)))))
            == |kw| + |ws1| + |name| + |ws2| + |body| + 2
  {
    OpenOf(body, rest);
    HeadOf(kw, ws1, name, ws2, "{" + body + "}" + rest, |body| + 2);
  }

  /** The pattern matches a whole block at the start of the text, whatever
      follows it. */
  lemma BlockMatches(kw: string, ws1: string, name: string, ws2: string, body: string, rest: string)
    requires BlockParts(kw, ws1, name, ws2, body)
    ensures BlockLen(Block(kw, ws1, name, ws2, body) + rest) == |Block(kw, ws1, name, ws2, body)|
  {
    BlockSplit(kw, ws1, name, ws2, body, rest);
    BlockOfParts(kw, ws1, name, ws2, body, rest);
  }

  /** A block at the front of the text is deleted whole. */
  lemma StripLeadingBlock(kw: string, ws1: string, name: string, ws2: string, body: string, rest: string)
    requires BlockParts(kw, ws1, name, ws2, body)
    ensures StripBlocks(Block(kw, ws1, name, ws2, body) + rest) == StripBlocks(rest)
  {
    BlockMatches(kw, ws1, name, ws2, body, rest);
    DeleteLeading(Block(kw, ws1, name, ws2, body), rest, BlockLen);
  }

  /** Text at which no block starts is kept as it is, in front of whatever
      the rest becomes. */
  lemma StripKeeps(plain: string, rest: string)
    requires forall i :: 0 <= i < |plain| ==> BlockLen((plain + rest)[i..]) == 0
    ensures StripBlocks(plain + rest) == plain + StripBlocks(rest)
  {
    DeleteKeeps(plain, rest, BlockLen);
  }

  /** A schema in which no block starts anywhere is its own header. */
  lemma StripWithoutBlocks(s: string)
    requires forall i :: 0 <= i < |s| ==> BlockLen(s[i..]) == 0
    ensures StripBlocks(s) == s
  {
    assert s + "" == s;
    StripKeeps(s, "");
  }

  /** No keyword letter, no block: text without `m`, `e` or `t` is kept. */
  lemma NoKeywordLetters(s: string)
    requires forall i :: 0 <= i < |s| ==> s[i] != 'm' && s[i] != 'e' && s[i] != 't'
    ensures StripBlocks(s) == s
  {
    forall i | 0 <= i < |s| ensures BlockLen(s[i..]) == 0 {
      var t := s[i..];
      assert t[0] == s[i];
      if |t| >= 4 {
        assert t[..4][0] == t[0];
      }
    }
    StripWithoutBlocks(s);
  }

  /** The body a match takes holds no `}` before its closing one. */
  lemma {:induction false} BodyShape(s: string)
    ensures var r := Match(s, Body, false);
      r.Some? ==> NoClose(s[..r.value - 1]) && s[r.value - 1] == '}'
    decreases |s|
  {
    MatchEndsAtBrace(s, Body, false);
    if s != [] && s[0] != '}' {
      BodyShape(s[1..]);
      var r := Match(s[1..], Body, false);
      if r.Some? {
        assert s[..r.value] == [s[0]] + s[1..][..r.value - 1];
      }
    }
  }

  /** A match of a repeated part splits into its run, non-empty unless a
      character was already taken, and a match of the next part. */
  lemma {:induction false} RunSplit(c: string, p: Part, seen: bool, m: nat) returns (k: nat)
    requires p.Space1? || p.Name? || p.Space2?
    requires Match(c, p, seen) == Some(m)
    ensures (seen || 0 < k) && k <= |c| && forall i :: 0 <= i < k ==> InClass(p, c[i])
    ensures Match(c[k..], Next(p), false) == Some(m - k)
    decreases |c|
  {
    if c != [] && InClass(p, c[0]) {
      RunStep(p, c, seen);
      var j := RunSplit(c[1..], p, true, m - 1);
      k := j + 1;
      assert c[1..][j..] == c[k..];
      forall i | 0 <= i < k ensures InClass(p, c[i]) {
        if i > 0 {
          assert c[i] == c[1..][i - 1];
        }
      }
    } else {
      RunEnd(p, c, seen);
      k := 0;
    }
  }

  /** A match from the `{` on is the brace, a body without `}`, and the
      closing `}`. */
  lemma OpenShape(c: string, m: nat)
    requires Match(c, Open, false) == Some(m)
    ensures 2 <= m <= |c| && c[0] == '{' && c[m - 1] == '}' && NoClose(c[1..m - 1])
  {
    var t := c[1..];
    BodyShape(t);
    assert t[..m - 2] == c[1..m - 1];
  }

  /** The keyword a match starts with. */
  lemma KeywordSplit(s: string)
    requires BlockLen(s) > 0
    ensures 0 < KeywordLen(s) && IsKeyword(s[..KeywordLen(s)])
    ensures Match(s[KeywordLen(s)..], Space1, false) == Some(BlockLen(s) - KeywordLen(s))
  {
    var k := KeywordLen(s);
    if k == 5 {
      assert s[..k] == s[..5];
    } else {
      assert s[..k] == s[..4];
    }
  }

  /** A repeated part matching from position `x` of `s` takes the
      characters up to some `y > x`, and the next part matches from `y`. */
  lemma RunAt(s: string, x: nat, p: Part, m: nat) returns (y: nat)
    requires p.Space1? || p.Name? || p.Space2?
    requires x <= |s| && Match(s[x..], p, false) == Some(m)
    ensures x < y <= |s| && (if p.Name? then AllWord(s[x..y]) else AllSpace(s[x..y]))
    ensures Match(s[y..], Next(p), false) == Some(m - (y - x))
  {
    var a := RunSplit(s[x..], p, false, m);
    y := x + a;
    assert s[x..][a..] == s[y..];
    forall j | 0 <= j < a ensures InClass(p, s[x..y][j]) {
      assert s[x..y][j] == s[x..][j];
    }
  }

  /** The brace at `i` opens a body that the `}` just before `n` closes. */
  lemma OpenAt(s: string, i: nat, n: nat)
    requires i <= n && i <= |s| && Match(s[i..], Open, false) == Some(n - i)
    ensures i + 2 <= n <= |s| && s[i] == '{' && s[n - 1] == '}' && NoClose(s[i + 1..n - 1])
  {
    OpenShape(s[i..], n - i);
    assert s[i..][1..n - i - 1] == s[i + 1..n - 1];
  }

  /** The boundaries of the pieces after the keyword, which starts at `k`:
      whitespace up to `x2`, the name up to `x3`, whitespace up to `i`, then
      the brace, a body without `}` and the closing `}` ending at `n`. */
  lemma TailSlices(s: string, k: nat, n: nat) returns (x2: nat, x3: nat, i: nat)
    requires k <= |s| && k <= n && Match(s[k..], Space1, false) == Some(n - k)
    ensures k < x2 < x3 < i && i + 2 <= n <= |s|
    ensures AllSpace(s[k..x2]) && AllWord(s[x2..x3]) && AllSpace(s[x3..i])
    ensures s[i] == '{' && s[n - 1] == '}' && NoClose(s[i + 1..n - 1])
  {
    x2 := RunAt(s, k, Space1, n - k);
    x3 := RunAt(s, x2, Name, n - x2);
    i := RunAt(s, x3, Space2, n - x3);
    OpenAt(s, i, n);
  }

  /** Everything the pattern matches is a block: a keyword, whitespace, a
      name, whitespace and a braced body without `}`. */
  lemma BlockShape(s: string)
    ensures BlockLen(s) > 0 ==>
      exists kw, ws1, name, ws2, body :: BlockParts(kw, ws1, name, ws2, body)
                                          && s[..BlockLen(s)] == Block(kw, ws1, name, ws2, body)
  {
    var n := BlockLen(s);
    if n > 0 {
      KeywordSplit(s);
      var k := KeywordLen(s);
      var x2, x3, i := TailSlices(s, k, n);
      BlockPieces(s, k, x2, x3, i, n);
      assert BlockParts(s[..k], s[k..x2], s[x2..x3], s[x3..i], s[i + 1..n - 1]);
    }
  }

  /** A block cut out of the text at its piece boundaries. */
  lemma BlockPieces(s: string, x1: nat, x2: nat, x3: nat, i: nat, n: nat)
    requires x1 <= x2 <= x3 <= i && i + 2 <= n <= |s| && s[i] == '{' && s[n - 1] == '}'
    ensures s[..n] == Block(s[..x1], s[x1..x2], s[x2..x3], s[x3..i], s[i + 1..n - 1])
  {
    assert s[..x1] + s[x1..x2] == s[..x2];
    assert s[..x2] + s[x2..x3] == s[..x3];
    assert s[..x3] + s[x3..i] == s[..i];
    assert s[..i] + "{" == s[..i + 1];
    assert s[..i + 1] + s[i + 1..n - 1] == s[..n - 1];
    assert s[..n - 1] + "}" == s[..n];
  }

  /** A block ends at its first `}`: in `model A {\n  x Json @default("{}")\n}`
      the `}` of the default value closes the match, so the header keeps the
      remainder `")\n}` of the declaration. */
  lemma BraceInBodyLeavesTail()
    ensures StripBlocks(Block("model", " ", "A", " ", "\n  x Json @default(\"{") + "\")\n}") == "\")\n}"
  {
    var body := "\n  x Json @default(\"{";
    var rest := "\")\n}";
    assert BlockParts("model", " ", "A", " ", body);
    StripLeadingBlock("model", " ", "A", " ", body, rest);
    NoKeywordLetters(rest);
  }

  // ---------------------------------------------------------------------
  // The model files

  /** One entry of the `models` directory listing with the text
      `readFileSync` would return for it. */
  datatype ModelFile = ModelFile(name: string, content: string)

  /** `readdirSync(modelsDir).filter((file) => file.endsWith('.prisma'))`. */
  function PrismaFiles(listing: seq<ModelFile>): (r: seq<ModelFile>)
    ensures |r| <= |listing|
    ensures forall i :: 0 <= i < |r| ==> EndsWith(r[i].name, ".prisma") && r[i] in listing
    ensures forall f :: f in listing && EndsWith(f.name, ".prisma") ==> f in r
  {
    if listing == [] then []
    else
      var tail := PrismaFiles(listing[1..]);
      if EndsWith(listing[0].name, ".prisma") then [listing[0]] + tail else tail
  }

  /** The filter keeps the listing's order: it distributes over
      concatenation. */
  lemma {:induction false} PrismaFilesConcat(a: seq<ModelFile>, b: seq<ModelFile>)
    ensures PrismaFiles(a + b) == PrismaFiles(a) + PrismaFiles(b)
    decreases |a|
  {
    if a == [] {
      assert a + b == b;
    } else {
      assert (a + b)[0] == a[0];
      assert (a + b)[1..] == a[1..] + b;
      PrismaFilesConcat(a[1..], b);
    }
  }

  /** The banner and content one model file contributes. */
  function Section(f: ModelFile): string {
    "\n\n// ===== " + f.name + " =====\n\n" + f.content
  }

  /** The text the loop accumulates: each file's section, in order. */
  function Sections(files: seq<ModelFile>): string {
    if files == [] then "" else Section(files[0]) + Sections(files[1..])
  }

  /** Appending one more file appends its section. */
  lemma {:induction false} SectionsSnoc(files: seq<ModelFile>, f: ModelFile)
    ensures Sections(files + [f]) == Sections(files) + Section(f)
    decreases |files|
  {
    if files == [] {
      assert files + [f] == [f];
    } else {
      assert (files + [f])[1..] == files[1..] + [f];
      SectionsSnoc(files[1..], f);
    }
  }

  /** Each section starts with a banner naming its file and ends with that
      file's unchanged content. */
  lemma SectionShape(f: ModelFile)
    ensures StartsWith(Section(f), "\n\n// ===== " + f.name + " =====\n\n")
    ensures EndsWith(Section(f), f.content)
  {
    PrefixOfConcat("\n\n// ===== " + f.name + " =====\n\n", f.content);
    SuffixOfConcat("\n\n// ===== " + f.name + " =====\n\n", f.content);
  }

  /** The models text of a concatenated listing is the two models texts one
      after the other. */
  lemma {:induction false} SectionsConcat(x: seq<ModelFile>, y: seq<ModelFile>)
    ensures Sections(x + y) == Sections(x) + Sections(y)
    decreases |x|
  {
    if x == [] {
      assert x + y == y;
    } else {
      assert (x + y)[0] == x[0];
      assert (x + y)[1..] == x[1..] + y;
      SectionsConcat(x[1..], y);
    }
  }

  /** `${header.trim()}\n${modelsContent}`. */
  function FinalSchema(originalSchema: string, listing: seq<ModelFile>): string {
    Trim(StripBlocks(originalSchema)) + "\n" + Sections(PrismaFiles(listing))
  }

  /** The loop's two appends add one section. */
  lemma SectionAppend(acc: string, f: ModelFile)
    ensures acc + "\n\n// ===== " + f.name + " =====\n\n" + f.content == acc + Section(f)
  {
  }

  /** The `for` loop: appends each file's banner, then its content. */
  method ConcatModels(modelFiles: seq<ModelFile>) returns (modelsContent: string)
    ensures modelsContent == Sections(modelFiles)
  {
    modelsContent := "";
    var i := 0;
    while i < |modelFiles|
      invariant 0 <= i <= |modelFiles|
      invariant modelsContent == Sections(modelFiles[..i])
    {
      var file := modelFiles[i];
      ghost var before := modelsContent;
      modelsContent := modelsContent + "\n\n// ===== " + file.name + " =====\n\n";
      modelsContent := modelsContent + file.content;
      SectionAppend(before, file);
      SectionsSnoc(modelFiles[..i], file);
      assert modelFiles[..i + 1] == modelFiles[..i] + [file];
      i := i + 1;
    }
    assert modelFiles[..i] == modelFiles;
  }

  /** The script: header, filter, the accumulating loop, and the final text. */
  method Merge(originalSchema: string, listing: seq<ModelFile>) returns (finalSchema: string)
    ensures finalSchema == FinalSchema(originalSchema, listing)
  {
    var header := StripBlocks(originalSchema);
    var modelFiles := PrismaFiles(listing);
    var modelsContent := ConcatModels(modelFiles);
    finalSchema := Trim(header) + "\n" + modelsContent;
  }

  /** Without model files the result is the trimmed header and one newline. */
  lemma NoModelFiles(originalSchema: string, listing: seq<ModelFile>)
    requires forall i :: 0 <= i < |listing| ==> !EndsWith(listing[i].name, ".prisma")
    ensures FinalSchema(originalSchema, listing) == Trim(StripBlocks(originalSchema)) + "\n"
  {
  }

  /** The models text holds one section per `.prisma` file of the listing,
      in listing order; a file whose name lacks the suffix contributes
      nothing. */
  lemma ModelsOfListing(a: seq<ModelFile>, f: ModelFile, b: seq<ModelFile>)
    ensures Sections(PrismaFiles(a + [f] + b))
            == Sections(PrismaFiles(a)) + (if EndsWith(f.name, ".prisma") then Section(f) else "")
               + Sections(PrismaFiles(b))
  {
    var pa, pf, pb := PrismaFiles(a), PrismaFiles([f]), PrismaFiles(b);
    PrismaFilesConcat(a + [f], b);
    PrismaFilesConcat(a, [f]);
    SectionsConcat(pa + pf, pb);
    SectionsConcat(pa, pf);
    assert Sections(pf) == if EndsWith(f.name, ".prisma") then Section(f) else "" by {
      assert [f][1..] == [];
    }
  }
}
