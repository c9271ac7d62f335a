/**
  The text side of the viewer's Wavefront OBJ loader: which lines are vertex and
  face lines, how a face line is cut into tokens (strtok on a single space) and
  which number a token stands for (atof converted to an unsigned index).
 */
module ObjFormat {

  // ---------------------------------------------------------------------------
  // Line tags
  // ---------------------------------------------------------------------------

  /** `line.compare(0, 2, "<tag> ") == 0`: the first two characters are exactly the tag and a space. */
  predicate HasTag(line: string, tag: char) {
    |line| >= 2 && line[0] == tag && line[1] == ' '
  }

  predicate IsVertexLine(line: string) { HasTag(line, 'v') }

  predicate IsFaceLine(line: string) { HasTag(line, 'f') }

  /** The lines carrying the tag, in file order. */
  function TaggedLines(lines: seq<string>, tag: char): (r: seq<string>)
    ensures |r| <= |lines|
    ensures forall k :: 0 <= k < |r| ==> HasTag(r[k], tag)
  {
    if lines == [] then []
    else (if HasTag(lines[0], tag) then [lines[0]] else []) + TaggedLines(lines[1..], tag)
  }

  /** The positions of the lines carrying the tag. */
  ghost function TaggedPositions(lines: seq<string>, tag: char): set<int> {
    set i | 0 <= i < |lines| && HasTag(lines[i], tag)
  }

  lemma {:induction false} TaggedLinesAppend(a: seq<string>, b: seq<string>, tag: char)
    ensures TaggedLines(a + b, tag) == TaggedLines(a, tag) + TaggedLines(b, tag)
  {
    if a != [] {
      assert (a + b)[1..] == a[1..] + b;
      TaggedLinesAppend(a[1..], b, tag);
    } else {
      assert a + b == b;
    }
  }

  /** Reading one more line adds that line to the tagged lines exactly when it carries the tag. */
  lemma TaggedLinesSnoc(lines: seq<string>, n: nat, tag: char)
    requires n < |lines|
    ensures TaggedLines(lines[..n + 1], tag)
            == TaggedLines(lines[..n], tag) + (if HasTag(lines[n], tag) then [lines[n]] else [])
  {
    assert lines[..n + 1] == lines[..n] + [lines[n]];
    TaggedLinesAppend(lines[..n], [lines[n]], tag);
    assert [lines[n]][1..] == [];
  }

  /** The tagged lines of a prefix of the file are a prefix of the file's tagged lines. */
  lemma TaggedLinesPrefix(lines: seq<string>, n: nat, tag: char)
    requires n <= |lines|
    ensures |TaggedLines(lines[..n], tag)| <= |TaggedLines(lines, tag)|
    ensures TaggedLines(lines, tag)[..|TaggedLines(lines[..n], tag)|] == TaggedLines(lines[..n], tag)
  {
    assert lines == lines[..n] + lines[n..];
    TaggedLinesAppend(lines[..n], lines[n..], tag);
  }

  /** The number of tagged lines is the number of positions whose line carries the tag. */
  lemma {:induction false} TaggedLinesCount(lines: seq<string>, tag: char)
    ensures |TaggedLines(lines, tag)| == |TaggedPositions(lines, tag)|
  {
    if lines != [] {
      var n := |lines| - 1;
      var init := lines[..n];
      assert lines == init + [lines[n]];
      TaggedLinesAppend(init, [lines[n]], tag);
      assert [lines[n]][1..] == [];
      TaggedLinesCount(init, tag);
      var last := if HasTag(lines[n], tag) then {n} else {};
      assert TaggedPositions(lines, tag) == TaggedPositions(init, tag) + last;
      assert n !in TaggedPositions(init, tag);
    }
  }

  /**
    File order: the k-th tagged line (counting from 0) is the line at a position p
    that carries the tag and has exactly k tagged lines before it.
   */
  lemma KthTaggedLine(lines: seq<string>, tag: char, k: nat)
    requires k < |TaggedLines(lines, tag)|
    ensures exists p :: 0 <= p < |lines| && HasTag(lines[p], tag)
                        && TaggedLines(lines, tag)[k] == lines[p]
                        && |TaggedLines(lines[..p], tag)| == k
  {
    var p := KthTaggedPosition(lines, tag, k);
  }

  /** The position KthTaggedLine speaks of, computed by walking the file. */
  lemma {:induction false} KthTaggedPosition(lines: seq<string>, tag: char, k: nat) returns (p: nat)
    requires k < |TaggedLines(lines, tag)|
    ensures p < |lines| && HasTag(lines[p], tag)
    ensures TaggedLines(lines, tag)[k] == lines[p] && |TaggedLines(lines[..p], tag)| == k
  {
    assert lines[..0] == [];
    if HasTag(lines[0], tag) && k == 0 {
      p := 0;
    } else {
      var head := if HasTag(lines[0], tag) then [lines[0]] else [];
      var p' := KthTaggedPosition(lines[1..], tag, k - |head|);
      HeadThenRest(lines, tag, p');
      p := p' + 1;
    }
  }

  /** Splitting off the first line, for the whole file and for the prefix up to p' + 1. */
  lemma HeadThenRest(lines: seq<string>, tag: char, p': nat)
    requires p' < |lines| - 1
    ensures var head := if HasTag(lines[0], tag) then [lines[0]] else [];
            && TaggedLines(lines, tag) == head + TaggedLines(lines[1..], tag)
            && TaggedLines(lines[..p' + 1], tag) == head + TaggedLines(lines[1..][..p'], tag)
  {
    assert lines[..p' + 1] == [lines[0]] + lines[1..][..p'];
    TaggedLinesAppend([lines[0]], lines[1..][..p'], tag);
    assert [lines[0]][1..] == [];
  }

  // ---------------------------------------------------------------------------
  // strtok(str, " ")
  // ---------------------------------------------------------------------------

  /** strtok is called with the delimiter set " ": only the space separates tokens. */
  predicate IsDelimiter(c: char) { c == ' ' }

  /** What strtok can return: a non-empty run without delimiters. */
  predicate IsToken(t: string) {
    |t| > 0 && forall i :: 0 <= i < |t| ==> !IsDelimiter(t[i])
  }

  /** Length of the leading run of delimiters. */
  function DelimiterRun(s: string): (k: nat)
    ensures k <= |s|
    ensures forall i :: 0 <= i < k ==> IsDelimiter(s[i])
    ensures k < |s| ==> !IsDelimiter(s[k])
  {
    if s == [] || !IsDelimiter(s[0]) then 0 else 1 + DelimiterRun(s[1..])
  }

  /** Length of the leading run of non-delimiters. */
  function TokenRun(s: string): (k: nat)
    ensures k <= |s|
    ensures forall i :: 0 <= i < k ==> !IsDelimiter(s[i])
    ensures k < |s| ==> IsDelimiter(s[k])
  {
    if s == [] || IsDelimiter(s[0]) then 0 else 1 + TokenRun(s[1..])
  }

  /** The outcome of one strtok call: no token left, or a token and the text after it. */
  datatype Cut = NoToken | Token(token: string, rest: string)

  /** One strtok call: skip the leading delimiters and cut the run of non-delimiters after them. */
  function NextToken(s: string): (c: Cut)
    ensures c.NoToken? <==> forall i :: 0 <= i < |s| ==> IsDelimiter(s[i])
    ensures c.Token? ==> IsToken(c.token) && |c.rest| < |s|
    ensures c.Token? ==> c.rest == [] || IsDelimiter(c.rest[0])
  {
    var d := DelimiterRun(s);
    if d == |s| then NoToken
    else
      var k := TokenRun(s[d..]);
      Token(s[d..][..k], s[d..][k..])
  }

  /** Every token the strtok loop visits, in order. */
  function Tokens(s: string): (ts: seq<string>)
    ensures forall i :: 0 <= i < |ts| ==> IsToken(ts[i])
    decreases |s|
  {
    match NextToken(s)
    case NoToken => []
    case Token(t, r) => [t] + Tokens(r)
  }

  /** The tokens still to be visited once strtok has returned `c`. */
  function Remaining(c: Cut): seq<string> {
    match c
    case NoToken => []
    case Token(t, r) => [t] + Tokens(r)
  }

  /** Tokens written out separated by single spaces. */
  function Join(ts: seq<string>): string {
    if ts == [] then ""
    else if |ts| == 1 then ts[0]
    else ts[0] + " " + Join(ts[1..])
  }

  lemma {:induction false} TokenRunStopsAtDelimiter(t: string, x: string)
    requires forall i :: 0 <= i < |t| ==> !IsDelimiter(t[i])
    requires x == [] || IsDelimiter(x[0])
    ensures TokenRun(t + x) == |t|
  {
    if t == [] {
      assert t + x == x;
    } else {
      assert (t + x)[1..] == t[1..] + x;
      TokenRunStopsAtDelimiter(t[1..], x);
    }
  }

  lemma {:induction false} LeadingDelimiterSkipped(s: string)
    ensures Tokens(" " + s) == Tokens(s)
  {
    var s' := " " + s;
    assert s'[1..] == s;
    var d := DelimiterRun(s);
    assert DelimiterRun(s') == d + 1;
    assert s'[d + 1..] == s[d..];
    assert NextToken(s') == NextToken(s);
  }

  /** A token followed by a delimiter (or by nothing) is cut off intact. */
  lemma {:induction false} FirstTokenCut(t: string, x: string)
    requires IsToken(t)
    requires x == [] || IsDelimiter(x[0])
    ensures NextToken(t + x) == Token(t, x)
  {
    var s := t + x;
    assert s[0] == t[0];
    assert DelimiterRun(s) == 0;
    assert s[0..] == s;
    TokenRunStopsAtDelimiter(t, x);
    assert s[..|t|] == t && s[|t|..] == x;
  }

  lemma TokensAfterCut(s: string, t: string, r: string)
    requires NextToken(s) == Token(t, r)
    ensures Tokens(s) == [t] + Tokens(r)
  {
  }

  lemma TokensOfEmpty()
    ensures Tokens("") == []
  {
    assert NextToken("") == NoToken;
  }

  lemma {:induction false} TokensOfSingle(t: string)
    requires IsToken(t)
    ensures Tokens(t) == [t]
  {
    FirstTokenCut(t, "");
    assert t + "" == t;
    TokensAfterCut(t, t, "");
    TokensOfEmpty();
  }

  /** Tokenising undoes joining: the tokens of a space-joined list are the list. */
  lemma {:induction false} TokensOfJoin(ts: seq<string>)
    requires forall i :: 0 <= i < |ts| ==> IsToken(ts[i])
    ensures Tokens(Join(ts)) == ts
  {
    if ts == [] {
      TokensOfEmpty();
    } else if |ts| == 1 {
      TokensOfSingle(ts[0]);
    } else {
      TokensOfJoin(ts[1..]);
      TokensOfJoinStep(ts);
    }
  }

  lemma TokensOfJoinStep(ts: seq<string>)
    requires |ts| >= 2 && IsToken(ts[0])
    requires Tokens(Join(ts[1..])) == ts[1..]
    ensures Tokens(Join(ts)) == ts
  {
    TokensOfTokenThenText(ts[0], Join(ts[1..]));
    assert Join(ts) == ts[0] + (" " + Join(ts[1..]));
    assert ts == [ts[0]] + ts[1..];
  }

  lemma TokensOfTokenThenText(t: string, tail: string)
    requires IsToken(t)
    ensures Tokens(t + (" " + tail)) == [t] + Tokens(tail)
  {
    var rest := " " + tail;
    FirstTokenCut(t, rest);
    TokensAfterCut(t + rest, t, rest);
    LeadingDelimiterSkipped(tail);
  }

  /** A run of n spaces. */
  function Spaces(n: nat): (s: string)
    ensures |s| == n && forall i :: 0 <= i < n ==> IsDelimiter(s[i])
  {
    if n == 0 then "" else " " + Spaces(n - 1)
  }

  /** A string of delimiters only is a run of spaces. */
  lemma {:induction false} AllSpaces(p: string)
    requires forall i :: 0 <= i < |p| ==> IsDelimiter(p[i])
    ensures p == Spaces(|p|)
  {
    if p != [] {
      AllSpaces(p[1..]);
      assert p == " " + p[1..];
    }
  }

  lemma ThreeParts(s: string, d: nat, k: nat)
    requires d + k <= |s|
    ensures s == s[..d] + s[d..][..k] + s[d..][k..]
  {
  }

  /** What one strtok call cuts out of s: the leading spaces, then the token, then the rest. */
  lemma NextTokenCuts(s: string)
    ensures NextToken(s).Token? ==> s == Spaces(DelimiterRun(s)) + NextToken(s).token + NextToken(s).rest
  {
    var c := NextToken(s);
    var d := DelimiterRun(s);
    if c.Token? {
      var k := TokenRun(s[d..]);
      assert c.token == s[d..][..k] && c.rest == s[d..][k..];
      ThreeParts(s, d, k);
      AllSpaces(s[..d]);
    }
  }

  lemma SpacesThenText(n: nat, s: string)
    requires n > 0
    ensures Spaces(n) + s == " " + (Spaces(n - 1) + s)
  {
  }

  /** Any run of leading delimiters is skipped. */
  lemma {:induction false} SpacesSkipped(n: nat, s: string)
    ensures Tokens(Spaces(n) + s) == Tokens(s)
    decreases n, 1
  {
    if n == 0 {
      assert Spaces(n) + s == s;
    } else {
      SpacesSkippedStep(n, s);
    }
  }

  lemma {:induction false} SpacesSkippedStep(n: nat, s: string)
    requires n > 0
    ensures Tokens(Spaces(n) + s) == Tokens(s)
    decreases n, 0
  {
    SpacesSkipped(n - 1, s);
    SpacesThenText(n, s);
    SkipOne(Spaces(n) + s, Spaces(n - 1) + s, s);
  }

  lemma SkipOne(line: string, rest: string, s: string)
    requires line == " " + rest && Tokens(rest) == Tokens(s)
    ensures Tokens(line) == Tokens(s)
  {
    LeadingDelimiterSkipped(rest);
  }


  lemma OnlySpaces(n: nat)
    ensures Tokens(Spaces(n)) == []
  {
    SpacesSkipped(n, "");
    assert Spaces(n) + "" == Spaces(n);
    TokensOfEmpty();
  }

  /**
    Tokens laid out with gaps[0] spaces before the first, gaps[i] + 1 spaces between
    token i - 1 and token i, and the last gap after the last token.
   */
  function Padded(ts: seq<string>, gaps: seq<nat>): string
    requires |gaps| == |ts| + 1
    decreases |ts|
  {
    if ts == [] then Spaces(gaps[0])
    else if |ts| == 1 then Spaces(gaps[0]) + ts[0] + Spaces(gaps[1])
    else Spaces(gaps[0]) + ts[0] + " " + Padded(ts[1..], gaps[1..])
  }

  /** However many spaces surround and separate the tokens, strtok visits exactly those tokens. */
  lemma {:induction false} TokensOfPadded(ts: seq<string>, gaps: seq<nat>)
    requires |gaps| == |ts| + 1
    requires forall i :: 0 <= i < |ts| ==> IsToken(ts[i])
    ensures Tokens(Padded(ts, gaps)) == ts
    decreases |ts|
  {
    if ts == [] {
      OnlySpaces(gaps[0]);
    } else if |ts| == 1 {
      PaddedOne(ts, gaps);
    } else {
      TokensOfPadded(ts[1..], gaps[1..]);
      PaddedCons(ts, gaps);
    }
  }

  lemma PaddedOne(ts: seq<string>, gaps: seq<nat>)
    requires |ts| == 1 && |gaps| == 2 && IsToken(ts[0])
    ensures Tokens(Padded(ts, gaps)) == ts
  {
    PaddedUnfoldOne(ts, gaps);
    PaddedSingle(ts[0], gaps[0], gaps[1], Padded(ts, gaps));
  }

  lemma PaddedCons(ts: seq<string>, gaps: seq<nat>)
    requires |ts| >= 2 && |gaps| == |ts| + 1 && IsToken(ts[0])
    requires Tokens(Padded(ts[1..], gaps[1..])) == ts[1..]
    ensures Tokens(Padded(ts, gaps)) == ts
  {
    PaddedUnfold(ts, gaps);
    SpacedTokenThen(gaps[0], ts[0], Padded(ts[1..], gaps[1..]), ts[1..], Padded(ts, gaps));
    assert ts == [ts[0]] + ts[1..];
  }

  lemma PaddedSingle(t: string, before: nat, after: nat, line: string)
    requires IsToken(t) && line == Spaces(before) + (t + Spaces(after))
    ensures Tokens(line) == [t]
  {
    SpacesSkipped(before, t + Spaces(after));
    if after == 0 {
      assert t + Spaces(after) == t;
      TokensOfSingle(t);
    } else {
      TrailingSpaces(t, after);
    }
  }

  lemma TrailingSpaces(t: string, n: nat)
    requires IsToken(t) && n > 0
    ensures Tokens(t + Spaces(n)) == [t]
  {
    SpacesThenText(n, "");
    assert Spaces(n) == " " + Spaces(n - 1);
    TokensOfTokenThenText(t, Spaces(n - 1));
    OnlySpaces(n - 1);
  }

  /** Leading spaces, a token, a space, then text whose tokens are `tail`. */
  lemma SpacedTokenThen(g: nat, t: string, rest: string, tail: seq<string>, line: string)
    requires IsToken(t) && Tokens(rest) == tail && line == Spaces(g) + (t + (" " + rest))
    ensures Tokens(line) == [t] + tail
  {
    SpacesSkipped(g, t + (" " + rest));
    TokensOfTokenThenText(t, rest);
  }

  lemma PaddedUnfoldOne(ts: seq<string>, gaps: seq<nat>)
    requires |ts| == 1 && |gaps| == 2
    ensures Padded(ts, gaps) == Spaces(gaps[0]) + (ts[0] + Spaces(gaps[1]))
  {
  }

  lemma PaddedUnfold(ts: seq<string>, gaps: seq<nat>)
    requires |ts| >= 2 && |gaps| == |ts| + 1
    ensures Padded(ts, gaps) == Spaces(gaps[0]) + (ts[0] + (" " + Padded(ts[1..], gaps[1..])))
  {
  }

  /** The strtok loop over a face line visits the marker "f" first. */
  lemma {:induction false} FaceLineFirstToken(line: string)
    requires IsFaceLine(line)
    ensures |Tokens(line)| >= 1 && Tokens(line)[0] == "f"
  {
    assert line == "f" + line[1..];
    FirstTokenCut("f", line[1..]);
  }

  // ---------------------------------------------------------------------------
  // atof(token) stored into an unsigned int
  // ---------------------------------------------------------------------------

  predicate IsDigit(c: char) { '0' <= c <= '9' }

  function DigitValue(c: char): nat
    requires IsDigit(c)
  {
    c as int - '0' as int
  }

  /** Length of the leading run of decimal digits. */
  function DigitRun(s: string): (k: nat)
    ensures k <= |s|
    ensures forall i :: 0 <= i < k ==> IsDigit(s[i])
    ensures k < |s| ==> !IsDigit(s[k])
  {
    if s == [] || !IsDigit(s[0]) then 0 else 1 + DigitRun(s[1..])
  }

  /** The number a string of decimal digits denotes, most significant digit first. */
  function DigitsValue(ds: string): nat
    requires forall i :: 0 <= i < |ds| ==> IsDigit(ds[i])
  {
    if ds == [] then 0 else 10 * DigitsValue(ds[..|ds| - 1]) + DigitValue(ds[|ds| - 1])
  }

  /** The index a face token stands for: its leading decimal digits, 0 when there are none. */
  function LeadingNat(tok: string): (v: nat)
    ensures (tok == [] || !IsDigit(tok[0])) ==> v == 0
  {
    DigitsValue(tok[..DigitRun(tok)])
  }

  function DigitChar(d: nat): (c: char)
    requires d < 10
    ensures IsDigit(c) && DigitValue(c) == d
  {
    ('0' as int + d) as char
  }

  /** Decimal rendering of a number, without leading zeros. */
  function Decimal(n: nat): (s: string)
    ensures |s| >= 1
    ensures forall i :: 0 <= i < |s| ==> IsDigit(s[i])
  {
    if n < 10 then [DigitChar(n)] else Decimal(n / 10) + [DigitChar(n % 10)]
  }

  lemma {:induction false} DecimalValue(n: nat)
    ensures DigitsValue(Decimal(n)) == n
  {
    if n >= 10 {
      var s := Decimal(n);
      assert s[..|s| - 1] == Decimal(n / 10);
      DecimalValue(n / 10);
    }
  }

  lemma {:induction false} DigitRunStops(ds: string, suffix: string)
    requires forall i :: 0 <= i < |ds| ==> IsDigit(ds[i])
    requires suffix == [] || !IsDigit(suffix[0])
    ensures DigitRun(ds + suffix) == |ds|
  {
    if ds == [] {
      assert ds + suffix == suffix;
    } else {
      assert (ds + suffix)[1..] == ds[1..] + suffix;
      DigitRunStops(ds[1..], suffix);
    }
  }

  /**
    Reading a token undoes writing a number: a decimal numeral followed by text that
    does not start with a digit (such as "/1/2" in a "3/1/2" group) reads as that number.
   */
  lemma {:induction false} LeadingNatOfDecimal(n: nat, suffix: string)
    requires suffix == [] || !IsDigit(suffix[0])
    ensures LeadingNat(Decimal(n) + suffix) == n
  {
    var s := Decimal(n) + suffix;
    DigitRunStops(Decimal(n), suffix);
    assert s[..|Decimal(n)|] == Decimal(n);
    DecimalValue(n);
  }

  // ---------------------------------------------------------------------------
  // Faces
  // ---------------------------------------------------------------------------

  /** The values parserVertexesForPolygon stores, in order: those tokens whose value is non-zero. */
  function IndexValues(ts: seq<string>): (vs: seq<nat>)
    ensures |vs| <= |ts|
    ensures forall i :: 0 <= i < |vs| ==> vs[i] != 0
  {
    if ts == [] then []
    else (if LeadingNat(ts[0]) != 0 then [LeadingNat(ts[0])] else []) + IndexValues(ts[1..])
  }

  /** One step of the parse loop: the values still to store lose their head exactly when the next token is non-zero. */
  lemma IndexValuesStep(all: seq<nat>, e: nat, rest: seq<string>)
    requires rest != [] && e <= |all| && all[e..] == IndexValues(rest)
    ensures LeadingNat(rest[0]) != 0 ==> e < |all| && all[e] == LeadingNat(rest[0]) && all[e + 1..] == IndexValues(rest[1..])
    ensures LeadingNat(rest[0]) == 0 ==> all[e..] == IndexValues(rest[1..])
  {
    if LeadingNat(rest[0]) != 0 {
      assert all[e..][1..] == all[e + 1..];
    }
  }

  /** One turn of the strtok loop that stores indices, stated on the tokens still to come. */
  lemma IndexStep(all: seq<nat>, e: nat, c: Cut)
    requires c.Token? && e <= |all| && all[e..] == IndexValues(Remaining(c))
    ensures |Remaining(NextToken(c.rest))| < |Remaining(c)|
    ensures LeadingNat(c.token) != 0 ==>
              e < |all| && all[e] == LeadingNat(c.token) && all[e + 1..] == IndexValues(Remaining(NextToken(c.rest)))
    ensures LeadingNat(c.token) == 0 ==> all[e..] == IndexValues(Remaining(NextToken(c.rest)))
  {
    var rest := Remaining(c);
    assert rest[0] == c.token && rest[1..] == Remaining(NextToken(c.rest));
    IndexValuesStep(all, e, rest);
  }

  /** What a face line determines: the number of index slots and the indices stored in them. */
  datatype FaceSpec = FaceSpec(slots: nat, indices: seq<nat>)

  /**
    The face a face line describes. The slot count is the token count minus the "f"
    marker; the marker reads as 0 and is never stored, so the stored indices fit the slots.
   */
  function FaceOf(line: string): (f: FaceSpec)
    requires IsFaceLine(line)
    ensures |f.indices| <= f.slots
    ensures forall i :: 0 <= i < |f.indices| ==> f.indices[i] != 0
  {
    var ts := Tokens(line);
    FaceLineFirstToken(line);
    assert ts == [ts[0]] + ts[1..];
    assert LeadingNat(ts[0]) == 0;
    FaceSpec(|ts| - 1, IndexValues(ts))
  }

  /** Each index group is a decimal numeral followed by delimiter-free text not starting with a digit. */
  predicate IsGroupSuffix(sfx: string) {
    (sfx == [] || !IsDigit(sfx[0])) && forall i :: 0 <= i < |sfx| ==> !IsDelimiter(sfx[i])
  }

  function Groups(ns: seq<nat>, sfxs: seq<string>): (gs: seq<string>)
    requires |sfxs| == |ns|
    ensures |gs| == |ns|
  {
    seq(|ns|, i requires 0 <= i < |ns| => Decimal(ns[i]) + sfxs[i])
  }

  lemma {:induction false} IndexValuesOfGroups(ns: seq<nat>, sfxs: seq<string>)
    requires |sfxs| == |ns|
    requires forall i :: 0 <= i < |ns| ==> ns[i] != 0 && IsGroupSuffix(sfxs[i])
    ensures IndexValues(Groups(ns, sfxs)) == ns
  {
    if ns != [] {
      var gs := Groups(ns, sfxs);
      LeadingNatOfDecimal(ns[0], sfxs[0]);
      assert gs[1..] == Groups(ns[1..], sfxs[1..]);
      IndexValuesOfGroups(ns[1..], sfxs[1..]);
      assert ns == [ns[0]] + ns[1..];
    }
  }

  /**
    A face line "f g1 g2 ... gn" whose groups start with the non-zero numerals n1..nn
    (plain "7", or "7/1/2" with texture and normal references) has n slots holding
    exactly n1..nn: the texture and normal parts are ignored, not decomposed.
   */
  lemma {:induction false} FaceOfGroups(ns: seq<nat>, sfxs: seq<string>)
    requires |ns| >= 1 && |sfxs| == |ns|
    requires forall i :: 0 <= i < |ns| ==> ns[i] != 0 && IsGroupSuffix(sfxs[i])
    ensures IsFaceLine(Join(["f"] + Groups(ns, sfxs)))
    ensures FaceOf(Join(["f"] + Groups(ns, sfxs))) == FaceSpec(|ns|, ns)
  {
    var gs := Groups(ns, sfxs);
    var ts := ["f"] + gs;
    assert ts[1..] == gs;
    var line := Join(ts);
    assert line == "f" + " " + Join(gs);
    GroupTokens(ns, sfxs);
    TokensOfJoin(ts);
    assert LeadingNat("f") == 0;
    IndexValuesOfGroups(ns, sfxs);
  }

  /** The marker and the index groups are all tokens. */
  lemma GroupTokens(ns: seq<nat>, sfxs: seq<string>)
    requires |sfxs| == |ns|
    requires forall i :: 0 <= i < |ns| ==> IsGroupSuffix(sfxs[i])
    ensures forall i :: 0 <= i < |ns| + 1 ==> IsToken((["f"] + Groups(ns, sfxs))[i])
  {
    var gs := Groups(ns, sfxs);
    var ts := ["f"] + gs;
    forall i | 0 <= i < |ts| ensures IsToken(ts[i]) {
      if i > 0 {
        var g := gs[i - 1];
        assert g == Decimal(ns[i - 1]) + sfxs[i - 1];
        forall j | 0 <= j < |g| ensures !IsDelimiter(g[j]) {
          if j >= |Decimal(ns[i - 1])| {
            assert g[j] == sfxs[i - 1][j - |Decimal(ns[i - 1])|];
          }
        }
      }
    }
  }

  /**
    The same face line with any spacing: "f" right at the start, then the groups
    separated by one or more spaces and followed by any trailing spaces, still has n
    slots holding exactly n1..nn.
   */
  lemma FaceOfPaddedGroups(ns: seq<nat>, sfxs: seq<string>, gaps: seq<nat>)
    requires |ns| >= 1 && |sfxs| == |ns| && |gaps| == |ns| + 2 && gaps[0] == 0
    requires forall i :: 0 <= i < |ns| ==> ns[i] != 0 && IsGroupSuffix(sfxs[i])
    ensures IsFaceLine(Padded(["f"] + Groups(ns, sfxs), gaps))
    ensures FaceOf(Padded(["f"] + Groups(ns, sfxs), gaps)) == FaceSpec(|ns|, ns)
  {
    var gs := Groups(ns, sfxs);
    var ts := ["f"] + gs;
    assert ts[1..] == gs;
    var line := Padded(ts, gaps);
    PaddedFaceLine(ts, gaps);
    GroupTokens(ns, sfxs);
    TokensOfPadded(ts, gaps);
    FaceOfTokens(line, ts);
    IndexValuesOfGroups(ns, sfxs);
  }

  lemma PaddedFaceLine(ts: seq<string>, gaps: seq<nat>)
    requires |ts| >= 2 && ts[0] == "f" && |gaps| == |ts| + 1 && gaps[0] == 0
    ensures IsFaceLine(Padded(ts, gaps))
  {
    PaddedUnfold(ts, gaps);
    assert Padded(ts, gaps) == "f" + (" " + Padded(ts[1..], gaps[1..]));
  }

  /** A face line whose tokens are "f" and then `rest` has a slot per token of `rest`. */
  lemma FaceOfTokens(line: string, ts: seq<string>)
    requires IsFaceLine(line) && Tokens(line) == ts && |ts| >= 1 && ts[0] == "f"
    ensures FaceOf(line) == FaceSpec(|ts| - 1, IndexValues(ts[1..]))
  {
    assert LeadingNat("f") == 0;
  }
}
