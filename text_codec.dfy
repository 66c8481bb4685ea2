/**
 * The delimited-text codec of the admin editor's collection fields.
 *
 * A skill category's skills are displayed as one line joined with ", " and read
 * back by splitting on ",", trimming every piece and dropping the empty ones.
 * A job's achievements and the education certifications are displayed joined
 * with "\n" and read back by splitting on "\n" and dropping the empty pieces,
 * without trimming.
 */
module TextCodec {

  /** The code points JavaScript's `String.prototype.trim` removes: the
      ECMAScript WhiteSpace set (TAB, VT, FF, ZWNBSP and the Unicode space
      separators) and the LineTerminator set (LF, CR, LS, PS). */
  const Whitespace: set<char> := {
    '\t', '\n', '\U{B}', '\U{C}', '\r', ' ', '\U{A0}', '\U{1680}',
    '\U{2000}', '\U{2001}', '\U{2002}', '\U{2003}', '\U{2004}', '\U{2005}',
    '\U{2006}', '\U{2007}', '\U{2008}', '\U{2009}', '\U{200A}',
    '\U{2028}', '\U{2029}', '\U{202F}', '\U{205F}', '\U{3000}', '\U{FEFF}'
  }

  predicate IsSpace(c: char) {
    c in Whitespace
  }

  /** Neither the first nor the last character of `s` is whitespace. */
  predicate Trimmed(s: string) {
    s == [] || (!IsSpace(s[0]) && !IsSpace(s[|s| - 1]))
  }

  predicate AllSpace(s: string) {
    forall i :: 0 <= i < |s| ==> IsSpace(s[i])
  }

  // ---------------------------------------------------------------------------
  // split and join

  /** `s.split(d)` for a one-character separator: the maximal runs of
      non-separator characters, including the empty ones before, between and
      after separators, so that "" splits into [""]. */
  function Split(s: string, d: char): (pieces: seq<string>)
    ensures |pieces| >= 1
    ensures forall i :: 0 <= i < |pieces| ==> d !in pieces[i]
  {
    if s == [] then [[]]
    else
      var rest := Split(s[1..], d);
      if s[0] == d then [[]] + rest
      else [[s[0]] + rest[0]] + rest[1..]
  }

  /** `xs.join(sep)`: the items with `sep` between neighbours. */
  function Join(xs: seq<string>, sep: string): string {
    if |xs| == 0 then []
    else if |xs| == 1 then xs[0]
    else xs[0] + sep + Join(xs[1..], sep)
  }

  /** Joining the pieces of a split with the separator gives back the text. */
  lemma {:induction false} JoinSplit(s: string, d: char)
    ensures Join(Split(s, d), [d]) == s
  {
    if s != [] {
      var rest := Split(s[1..], d);
      JoinSplit(s[1..], d);
      if s[0] == d {
        assert ([[]] + rest)[1..] == rest;
      } else if |rest| > 1 {
        var ps := [[s[0]] + rest[0]] + rest[1..];
        assert ps[1..] == rest[1..];
        assert Join(rest, [d]) == rest[0] + [d] + Join(rest[1..], [d]);
        assert s == [s[0]] + s[1..];
      } else {
        assert s == [s[0]] + s[1..];
      }
    }
  }

  /** Text without the separator is one piece. */
  lemma {:induction false} SplitNoSeparator(a: string, d: char)
    requires d !in a
    ensures Split(a, d) == [a]
  {
    if a != [] {
      SplitNoSeparator(a[1..], d);
      assert [a[0]] + a[1..] == a;
    }
  }

  /** A separator right after a separator-free prefix ends the first piece. */
  lemma {:induction false} SplitAtFirstSeparator(a: string, b: string, d: char)
    requires d !in a
    ensures Split(a + [d] + b, d) == [a] + Split(b, d)
  {
    var s := a + [d] + b;
    if a == [] {
      assert s[1..] == b;
    } else {
      assert s[1..] == a[1..] + [d] + b;
      SplitAtFirstSeparator(a[1..], b, d);
      assert [a[0]] + a[1..] == a;
    }
  }

  /** A separator at the very end adds one empty piece. */
  lemma {:induction false} SplitTrailingSeparator(a: string, d: char)
    ensures Split(a + [d], d) == Split(a, d) + [[]]
  {
    var s := a + [d];
    if a == [] {
      assert s[1..] == [];
    } else {
      assert s[1..] == a[1..] + [d];
      SplitTrailingSeparator(a[1..], d);
      var rest := Split(a[1..], d);
      if a[0] != d {
        assert (rest + [[]])[0] == rest[0];
        assert (rest + [[]])[1..] == rest[1..] + [[]];
      }
    }
  }

  /** How `split` treats the first character of a text. */
  lemma SplitCons(c: char, t: string, d: char)
    ensures Split([c] + t, d) ==
              if c == d then [[]] + Split(t, d) else [[c] + Split(t, d)[0]] + Split(t, d)[1..]
  {
    assert ([c] + t)[1..] == t;
  }

  /** Extending the first piece commutes with appending further pieces. */
  lemma ExtendFirstAppend(x: string, left: seq<string>, right: seq<string>)
    requires |left| >= 1
    ensures [x + left[0]] + left[1..] + right == [x + (left + right)[0]] + (left + right)[1..]
  {
    assert (left + right)[0] == left[0];
    assert (left + right)[1..] == left[1..] + right;
  }

  /** The pieces of text on either side of a separator stay apart and in order. */
  lemma {:induction false} SplitAtSeparator(a: string, b: string, d: char)
    ensures Split(a + [d] + b, d) == Split(a, d) + Split(b, d)
  {
    if a == [] {
      assert a + [d] + b == [d] + b;
      SplitCons(d, b, d);
    } else {
      var t := a[1..];
      var u := t + [d] + b;
      assert a == [a[0]] + t;
      assert a + [d] + b == [a[0]] + u;
      SplitAtSeparator(t, b, d);
      SplitCons(a[0], u, d);
      SplitCons(a[0], t, d);
      if a[0] != d {
        ExtendFirstAppend([a[0]], Split(t, d), Split(b, d));
      }
    }
  }

  /** Every item with `pad` put in front of it. */
  function Padded(pad: string, xs: seq<string>): (r: seq<string>)
    ensures |r| == |xs|
    ensures forall i :: 0 <= i < |xs| ==> r[i] == pad + xs[i]
  {
    if xs == [] then [] else [pad + xs[0]] + Padded(pad, xs[1..])
  }

  /** Splitting items joined with the separator followed by `pad` gives the
      items back, every one after the first one carrying `pad` in front. */
  lemma {:induction false} SplitJoin(prefix: string, xs: seq<string>, d: char, pad: string)
    requires |xs| >= 1
    requires d !in prefix && d !in pad
    requires forall i :: 0 <= i < |xs| ==> d !in xs[i]
    ensures Split(prefix + Join(xs, [d] + pad), d) == [prefix + xs[0]] + Padded(pad, xs[1..])
    decreases |xs|
  {
    if |xs| == 1 {
      SplitNoSeparator(prefix + xs[0], d);
    } else {
      var sep := [d] + pad;
      var tail := Join(xs[1..], sep);
      assert prefix + Join(xs, sep) == (prefix + xs[0]) + [d] + (pad + tail);
      SplitAtFirstSeparator(prefix + xs[0], pad + tail, d);
      SplitJoin(pad, xs[1..], d, pad);
      assert xs[1..][1..] == xs[2..];
    }
  }

  // ---------------------------------------------------------------------------
  // trim and filter(Boolean)

  /** `s` without its leading whitespace. */
  function TrimStart(s: string): (r: string)
    ensures |r| <= |s|
    ensures r == [] || !IsSpace(r[0])
  {
    if s != [] && IsSpace(s[0]) then TrimStart(s[1..]) else s
  }

  /** `s` without its trailing whitespace. */
  function TrimEnd(s: string): (r: string)
    ensures |r| <= |s|
    ensures r == [] || !IsSpace(r[|r| - 1])
  {
    if s != [] && IsSpace(s[|s| - 1]) then TrimEnd(s[..|s| - 1]) else s
  }

  /** TrimStart keeps a suffix and what it takes off is whitespace. */
  lemma {:induction false} TrimStartSuffix(s: string)
    ensures TrimStart(s) == s[|s| - |TrimStart(s)|..]
    ensures AllSpace(s[..|s| - |TrimStart(s)|])
  {
    if s != [] && IsSpace(s[0]) {
      TrimStartSuffix(s[1..]);
      var k := |s| - |TrimStart(s)|;
      assert s[..k] == [s[0]] + s[1..][..k - 1];
    }
  }

  /** TrimEnd keeps a prefix and what it takes off is whitespace. */
  lemma {:induction false} TrimEndPrefix(s: string)
    ensures TrimEnd(s) == s[..|TrimEnd(s)|]
    ensures AllSpace(s[|TrimEnd(s)|..])
  {
    if s != [] && IsSpace(s[|s| - 1]) {
      var u := s[..|s| - 1];
      TrimEndPrefix(u);
      assert s[|TrimEnd(s)|..] == u[|TrimEnd(u)|..] + [s[|s| - 1]];
    }
  }

  /** How many leading whitespace characters `s.trim()` removes. */
  function Lead(s: string): (n: nat)
    ensures n <= |s|
  {
    |s| - |TrimStart(s)|
  }

  /** `s.trim()`: `s` without whitespace at either end. */
  function Trim(s: string): (r: string)
    ensures |r| <= |s|
    ensures Trimmed(r)
  {
    var t := TrimStart(s);
    TrimEndPrefix(t);
    TrimEnd(t)
  }

  /** `trim` takes off whitespace only: the text is the trimmed text with a run
      of whitespace on either side. */
  lemma TrimIsFactor(s: string)
    ensures Lead(s) + |Trim(s)| <= |s|
    ensures s == s[..Lead(s)] + Trim(s) + s[Lead(s) + |Trim(s)|..]
    ensures AllSpace(s[..Lead(s)]) && AllSpace(s[Lead(s) + |Trim(s)|..])
  {
    var t := TrimStart(s);
    TrimStartSuffix(s);
    TrimEndPrefix(t);
    assert Trim(s) == t[..|Trim(s)|];
    assert s[Lead(s) + |Trim(s)|..] == t[|Trim(s)|..];
  }

  /** Trimming changes nothing in text that is already trimmed. */
  lemma TrimOfTrimmed(s: string)
    requires Trimmed(s)
    ensures Trim(s) == s
  {
  }

  /** A character of the trimmed text is a character of the text. */
  lemma TrimKeepsCharacters(s: string, c: char)
    requires c in Trim(s)
    ensures c in s
  {
    TrimIsFactor(s);
    var w := s[..Lead(s)] + Trim(s) + s[Lead(s) + |Trim(s)|..];
    assert c in w;
  }

  /** Leading whitespace disappears when trimming. */
  lemma TrimLeadingSpace(c: char, s: string)
    requires IsSpace(c)
    ensures Trim([c] + s) == Trim(s)
  {
    assert ([c] + s)[1..] == s;
  }

  /** `xs.map(s => s.trim())`. */
  function TrimAll(xs: seq<string>): (r: seq<string>)
    ensures |r| == |xs|
    ensures forall i :: 0 <= i < |xs| ==> r[i] == Trim(xs[i])
  {
    seq(|xs|, i requires 0 <= i < |xs| => Trim(xs[i]))
  }

  /** Trimming item by item distributes over concatenation (a step of the order lemmas and round trips). */
  lemma TrimAllAppend(a: seq<string>, b: seq<string>)
    ensures TrimAll(a + b) == TrimAll(a) + TrimAll(b)
  {
    assert forall i :: 0 <= i < |a + b| ==> TrimAll(a + b)[i] == (TrimAll(a) + TrimAll(b))[i];
  }

  /** `xs.filter(Boolean)` on strings: the non-empty items, in order. */
  function DropEmpty(xs: seq<string>): (r: seq<string>)
    ensures |r| <= |xs|
    ensures forall i :: 0 <= i < |r| ==> r[i] != []
  {
    if xs == [] then []
    else (if xs[0] == [] then [] else [xs[0]]) + DropEmpty(xs[1..])
  }

  /** The filter keeps exactly the non-empty items. */
  lemma {:induction false} DropEmptyMembers(xs: seq<string>, x: string)
    ensures x in DropEmpty(xs) <==> x in xs && x != []
  {
    if xs != [] {
      DropEmptyMembers(xs[1..], x);
      assert xs == [xs[0]] + xs[1..];
    }
  }

  /** Filtering distributes over concatenation, so the kept items stay in their order. */
  lemma {:induction false} DropEmptyAppend(a: seq<string>, b: seq<string>)
    ensures DropEmpty(a + b) == DropEmpty(a) + DropEmpty(b)
  {
    if a != [] {
      assert (a + b)[0] == a[0];
      assert (a + b)[1..] == a[1..] + b;
      DropEmptyAppend(a[1..], b);
      var h := if a[0] == [] then [] else [a[0]];
      assert DropEmpty(a + b) == h + DropEmpty(a[1..] + b);
      assert DropEmpty(a) == h + DropEmpty(a[1..]);
    } else {
      assert a + b == b;
    }
  }

  /** Filtering changes nothing when no item is empty. */
  lemma {:induction false} DropEmptyNoneEmpty(xs: seq<string>)
    requires forall i :: 0 <= i < |xs| ==> xs[i] != []
    ensures DropEmpty(xs) == xs
  {
    if xs != [] {
      DropEmptyNoneEmpty(xs[1..]);
      assert xs == [xs[0]] + xs[1..];
    }
  }

  // ---------------------------------------------------------------------------
  // the two field codecs

  /** An item the skills field can hold: non-empty, trimmed, comma-free. */
  predicate IsSkillItem(x: string) {
    x != [] && Trimmed(x) && ',' !in x
  }

  /** An item an achievements or certifications field can hold: non-empty and on one line. */
  predicate IsLineItem(x: string) {
    x != [] && '\n' !in x
  }

  /** Every item of a filtered list is a non-empty item of the list it came from. */
  lemma DropEmptyFrom(xs: seq<string>, i: nat)
    requires i < |DropEmpty(xs)|
    ensures exists j :: 0 <= j < |xs| && xs[j] == DropEmpty(xs)[i] && xs[j] != []
  {
    DropEmptyMembers(xs, DropEmpty(xs)[i]);
  }

  /** The trimmed comma pieces that survive the filter are skill items. */
  lemma SkillPiecesAreItems(text: string)
    ensures forall i :: 0 <= i < |DropEmpty(TrimAll(Split(text, ',')))| ==> IsSkillItem(DropEmpty(TrimAll(Split(text, ',')))[i])
  {
    var pieces := Split(text, ',');
    var items := DropEmpty(TrimAll(pieces));
    forall i | 0 <= i < |items|
      ensures IsSkillItem(items[i])
    {
      DropEmptyFrom(TrimAll(pieces), i);
      var j :| 0 <= j < |pieces| && TrimAll(pieces)[j] == items[i];
      if ',' in items[i] {
        TrimKeepsCharacters(pieces[j], ',');
      }
    }
  }

  /** `value.split(",").map(s => s.trim()).filter(Boolean)`. */
  function ParseSkills(text: string): (items: seq<string>)
    ensures forall i :: 0 <= i < |items| ==> IsSkillItem(items[i])
  {
    SkillPiecesAreItems(text);
    DropEmpty(TrimAll(Split(text, ',')))
  }

  /** Every skill comes from a comma piece: it is that piece trimmed. */
  lemma SkillFromPiece(text: string, x: string)
    requires x in ParseSkills(text)
    ensures x != [] && exists p :: p in Split(text, ',') && Trim(p) == x
  {
    var pieces := Split(text, ',');
    var t := TrimAll(pieces);
    DropEmptyMembers(t, x);
    var j :| 0 <= j < |t| && t[j] == x;
    assert pieces[j] in pieces;
  }

  /** Every comma piece that is not blank gives a skill: its trimmed text. */
  lemma PieceGivesSkill(text: string, p: string)
    requires p in Split(text, ',') && Trim(p) != []
    ensures Trim(p) in ParseSkills(text)
  {
    var pieces := Split(text, ',');
    var t := TrimAll(pieces);
    var j :| 0 <= j < |pieces| && pieces[j] == p;
    assert t[j] == Trim(p);
    DropEmptyMembers(t, Trim(p));
  }

  /** `skills.join(", ")`, the text the skills input shows. */
  function DisplaySkills(items: seq<string>): string {
    Join(items, ", ")
  }

  /** `value.split("\n").filter(Boolean)`: every non-empty line is kept as it is,
      whitespace-only lines included. */
  function ParseLines(text: string): (items: seq<string>)
    ensures forall i :: 0 <= i < |items| ==> IsLineItem(items[i])
    ensures forall x :: x in items <==> x in Split(text, '\n') && x != []
  {
    var pieces := Split(text, '\n');
    var items := DropEmpty(pieces);
    forall i | 0 <= i < |items|
      ensures IsLineItem(items[i])
    {
      DropEmptyFrom(pieces, i);
    }
    forall x
      ensures x in items <==> x in pieces && x != []
    {
      DropEmptyMembers(pieces, x);
    }
    items
  }

  /** `lines.join("\n")`, the text the achievements and certifications areas show. */
  function DisplayLines(items: seq<string>): string {
    Join(items, "\n")
  }

  /** The skills of two comma-separated texts come out in the order of the texts. */
  lemma SkillsKeepOrder(a: string, b: string)
    ensures ParseSkills(a + "," + b) == ParseSkills(a) + ParseSkills(b)
  {
    SplitAtSeparator(a, b, ',');
    TrimAllAppend(Split(a, ','), Split(b, ','));
    DropEmptyAppend(TrimAll(Split(a, ',')), TrimAll(Split(b, ',')));
  }

  /** The lines of two texts come out in the order of the texts. */
  lemma LinesKeepOrder(a: string, b: string)
    ensures ParseLines(a + "\n" + b) == ParseLines(a) + ParseLines(b)
  {
    SplitAtSeparator(a, b, '\n');
    DropEmptyAppend(Split(a, '\n'), Split(b, '\n'));
  }

  // ---------------------------------------------------------------------------
  // round trips

  /** A comma-separated piece after the first one arrives with the blank of ", "
      in front; trimming removes it again. */
  lemma TrimPaddedSkills(xs: seq<string>)
    requires forall i :: 0 <= i < |xs| ==> IsSkillItem(xs[i])
    ensures TrimAll(Padded(" ", xs)) == xs
  {
    forall i | 0 <= i < |xs|
      ensures TrimAll(Padded(" ", xs))[i] == xs[i]
    {
      TrimLeadingSpace(' ', xs[i]);
      TrimOfTrimmed(xs[i]);
    }
  }

  /** The comma pieces of the displayed skills: the first skill, then every
      other skill with the blank of ", " in front. */
  lemma SplitDisplayedSkills(xs: seq<string>)
    requires |xs| >= 1
    requires forall i :: 0 <= i < |xs| ==> ',' !in xs[i]
    ensures Split(DisplaySkills(xs), ',') == [xs[0]] + Padded(" ", xs[1..])
  {
    SplitJoin([], xs, ',', " ");
    assert [','] + " " == ", ";
    assert [] + DisplaySkills(xs) == DisplaySkills(xs);
    assert [] + xs[0] == xs[0];
  }

  /** Skills that are non-empty, trimmed and comma-free survive display and parse. */
  lemma SkillsRoundTrip(xs: seq<string>)
    requires forall i :: 0 <= i < |xs| ==> IsSkillItem(xs[i])
    ensures ParseSkills(DisplaySkills(xs)) == xs
  {
    if xs == [] {
      assert Split([], ',') == [[]];
    } else {
      SplitDisplayedSkills(xs);
      var pieces := [xs[0]] + Padded(" ", xs[1..]);
      TrimAllAppend([xs[0]], Padded(" ", xs[1..]));
      TrimOfTrimmed(xs[0]);
      TrimPaddedSkills(xs[1..]);
      assert TrimAll(pieces) == [xs[0]] + xs[1..] == xs;
      DropEmptyNoneEmpty(xs);
    }
  }

  /** Re-parsing the displayed skills gives the same skills: parsing is idempotent
      through the display form. */
  lemma SkillsParseIdempotent(text: string)
    ensures ParseSkills(DisplaySkills(ParseSkills(text))) == ParseSkills(text)
  {
    SkillsRoundTrip(ParseSkills(text));
  }

  /** Lines that are non-empty and contain no line break survive display and parse. */
  lemma LinesRoundTrip(xs: seq<string>)
    requires forall i :: 0 <= i < |xs| ==> IsLineItem(xs[i])
    ensures ParseLines(DisplayLines(xs)) == xs
  {
    if xs == [] {
      assert Split([], '\n') == [[]];
    } else {
      SplitJoin([], xs, '\n', []);
      assert ['\n'] + [] == "\n";
      assert [] + Join(xs, "\n") == DisplayLines(xs);
      assert [] + xs[0] == xs[0];
      assert forall i :: 0 <= i < |xs[1..]| ==> Padded([], xs[1..])[i] == [] + xs[1..][i] == xs[1..][i];
      assert Padded([], xs[1..]) == xs[1..];
      assert [xs[0]] + xs[1..] == xs;
      DropEmptyNoneEmpty(xs);
    }
  }

  /** Re-parsing the displayed lines gives the same lines. */
  lemma LinesParseIdempotent(text: string)
    ensures ParseLines(DisplayLines(ParseLines(text))) == ParseLines(text)
  {
    LinesRoundTrip(ParseLines(text));
  }

  /** The input shows the parsed list, so a comma typed at the end of the shown
      text parses to the same list and vanishes from the input on the next render. */
  lemma SkillsTrailingCommaAbsorbed(xs: seq<string>)
    requires forall i :: 0 <= i < |xs| ==> IsSkillItem(xs[i])
    ensures ParseSkills(DisplaySkills(xs) + ",") == xs
  {
    var t := DisplaySkills(xs);
    var pieces := Split(t, ',');
    assert t + "," == t + [','];
    SplitTrailingSeparator(t, ',');
    assert Split(t + ",", ',') == pieces + [[]];
    TrimAllAppend(pieces, [[]]);
    assert Trim([]) == [];
    assert TrimAll([[]]) == [[]];
    DropEmptyAppend(TrimAll(pieces), [[]]);
    assert DropEmpty([[]]) == [];
    assert DropEmpty(TrimAll(pieces) + [[]]) == DropEmpty(TrimAll(pieces));
    SkillsRoundTrip(xs);
  }

  /** Likewise a line break typed at the end of the shown lines is absorbed, so a
      new last line cannot be started by typing. */
  lemma LinesTrailingBreakAbsorbed(xs: seq<string>)
    requires forall i :: 0 <= i < |xs| ==> IsLineItem(xs[i])
    ensures ParseLines(DisplayLines(xs) + "\n") == xs
  {
    var t := DisplayLines(xs);
    SplitTrailingSeparator(t, '\n');
    DropEmptyAppend(Split(t, '\n'), [[]]);
    LinesRoundTrip(xs);
  }

  /** Four separator-free pieces joined by three separators split back into them (the split step of `SkillsDropBlankPieces` and `LinesDropEmptyLine`). */
  lemma SplitFourPieces(p0: string, p1: string, p2: string, p3: string, d: char)
    requires d !in p0 && d !in p1 && d !in p2 && d !in p3
    ensures Split(p0 + [d] + p1 + [d] + p2 + [d] + p3, d) == [p0, p1, p2, p3]
  {
    var s1 := p0 + [d] + p1;
    var s2 := s1 + [d] + p2;
    SplitNoSeparator(p0, d);
    SplitNoSeparator(p1, d);
    SplitNoSeparator(p2, d);
    SplitNoSeparator(p3, d);
    SplitAtSeparator(p0, p1, d);
    SplitAtSeparator(s1, p2, d);
    SplitAtSeparator(s2, p3, d);
  }

  /** The split step of `SkillsDropBlankPieces`: `a, b, , c` splits into four pieces, one of them a lone blank. */
  lemma BlankPieceSplit(a: string, b: string, c: string)
    requires IsSkillItem(a) && IsSkillItem(b) && IsSkillItem(c)
    ensures Split(a + ", " + b + ", , " + c, ',') == [a, " " + b, " ", " " + c]
  {
    var t := a + ", " + b + ", , " + c;
    assert ", " == [','] + " " && ", , " == [','] + " " + [','] + " ";
    assert t == a + [','] + (" " + b) + [','] + " " + [','] + (" " + c);
    SplitFourPieces(a, " " + b, " ", " " + c, ',');
  }

  /** The trim step of `SkillsDropBlankPieces`: the blanks of `", "` go and the lone blank becomes empty. */
  lemma BlankPieceTrim(a: string, b: string, c: string)
    requires IsSkillItem(a) && IsSkillItem(b) && IsSkillItem(c)
    ensures TrimAll([a, " " + b, " ", " " + c]) == [a, b, [], c]
  {
    TrimOfTrimmed(a);
    TrimLeadingSpace(' ', b);
    TrimOfTrimmed(b);
    assert " " == [' '] + [];
    TrimLeadingSpace(' ', []);
    TrimLeadingSpace(' ', c);
    TrimOfTrimmed(c);
  }

  /** The filter step of `SkillsDropBlankPieces`: the empty piece is dropped. */
  lemma BlankPieceFilter(a: string, b: string, c: string)
    requires IsSkillItem(a) && IsSkillItem(b) && IsSkillItem(c)
    ensures DropEmpty([a, b, [], c]) == [a, b, c]
  {
    assert [a, b] + [[], c] == [a, b, [], c];
    DropEmptyAppend([a, b], [[], c]);
    DropEmptyNoneEmpty([a, b]);
    assert DropEmpty([[], c]) == [c];
  }

  /** A blank piece between two commas, as in "Oracle, SQL Server, , MySQL",
      gives no skill. */
  lemma SkillsDropBlankPieces(a: string, b: string, c: string)
    requires IsSkillItem(a) && IsSkillItem(b) && IsSkillItem(c)
    ensures ParseSkills(a + ", " + b + ", , " + c) == [a, b, c]
  {
    BlankPieceSplit(a, b, c);
    BlankPieceTrim(a, b, c);
    BlankPieceFilter(a, b, c);
  }

  /** An empty line between two lines is dropped, and the lines around it come
      out as they are and in order. */
  lemma LinesDropEmptyLine(a: string, w: string, b: string)
    requires IsLineItem(a) && IsLineItem(w) && IsLineItem(b)
    ensures ParseLines(a + "\n" + w + "\n\n" + b) == [a, w, b]
  {
    var t := a + "\n" + w + "\n\n" + b;
    assert t == a + ['\n'] + w + ['\n'] + [] + ['\n'] + b;
    SplitFourPieces(a, w, [], b, '\n');
    DropEmptyAppend([a, w], [[], b]);
    DropEmptyNoneEmpty([a, w]);
    assert DropEmpty([[], b]) == [b];
    assert [a, w] + [[], b] == [a, w, [], b];
  }

  /** In particular a line holding only a blank survives parsing. */
  lemma LinesKeepWhitespaceOnlyLine()
    ensures ParseLines(" ") == [" "]
  {
    SplitNoSeparator(" ", '\n');
  }
}
