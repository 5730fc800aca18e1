/** The gateway's query builder and the proof that its output says what was asked. */
module DriveQuery {
  import opened Wrappers
  import opened DriveLanguage

  // ------------------------------------------------------------------ escaping

  /** `str.replace` with a one-character pattern. */
  function Replace(s: string, c: char, repl: string): string {
    if s == [] then [] else (if s[0] == c then repl else [s[0]]) + Replace(s[1..], c, repl)
  }

  /** Two passes: backslashes first, then quotes. */
  function Escape(s: string): string {
    Replace(Replace(s, '\\', "\\\\"), '\'', "\\'")
  }

  function EscapeChar(c: char): string {
    if c == '\\' then "\\\\" else if c == '\'' then "\\'" else [c]
  }

  /** The same as one pass that treats every character on its own. */
  function EscapeEach(s: string): string {
    if s == [] then [] else EscapeChar(s[0]) + EscapeEach(s[1..])
  }

  lemma {:induction false} ReplaceConcat(a: string, b: string, c: char, repl: string)
    ensures Replace(a + b, c, repl) == Replace(a, c, repl) + Replace(b, c, repl)
  {
    if a == [] {
      assert a + b == b;
    } else {
      assert (a + b)[1..] == a[1..] + b;
      ReplaceConcat(a[1..], b, c, repl);
    }
  }

  lemma {:induction false} EscapeIsCharacterwise(s: string)
    ensures Escape(s) == EscapeEach(s)
  {
    if s != [] {
      var first := if s[0] == '\\' then "\\\\" else [s[0]];
      EscapeIsCharacterwise(s[1..]);
      ReplaceConcat(first, Replace(s[1..], '\\', "\\\\"), '\'', "\\'");
      assert Replace([], '\'', "\\'") == [];
      assert [s[0]][1..] == [];
      assert "\\\\"[1..] == ['\\'] && ['\\'][1..] == [];
      assert Replace(first, '\'', "\\'") == EscapeChar(s[0]);
    }
  }

  /** Reading an escaped literal gives back the text, whatever quotes and backslashes it holds. */
  lemma {:induction false} LiteralRoundTrip(s: string, rest: string)
    ensures ReadLiteral(Escape(s) + "'" + rest) == Some((s, rest))
  {
    EscapeIsCharacterwise(s);
    if s == [] {
      assert Escape(s) + "'" + rest == "'" + rest;
      assert ("'" + rest)[1..] == rest;
    } else {
      EscapeIsCharacterwise(s[1..]);
      LiteralRoundTrip(s[1..], rest);
      var tail := Escape(s[1..]) + "'" + rest;
      var q := Escape(s) + "'" + rest;
      assert q == EscapeChar(s[0]) + tail;
      assert q[|EscapeChar(s[0])|..] == tail;
      assert [s[0]] + s[1..] == s;
    }
  }

  /** A text without quotes or backslashes is its own escape. */
  lemma {:induction false} PlainEscape(s: string)
    requires forall i | 0 <= i < |s| :: s[i] != '\\' && s[i] != '\''
    ensures Escape(s) == s
  {
    EscapeIsCharacterwise(s);
    if s != [] {
      PlainEscape(s[1..]);
      EscapeIsCharacterwise(s[1..]);
      assert s == [s[0]] + s[1..];
    }
  }

  // --------------------------------------------------------------------- dates

  /** `datetime.date`. */
  datatype Date = Date(year: nat, month: nat, day: nat) {
    predicate Valid() {
      1 <= year <= 9999 && 1 <= month <= 12 && 1 <= day <= 31
    }
  }

  function Digit(n: nat): char
    requires n < 10
  {
    (n + '0' as int) as char
  }

  function Pad(n: nat, width: nat): (s: string)
    ensures |s| == width && forall c <- s :: '0' <= c <= '9'
  {
    if width == 0 then [] else Pad(n / 10, width - 1) + [Digit(n % 10)]
  }

  function IsoFormat(d: Date): string {
    Pad(d.year, 4) + "-" + Pad(d.month, 2) + "-" + Pad(d.day, 2)
  }

  ghost function Pow10(k: nat): nat {
    if k == 0 then 1 else 10 * Pow10(k - 1)
  }

  lemma {:induction false} NumberRoundTrip(n: nat, width: nat)
    requires n < Pow10(width)
    ensures Number(Pad(n, width)) == Some(n)
  {
    if width > 0 {
      var q, d := n / 10, n % 10;
      OneDigitLess(n, Pow10(width - 1));
      NumberRoundTrip(q, width - 1);
      NumberSnoc(Pad(q, width - 1), q, d);
    }
  }

  lemma OneDigitLess(n: nat, p: nat)
    requires n < 10 * p
    ensures n / 10 < p && n == 10 * (n / 10) + n % 10
  {
  }

  lemma NumberSnoc(s: string, n: nat, d: nat)
    requires Number(s) == Some(n) && d < 10
    ensures Number(s + [Digit(d)]) == Some(10 * n + d)
  {
    var t := s + [Digit(d)];
    assert t[..|t| - 1] == s && t[|t| - 1] == Digit(d);
  }

  lemma PartsRoundTrip(d: Date)
    requires d.Valid()
    ensures Number(Pad(d.year, 4)) == Some(d.year)
    ensures Number(Pad(d.month, 2)) == Some(d.month) && Number(Pad(d.day, 2)) == Some(d.day)
    ensures Number("00") == Some(0)
  {
    assert Pow10(2) == 100 && Pow10(4) == 100 * Pow10(2);
    NumberRoundTrip(d.year, 4);
    NumberRoundTrip(d.month, 2);
    NumberRoundTrip(d.day, 2);
    NumberRoundTrip(0, 2);
    assert Pad(0, 2) == "00";
  }

  lemma StampRoundTrip(d: Date)
    requires d.Valid()
    ensures ReadStamp(IsoFormat(d) + "T00:00:00") == Some(Midnight(d))
  {
    var s := IsoFormat(d) + "T00:00:00";
    PartsRoundTrip(d);
    StampParts(Pad(d.year, 4), Pad(d.month, 2), Pad(d.day, 2));
  }

  lemma StampParts(y: string, m: string, d: string)
    requires |y| == 4 && |m| == 2 && |d| == 2
    ensures
      var s := y + "-" + m + "-" + d + "T00:00:00";
      && |s| == 19 && s[4] == '-' && s[7] == '-' && s[10] == 'T' && s[13] == ':' && s[16] == ':'
      && s[..4] == y && s[5..7] == m && s[8..10] == d && s[11..13] == "00" && s[14..16] == "00" && s[17..] == "00"
  {
    var s := y + "-" + m + "-" + d + "T00:00:00";
    assert s[5] == m[0] && s[6] == m[1] && s[8] == d[0] && s[9] == d[1];
    assert s[11] == '0' && s[12] == '0' && s[14] == '0' && s[15] == '0' && s[17] == '0' && s[18] == '0';
  }

  // -------------------------------------------------------------------- filters

  datatype Filters = Filters(
    nameContains: Option<string>, fullText: Option<string>, mimeType: Option<string>,
    inFolder: Option<string>, modifiedAfter: Option<Date>, includeTrashed: bool)

  /** Python's truth of `str | None`. */
  predicate Given(o: Option<string>) {
    o.Some? && o.value != ""
  }

  /** What the caller asked for, filter by filter. */
  function AskedName(f: Filters): seq<Clause> {
    if Given(f.nameContains) then [NameContains(f.nameContains.value)] else []
  }

  function AskedText(f: Filters): seq<Clause> {
    if Given(f.fullText) then [FullTextContains(f.fullText.value)] else []
  }

  function AskedMime(f: Filters): seq<Clause> {
    if Given(f.mimeType) then [MimeTypeIs(f.mimeType.value)] else []
  }

  function AskedFolder(f: Filters): seq<Clause> {
    if Given(f.inFolder) then [InParents(f.inFolder.value)] else []
  }

  function Midnight(d: Date): Stamp {
    Stamp(d.year, d.month, d.day, 0, 0, 0)
  }

  function AskedDate(f: Filters): seq<Clause> {
    if f.modifiedAfter.Some? then [ModifiedAfter(Midnight(f.modifiedAfter.value))] else []
  }

  function AskedTrash(f: Filters): seq<Clause> {
    if f.includeTrashed then [] else [TrashedIs(false)]
  }

  function Asked(f: Filters): seq<Clause> {
    AskedName(f) + AskedText(f) + AskedMime(f) + AskedFolder(f) + AskedDate(f) + AskedTrash(f)
  }

  function Join(sep: string, parts: seq<string>): string {
    if parts == [] then ""
    else if |parts| == 1 then parts[0]
    else parts[0] + sep + Join(sep, parts[1..])
  }

  // -------------------------------------------------------------------- reading

  /** `text`, wherever it stands before a space or the end, lexes to three tokens that read as `c`. */
  ghost predicate Says(text: string, c: Clause) {
    exists x, y, z :: ReadClause(x, y, z) == Some(c) && Reads(text, x, y, z)
  }

  predicate Ends(rest: string) {
    rest == [] || rest[0] == ' '
  }

  ghost predicate Reads(text: string, x: Token, y: Token, z: Token) {
    forall rest | Ends(rest) :: Lex(text + rest) == WithToken(x, WithToken(y, WithToken(z, Lex(rest))))
  }

  lemma {:induction false} WordLengthOf(w: string, rest: string)
    requires (forall c <- w :: IsLetter(c)) && (rest == [] || !IsLetter(rest[0]))
    ensures WordLength(w + rest) == |w|
  {
    if w == [] {
      assert w + rest == rest;
    } else {
      assert (w + rest)[1..] == w[1..] + rest;
      WordLengthOf(w[1..], rest);
    }
  }

  lemma LexWord(w: string, rest: string)
    requires w != [] && (forall c <- w :: IsLetter(c)) && (rest == [] || !IsLetter(rest[0]))
    ensures Lex(w + rest) == WithToken(Word(w), Lex(rest))
  {
    WordLengthOf(w, rest);
    assert (w + rest)[..|w|] == w && (w + rest)[|w|..] == rest;
    assert IsLetter((w + rest)[0]);
  }

  lemma LexSpace(rest: string)
    ensures Lex(" " + rest) == Lex(rest)
  {
    assert (" " + rest)[1..] == rest;
  }

  lemma LexLiteral(s: string, rest: string)
    ensures Lex("'" + Escape(s) + "'" + rest) == WithToken(Literal(s), Lex(rest))
  {
    var q := "'" + Escape(s) + "'" + rest;
    assert q[1..] == Escape(s) + "'" + rest;
    LiteralRoundTrip(s, rest);
  }

  /** `word` and a space. */
  lemma LexWordSpace(w: string, rest: string)
    requires w != [] && forall c <- w :: IsLetter(c)
    ensures Lex(w + " " + rest) == WithToken(Word(w), Lex(rest))
  {
    assert w + " " + rest == w + (" " + rest);
    LexWord(w, " " + rest);
    LexSpace(rest);
  }

  /** `=` or `>` and a space. */
  lemma LexOperator(op: string, token: Token, rest: string)
    requires (op == "= " && token == Equals) || (op == "> " && token == Greater)
    ensures Lex(op + rest) == WithToken(token, Lex(rest))
  {
    assert (op + rest)[1..] == " " + rest;
    LexSpace(rest);
  }

  /** `word contains 'value'`. */
  lemma ReadsContains(w: string, s: string)
    requires w != [] && forall c <- w :: IsLetter(c)
    ensures Reads(w + " contains '" + Escape(s) + "'", Word(w), Word("contains"), Literal(s))
  {
    forall rest | Ends(rest)
      ensures Lex(w + " contains '" + Escape(s) + "'" + rest)
           == WithToken(Word(w), WithToken(Word("contains"), WithToken(Literal(s), Lex(rest))))
    {
      var lit := "'" + Escape(s) + "'" + rest;
      ContainsText(w, Escape(s), rest);
      LexWordSpace(w, "contains" + " " + lit);
      LexWordSpace("contains", lit);
      LexLiteral(s, rest);
    }
  }

  lemma ContainsText(w: string, e: string, rest: string)
    ensures w + " contains '" + e + "'" + rest == w + " " + ("contains" + " " + ("'" + e + "'" + rest))
  {
    assert " contains '" == " " + ("contains" + " " + "'");
  }

  /** `word = 'value'` and `word > 'value'`. */
  lemma ReadsOperator(w: string, op: string, token: Token, s: string)
    requires w != [] && forall c <- w :: IsLetter(c)
    requires (op == "= " && token == Equals) || (op == "> " && token == Greater)
    ensures Reads(w + " " + op + "'" + Escape(s) + "'", Word(w), token, Literal(s))
  {
    forall rest | Ends(rest)
      ensures Lex(w + " " + op + "'" + Escape(s) + "'" + rest)
           == WithToken(Word(w), WithToken(token, WithToken(Literal(s), Lex(rest))))
    {
      var lit := "'" + Escape(s) + "'" + rest;
      assert w + " " + op + "'" + Escape(s) + "'" + rest == w + " " + (op + lit);
      LexWordSpace(w, op + lit);
      LexOperator(op, token, lit);
      LexLiteral(s, rest);
    }
  }

  lemma ReadsParents(s: string)
    ensures Reads("'" + Escape(s) + "' in parents", Literal(s), Word("in"), Word("parents"))
  {
    forall rest | Ends(rest)
      ensures Lex("'" + Escape(s) + "' in parents" + rest)
           == WithToken(Literal(s), WithToken(Word("in"), WithToken(Word("parents"), Lex(rest))))
    {
      var tail := "in" + " " + ("parents" + rest);
      ParentsText(Escape(s), rest);
      LexLiteral(s, " " + tail);
      LexSpace(tail);
      LexWordSpace("in", "parents" + rest);
      LexWord("parents", rest);
    }
  }

  lemma ParentsText(e: string, rest: string)
    ensures "'" + e + "' in parents" + rest == "'" + e + "'" + (" " + ("in" + " " + ("parents" + rest)))
  {
    assert "' in parents" == "'" + " " + "in" + " " + "parents";
  }

  lemma ReadsTrashed()
    ensures Reads("trashed = false", Word("trashed"), Equals, Word("false"))
  {
    forall rest | Ends(rest)
      ensures Lex("trashed = false" + rest)
           == WithToken(Word("trashed"), WithToken(Equals, WithToken(Word("false"), Lex(rest))))
    {
      var tail := "= " + ("false" + rest);
      assert "trashed = false" + rest == "trashed" + " " + tail;
      LexWordSpace("trashed", tail);
      LexOperator("= ", Equals, "false" + rest);
      LexWord("false", rest);
    }
  }

  // ---------------------------------------------------------------- the builder

  lemma DateIsPlain(d: Date)
    ensures Escape(IsoFormat(d) + "T00:00:00") == IsoFormat(d) + "T00:00:00"
  {
    var s := IsoFormat(d) + "T00:00:00";
    forall i | 0 <= i < |s| ensures s[i] != '\\' && s[i] != '\'' {
      assert s[i] in Pad(d.year, 4) || s[i] in Pad(d.month, 2) || s[i] in Pad(d.day, 2) || s[i] in "-T0:";
    }
    PlainEscape(s);
  }

  lemma SaysName(s: string)
    ensures Says("name contains '" + Escape(s) + "'", NameContains(s))
  {
    ReadsContains("name", s);
    assert "name contains '" + Escape(s) + "'" == "name" + " contains '" + Escape(s) + "'";
    assert ReadClause(Word("name"), Word("contains"), Literal(s)) == Some(NameContains(s));
  }

  lemma SaysFullText(s: string)
    ensures Says("fullText contains '" + Escape(s) + "'", FullTextContains(s))
  {
    ReadsContains("fullText", s);
    assert "fullText contains '" + Escape(s) + "'" == "fullText" + " contains '" + Escape(s) + "'";
    assert ReadClause(Word("fullText"), Word("contains"), Literal(s)) == Some(FullTextContains(s));
  }

  lemma SaysMimeType(s: string)
    ensures Says("mimeType = '" + Escape(s) + "'", MimeTypeIs(s))
  {
    ReadsOperator("mimeType", "= ", Equals, s);
    assert "mimeType = '" + Escape(s) + "'" == "mimeType" + " " + "= " + "'" + Escape(s) + "'";
    assert ReadClause(Word("mimeType"), Equals, Literal(s)) == Some(MimeTypeIs(s));
  }

  lemma SaysFolder(s: string)
    ensures Says("'" + Escape(s) + "' in parents", InParents(s))
  {
    ReadsParents(s);
    assert ReadClause(Literal(s), Word("in"), Word("parents")) == Some(InParents(s));
  }

  lemma SaysModified(d: Date)
    requires d.Valid()
    ensures Says("modifiedTime > '" + IsoFormat(d) + "T00:00:00'", ModifiedAfter(Midnight(d)))
  {
    DateIsPlain(d);
    ReadsModified(d);
    ReadsStamp(IsoFormat(d));
    SaysWhatItReads("modifiedTime > '" + IsoFormat(d) + "T00:00:00'",
                    Word("modifiedTime"), Greater, Literal(IsoFormat(d) + "T00:00:00"), ModifiedAfter(Midnight(d)));
  }

  lemma SaysWhatItReads(text: string, x: Token, y: Token, z: Token, c: Clause)
    requires Reads(text, x, y, z) && ReadClause(x, y, z) == Some(c)
    ensures Says(text, c)
  {
  }

  lemma ReadsStamp(date: string)
    requires Escape(date + "T00:00:00") == date + "T00:00:00"
    ensures Reads("modifiedTime > '" + date + "T00:00:00'", Word("modifiedTime"), Greater, Literal(date + "T00:00:00"))
  {
    ReadsOperator("modifiedTime", "> ", Greater, date + "T00:00:00");
    ModifiedText(date);
  }

  lemma ModifiedText(date: string)
    ensures "modifiedTime > '" + date + "T00:00:00'" == "modifiedTime" + " " + "> " + "'" + (date + "T00:00:00") + "'"
  {
    assert "modifiedTime > '" == "modifiedTime" + " " + "> " + "'" && "T00:00:00'" == "T00:00:00" + "'";
  }

  lemma ReadsModified(d: Date)
    requires d.Valid()
    ensures ReadClause(Word("modifiedTime"), Greater, Literal(IsoFormat(d) + "T00:00:00")) ==
            Some(ModifiedAfter(Midnight(d)))
  {
    StampRoundTrip(d);
  }

  lemma SaysTrashed()
    ensures Says("trashed = false", TrashedIs(false))
  {
    ReadsTrashed();
    assert ReadClause(Word("trashed"), Equals, Word("false")) == Some(TrashedIs(false));
  }

  /** Each text says the clause in its place. */
  ghost predicate AllSay(texts: seq<string>, cs: seq<Clause>) {
    |texts| == |cs| && forall i | 0 <= i < |texts| :: Says(texts[i], cs[i])
  }

  lemma LexAnd(q: string)
    ensures Lex(" and " + q) == WithToken(Word("and"), Lex(q))
  {
    assert " and " + q == " " + ("and" + " " + q);
    LexSpace("and" + " " + q);
    LexWordSpace("and", q);
  }

  lemma ThreeTokens(x: Token, y: Token, z: Token, ts: seq<Token>)
    ensures WithToken(x, WithToken(y, WithToken(z, Some(ts)))) == Some([x, y, z] + ts)
  {
    assert [x] + ([y] + ([z] + ts)) == [x, y, z] + ts;
  }

  lemma ReadsBefore(text: string, x: Token, y: Token, z: Token, rest: string, ts: seq<Token>)
    requires Reads(text, x, y, z) && Ends(rest) && Lex(rest) == Some(ts)
    ensures Lex(text + rest) == Some([x, y, z] + ts)
  {
    ThreeTokens(x, y, z, ts);
  }

  lemma OneClause(x: Token, y: Token, z: Token, c: Clause)
    requires ReadClause(x, y, z) == Some(c)
    ensures ReadClauses([x, y, z]) == Some([c])
  {
  }

  lemma MoreClauses(x: Token, y: Token, z: Token, c: Clause, ts: seq<Token>, cs: seq<Clause>)
    requires ReadClause(x, y, z) == Some(c) && ReadClauses(ts) == Some(cs)
    ensures ReadClauses([x, y, z] + ([Word("and")] + ts)) == Some([c] + cs)
  {
    var all := [x, y, z] + ([Word("and")] + ts);
    assert all[4..] == ts;
  }

  lemma ReadsOne(text: string, c: Clause)
    requires Says(text, c)
    ensures Lex(text).Some? && ReadClauses(Lex(text).value) == Some([c])
  {
    var x, y, z :| ReadClause(x, y, z) == Some(c) && Reads(text, x, y, z);
    ReadsBefore(text, x, y, z, [], []);
    assert text + [] == text && [x, y, z] + [] == [x, y, z];
    OneClause(x, y, z, c);
  }

  lemma ReadsMore(text: string, c: Clause, more: string, cs: seq<Clause>)
    requires Says(text, c) && Lex(more).Some? && ReadClauses(Lex(more).value) == Some(cs)
    ensures
      var q := text + " and " + more;
      Lex(q).Some? && ReadClauses(Lex(q).value) == Some([c] + cs)
  {
    var x, y, z :| ReadClause(x, y, z) == Some(c) && Reads(text, x, y, z);
    LexAnd(more);
    assert text + " and " + more == text + (" and " + more);
    ReadsBefore(text, x, y, z, " and " + more, [Word("and")] + Lex(more).value);
    MoreClauses(x, y, z, c, Lex(more).value, cs);
  }

  lemma {:induction false} JoinReads(texts: seq<string>, cs: seq<Clause>)
    requires AllSay(texts, cs) && texts != []
    ensures Lex(Join(" and ", texts)).Some? && ReadClauses(Lex(Join(" and ", texts)).value) == Some(cs)
  {
    if |texts| == 1 {
      ReadsOne(texts[0], cs[0]);
      assert cs == [cs[0]];
    } else {
      JoinReads(texts[1..], cs[1..]);
      ReadsMore(texts[0], cs[0], Join(" and ", texts[1..]), cs[1..]);
      assert cs == [cs[0]] + cs[1..];
    }
  }

  lemma JoinParses(texts: seq<string>, cs: seq<Clause>)
    requires AllSay(texts, cs)
    ensures Parse(Join(" and ", texts)) == Some(cs)
  {
    if texts != [] { JoinReads(texts, cs); }
  }

  lemma OneMore(texts: seq<string>, cs: seq<Clause>, text: string, c: Clause)
    requires AllSay(texts, cs) && Says(text, c)
    ensures AllSay(texts + [text], cs + [c])
  {
  }

  /** The clauses for the four text filters. */
  method TextClauses(f: Filters) returns (clauses: seq<string>)
    ensures AllSay(clauses, AskedName(f) + AskedText(f) + AskedMime(f) + AskedFolder(f))
  {
    clauses := [];
    ghost var said: seq<Clause> := [];
    if Given(f.nameContains) {
      SaysName(f.nameContains.value);
      OneMore(clauses, said, "name contains '" + Escape(f.nameContains.value) + "'",
          NameContains(f.nameContains.value));
      clauses := clauses + ["name contains '" + Escape(f.nameContains.value) + "'"];
    }
    said := AskedName(f);
    assert AllSay(clauses, said);
    if Given(f.fullText) {
      SaysFullText(f.fullText.value);
      OneMore(clauses, said, "fullText contains '" + Escape(f.fullText.value) + "'",
          FullTextContains(f.fullText.value));
      clauses := clauses + ["fullText contains '" + Escape(f.fullText.value) + "'"];
    }
    said := said + AskedText(f);
    assert AllSay(clauses, said);
    if Given(f.mimeType) {
      SaysMimeType(f.mimeType.value);
      OneMore(clauses, said, "mimeType = '" + Escape(f.mimeType.value) + "'", MimeTypeIs(f.mimeType.value));
      clauses := clauses + ["mimeType = '" + Escape(f.mimeType.value) + "'"];
    }
    said := said + AskedMime(f);
    assert AllSay(clauses, said);
    if Given(f.inFolder) {
      SaysFolder(f.inFolder.value);
      OneMore(clauses, said, "'" + Escape(f.inFolder.value) + "' in parents", InParents(f.inFolder.value));
      clauses := clauses + ["'" + Escape(f.inFolder.value) + "' in parents"];
    }
  }

  /** The first instant of a day. */
  function StartOf(d: Date): Stamp {
    Stamp(d.year, d.month, d.day, 0, 0, 0)
  }

  /** The place of a clause's kind in a query. */
  function Rank(c: Clause): nat {
    match c
    case NameContains(_) => 0
    case FullTextContains(_) => 1
    case MimeTypeIs(_) => 2
    case InParents(_) => 3
    case ModifiedAfter(_) => 4
    case TrashedIs(_) => 5
  }

  /** The clauses say what the filters say: each filter that is given and not empty, with its value, and no other. */
  ghost predicate SaysFilters(cs: seq<Clause>, f: Filters) {
    && (forall v :: NameContains(v) in cs <==> f.nameContains == Some(v) && v != "")
    && (forall v :: FullTextContains(v) in cs <==> f.fullText == Some(v) && v != "")
    && (forall v :: MimeTypeIs(v) in cs <==> f.mimeType == Some(v) && v != "")
    && (forall v :: InParents(v) in cs <==> f.inFolder == Some(v) && v != "")
    && (forall t :: ModifiedAfter(t) in cs <==> f.modifiedAfter.Some? && t == StartOf(f.modifiedAfter.value))
    && (forall b :: TrashedIs(b) in cs <==> !b && !f.includeTrashed)
  }

  ghost predicate Ranked(cs: seq<Clause>) {
    forall i, j | 0 <= i < j < |cs| :: Rank(cs[i]) < Rank(cs[j])
  }

  /** Clauses of ranks from `lo` up to, not including, `hi`, in order. */
  ghost predicate RankedIn(cs: seq<Clause>, lo: nat, hi: nat) {
    Ranked(cs) && forall c <- cs :: lo <= Rank(c) < hi
  }

  lemma RankedConcat(a: seq<Clause>, b: seq<Clause>, lo: nat, mid: nat, hi: nat)
    requires RankedIn(a, lo, mid) && RankedIn(b, mid, hi) && lo <= mid <= hi
    ensures RankedIn(a + b, lo, hi)
  {
    forall i, j | 0 <= i < j < |a + b| ensures Rank((a + b)[i]) < Rank((a + b)[j]) {
      if i < |a| { assert a[i] in a; }
      if j >= |a| { assert b[j - |a|] in b; }
    }
  }

  lemma PartsRanked(f: Filters)
    ensures RankedIn(AskedName(f), 0, 1) && RankedIn(AskedText(f), 1, 2) && RankedIn(AskedMime(f), 2, 3)
    ensures RankedIn(AskedFolder(f), 3, 4) && RankedIn(AskedDate(f), 4, 5) && RankedIn(AskedTrash(f), 5, 6)
  {
    OneRanked(AskedName(f), 0);
    OneRanked(AskedText(f), 1);
    OneRanked(AskedMime(f), 2);
    OneRanked(AskedFolder(f), 3);
    OneRanked(AskedDate(f), 4);
    OneRanked(AskedTrash(f), 5);
  }

  lemma OneRanked(cs: seq<Clause>, k: nat)
    requires |cs| <= 1 && (cs != [] ==> Rank(cs[0]) == k)
    ensures RankedIn(cs, k, k + 1)
  {
  }

  lemma SixRanked(
      a: seq<Clause>, b: seq<Clause>, c: seq<Clause>, d: seq<Clause>, e: seq<Clause>, f: seq<Clause>)
    requires RankedIn(a, 0, 1) && RankedIn(b, 1, 2) && RankedIn(c, 2, 3)
    requires RankedIn(d, 3, 4) && RankedIn(e, 4, 5) && RankedIn(f, 5, 6)
    ensures Ranked(a + b + c + d + e + f)
  {
    RankedConcat(a, b, 0, 1, 2);
    RankedConcat(a + b, c, 0, 2, 3);
    RankedConcat(a + b + c, d, 0, 3, 4);
    RankedConcat(a + b + c + d, e, 0, 4, 5);
    RankedConcat(a + b + c + d + e, f, 0, 5, 6);
  }

  lemma AskedRanked(f: Filters)
    ensures Ranked(Asked(f))
  {
    PartsRanked(f);
    SixRanked(AskedName(f), AskedText(f), AskedMime(f), AskedFolder(f), AskedDate(f), AskedTrash(f));
  }

  lemma InAsked(f: Filters, c: Clause)
    ensures c in Asked(f) <==>
            (c in AskedName(f) || c in AskedText(f) || c in AskedMime(f)
             || c in AskedFolder(f) || c in AskedDate(f) || c in AskedTrash(f))
  {
  }

  /** The part of what was asked that clauses of this kind come from. */
  function PartOf(f: Filters, c: Clause): seq<Clause> {
    match c
    case NameContains(_) => AskedName(f)
    case FullTextContains(_) => AskedText(f)
    case MimeTypeIs(_) => AskedMime(f)
    case InParents(_) => AskedFolder(f)
    case ModifiedAfter(_) => AskedDate(f)
    case TrashedIs(_) => AskedTrash(f)
  }

  lemma InOwnPart(f: Filters, c: Clause)
    ensures c in Asked(f) <==> c in PartOf(f, c)
  {
    InAsked(f, c);
  }

  lemma AskedSaysTexts(f: Filters, v: string)
    ensures NameContains(v) in Asked(f) <==> f.nameContains == Some(v) && v != ""
    ensures FullTextContains(v) in Asked(f) <==> f.fullText == Some(v) && v != ""
    ensures MimeTypeIs(v) in Asked(f) <==> f.mimeType == Some(v) && v != ""
    ensures InParents(v) in Asked(f) <==> f.inFolder == Some(v) && v != ""
  {
    InOwnPart(f, NameContains(v));
    InOwnPart(f, FullTextContains(v));
    InOwnPart(f, MimeTypeIs(v));
    InOwnPart(f, InParents(v));
  }

  lemma AskedSaysRest(f: Filters, t: Stamp, b: bool)
    ensures ModifiedAfter(t) in Asked(f) <==> f.modifiedAfter.Some? && t == StartOf(f.modifiedAfter.value)
    ensures TrashedIs(b) in Asked(f) <==> !b && !f.includeTrashed
  {
    InOwnPart(f, ModifiedAfter(t));
    InOwnPart(f, TrashedIs(b));
  }

  lemma AskedSaysFilters(f: Filters)
    ensures SaysFilters(Asked(f), f) && Ranked(Asked(f))
  {
    AskedRanked(f);
    forall v { AskedSaysTexts(f, v); }
    forall t, b { AskedSaysRest(f, t, b); }
  }

  /**
    `build_drive_query`: reading the result back gives exactly what was asked, each
    filter given once, with its value, in order, and nothing else.
   */
  method BuildDriveQuery(f: Filters) returns (q: string)
    requires f.modifiedAfter.Some? ==> f.modifiedAfter.value.Valid()
    ensures Parse(q) == Some(Asked(f))
    ensures SaysFilters(Parse(q).value, f) && Ranked(Parse(q).value)
  {
    AskedSaysFilters(f);
    var clauses := TextClauses(f);
    ghost var said := AskedName(f) + AskedText(f) + AskedMime(f) + AskedFolder(f);
    if f.modifiedAfter.Some? {
      var d := f.modifiedAfter.value;
      SaysModified(d);
      OneMore(clauses, said, "modifiedTime > '" + IsoFormat(d) + "T00:00:00'", ModifiedAfter(Midnight(d)));
      clauses := clauses + ["modifiedTime > '" + IsoFormat(d) + "T00:00:00'"];
    }
    said := said + AskedDate(f);
    assert AllSay(clauses, said);
    if !f.includeTrashed {
      SaysTrashed();
      OneMore(clauses, said, "trashed = false", TrashedIs(false));
      clauses := clauses + ["trashed = false"];
    }
    said := said + AskedTrash(f);
    assert AllSay(clauses, said);
    JoinParses(clauses, said);
    q := Join(" and ", clauses);
  }

  /** Whether a file is what the caller asked for, said without any query. */
  predicate Wanted(f: Filters, file: File, sem: Semantics) {
    && (f.nameContains.None? || f.nameContains.value == "" || sem.nameContains(file.name, f.nameContains.value))
    && (f.fullText.None? || f.fullText.value == "" || sem.textContains(file.text, f.fullText.value))
    && (f.mimeType.None? || f.mimeType.value == "" || file.mime == f.mimeType.value)
    && (f.inFolder.None? || f.inFolder.value == "" || f.inFolder.value in file.parents)
    && (f.modifiedAfter.None? || sem.later(file.modified, StartOf(f.modifiedAfter.value)))
    && (!file.trashed || f.includeTrashed)
  }

  lemma SelectsBoth(a: seq<Clause>, b: seq<Clause>, file: File, sem: Semantics)
    ensures Selects(a + b, file, sem) <==> Selects(a, file, sem) && Selects(b, file, sem)
  {
    assert forall c <- a :: c in a + b;
    assert forall c <- b :: c in a + b;
  }

  lemma SelectsOne(c: Clause, file: File, sem: Semantics)
    ensures Selects([c], file, sem) <==> Satisfies(file, c, sem)
  {
    assert c in [c];
  }

  /** Filter by filter, the clause selects what the filter wants. */
  lemma SelectsParts(f: Filters, file: File, sem: Semantics)
    ensures Wanted(f, file, sem) <==>
            && Selects(AskedName(f), file, sem) && Selects(AskedText(f), file, sem) && Selects(AskedMime(f), file, sem)
            && Selects(AskedFolder(f), file, sem) && Selects(AskedDate(f), file, sem)
                && Selects(AskedTrash(f), file, sem)
  {
    if Given(f.nameContains) { SelectsOne(NameContains(f.nameContains.value), file, sem); }
    if Given(f.fullText) { SelectsOne(FullTextContains(f.fullText.value), file, sem); }
    if Given(f.mimeType) { SelectsOne(MimeTypeIs(f.mimeType.value), file, sem); }
    if Given(f.inFolder) { SelectsOne(InParents(f.inFolder.value), file, sem); }
    if f.modifiedAfter.Some? { SelectsOne(ModifiedAfter(Midnight(f.modifiedAfter.value)), file, sem); }
    SelectsOne(TrashedIs(false), file, sem);
  }

  /** Any query that reads as what was asked selects exactly the wanted files. */
  lemma QuerySelectsTheWanted(f: Filters, q: string, file: File, sem: Semantics)
    requires Parse(q) == Some(Asked(f))
    ensures Selects(Parse(q).value, file, sem) <==> Wanted(f, file, sem)
  {
    var ab := AskedName(f) + AskedText(f);
    var abc := ab + AskedMime(f);
    var abcd := abc + AskedFolder(f);
    SelectsParts(f, file, sem);
    SelectsBoth(AskedName(f), AskedText(f), file, sem);
    SelectsBoth(ab, AskedMime(f), file, sem);
    SelectsBoth(abc, AskedFolder(f), file, sem);
    SelectsBoth(abcd, AskedDate(f), file, sem);
    SelectsBoth(abcd + AskedDate(f), AskedTrash(f), file, sem);
  }

  /** Two filter sets that give the same query ask for the same things. */
  lemma SameQuerySameMeaning(f: Filters, g: Filters, q: string)
    requires Parse(q) == Some(Asked(f)) && Parse(q) == Some(Asked(g))
    ensures forall file, sem :: Wanted(f, file, sem) <==> Wanted(g, file, sem)
  {
    forall file, sem ensures Wanted(f, file, sem) <==> Wanted(g, file, sem) {
      QuerySelectsTheWanted(f, q, file, sem);
      QuerySelectsTheWanted(g, q, file, sem);
    }
  }
}
