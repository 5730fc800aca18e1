/**
  A reference reader for the part of Google Drive's search language that the
  gateway writes: terms joined by `and`, string literals in single quotes with
  backslash escapes.
 */
module DriveLanguage {
  import opened Wrappers

  datatype Token = Word(text: string) | Literal(value: string) | Equals | Greater

  datatype Stamp = Stamp(year: nat, month: nat, day: nat, hour: nat, minute: nat, second: nat)

  datatype Clause =
    | NameContains(value: string)
    | FullTextContains(value: string)
    | MimeTypeIs(value: string)
    | InParents(folder: string)
    | ModifiedAfter(stamp: Stamp)
    | TrashedIs(flag: bool)

  // -------------------------------------------------------------------- lexer

  predicate IsLetter(c: char) {
    'a' <= c <= 'z' || 'A' <= c <= 'Z'
  }

  function WordLength(q: string): (n: nat)
    ensures n <= |q|
  {
    if q != [] && IsLetter(q[0]) then 1 + WordLength(q[1..]) else 0
  }

  /** Reads a literal after its opening quote: its value and what follows the closing quote. */
  function ReadLiteral(q: string): (r: Option<(string, string)>)
    ensures r.Some? ==> |r.value.1| < |q|
  {
    if q == [] then None
    else if q[0] == '\'' then Some(([], q[1..]))
    else if q[0] == '\\' then
      if |q| < 2 || (q[1] != '\\' && q[1] != '\'') then None else WithFirst(q[1], ReadLiteral(q[2..]))
    else WithFirst(q[0], ReadLiteral(q[1..]))
  }

  function WithFirst(c: char, r: Option<(string, string)>): Option<(string, string)> {
    match r
    case None => None
    case Some((value, rest)) => Some(([c] + value, rest))
  }

  function WithToken(t: Token, r: Option<seq<Token>>): Option<seq<Token>> {
    match r
    case None => None
    case Some(ts) => Some([t] + ts)
  }

  function Lex(q: string): Option<seq<Token>>
    decreases |q|
  {
    if q == [] then Some([])
    else if q[0] == ' ' then Lex(q[1..])
    else if q[0] == '=' then WithToken(Equals, Lex(q[1..]))
    else if q[0] == '>' then WithToken(Greater, Lex(q[1..]))
    else if q[0] == '\'' then
      match ReadLiteral(q[1..])
      case None => None
      case Some((value, rest)) => WithToken(Literal(value), Lex(rest))
    else if IsLetter(q[0]) then WithToken(Word(q[..WordLength(q)]), Lex(q[WordLength(q)..]))
    else None
  }

  // ------------------------------------------------------------------- parser

  function DigitValue(c: char): Option<nat> {
    if '0' <= c <= '9' then Some(c as int - '0' as int) else None
  }

  function Number(s: string): Option<nat>
    decreases |s|
  {
    if s == [] then Some(0) else
      match (Number(s[..|s| - 1]), DigitValue(s[|s| - 1]))
      case (Some(n), Some(d)) => Some(10 * n + d)
      case _ => None
  }

  /** `YYYY-MM-DDThh:mm:ss`. */
  function ReadStamp(s: string): Option<Stamp> {
    if |s| != 19 || s[4] != '-' || s[7] != '-' || s[10] != 'T' || s[13] != ':' || s[16] != ':' then None else
      match (Number(s[..4]), Number(s[5..7]), Number(s[8..10]), Number(s[11..13]), Number(s[14..16]), Number(s[17..]))
      case (Some(y), Some(mo), Some(d), Some(h), Some(mi), Some(sec)) => Some(Stamp(y, mo, d, h, mi, sec))
      case _ => None
  }

  /** Every clause of the language is three tokens long. */
  function ReadClause(a: Token, b: Token, c: Token): Option<Clause> {
    if a == Word("name") && b == Word("contains") && c.Literal? then Some(NameContains(c.value))
    else if a == Word("fullText") && b == Word("contains") && c.Literal? then Some(FullTextContains(c.value))
    else if a == Word("mimeType") && b == Equals && c.Literal? then Some(MimeTypeIs(c.value))
    else if a.Literal? && b == Word("in") && c == Word("parents") then Some(InParents(a.value))
    else if a == Word("modifiedTime") && b == Greater && c.Literal? then
      match ReadStamp(c.value)
      case Some(stamp) => Some(ModifiedAfter(stamp))
      case None => None
    else if a == Word("trashed") && b == Equals && c == Word("false") then Some(TrashedIs(false))
    else if a == Word("trashed") && b == Equals && c == Word("true") then Some(TrashedIs(true))
    else None
  }

  /** One clause, then either the end or `and` and more clauses. */
  function ReadClauses(ts: seq<Token>): Option<seq<Clause>>
    decreases |ts|
  {
    if |ts| < 3 then None else
      match ReadClause(ts[0], ts[1], ts[2])
      case None => None
      case Some(c) =>
        if |ts| == 3 then Some([c])
        else if ts[3] != Word("and") then None
        else
          match ReadClauses(ts[4..])
          case None => None
          case Some(cs) => Some([c] + cs)
  }

  /** The empty query has no clauses and matches every file. */
  function Parse(q: string): Option<seq<Clause>> {
    match Lex(q)
    case None => None
    case Some(ts) => if ts == [] then Some([]) else ReadClauses(ts)
  }

  // --------------------------------------------------------------- evaluation

  datatype File = File(name: string, text: string, mime: string, parents: set<string>, modified: Stamp, trashed: bool)

  /** How Drive matches text and compares times is its own affair; the results hold for any choice. */
  datatype Semantics = Semantics(
    nameContains: (string, string) -> bool,
    textContains: (string, string) -> bool,
    later: (Stamp, Stamp) -> bool)

  predicate Satisfies(file: File, c: Clause, sem: Semantics) {
    match c
    case NameContains(v) => sem.nameContains(file.name, v)
    case FullTextContains(v) => sem.textContains(file.text, v)
    case MimeTypeIs(v) => file.mime == v
    case InParents(folder) => folder in file.parents
    case ModifiedAfter(stamp) => sem.later(file.modified, stamp)
    case TrashedIs(flag) => file.trashed == flag
  }

  predicate Selects(cs: seq<Clause>, file: File, sem: Semantics) {
    forall c <- cs :: Satisfies(file, c, sem)
  }
}
