/**
 Printing cohort keys as SQL literals, and recognising read-only predicates.

 The printer is checked against an independent reader of the printed expressions; the recogniser's
 regular expression, with its backtracking, is checked against a one-pass automaton.
 */
module Predicates {
  import opened Outcomes

  // ---------- text ----------

  predicate IsControl(c: char) {
    c < ' '
  }

  /** `str.replace(quote, quote + quote)`. */
  function Doubled(text: string, quote: char): string {
    if text == "" then ""
    else (if text[0] == quote then [quote, quote] else [text[0]]) + Doubled(text[1..], quote)
  }

  function Quoted(text: string, quote: char): string {
    [quote] + Doubled(text, quote) + [quote]
  }

  function QuoteIdentifier(name: string): Result<string> {
    if name == "" || exists c <- name :: IsControl(c) then Failure(BindingError)
    else Success(Quoted(name, '"'))
  }

  /** `text.split(chr(92))`: never empty. */
  function Split(text: string): (parts: seq<string>)
    ensures parts != []
  {
    if text == "" then [""]
    else
      var rest := Split(text[1..]);
      if text[0] == '\\' then [""] + rest else [[text[0]] + rest[0]] + rest[1..]
  }

  function Join(parts: seq<string>, separator: string): string {
    if parts == [] then ""
    else if |parts| == 1 then parts[0]
    else parts[0] + separator + Join(parts[1..], separator)
  }

  lemma {:induction false} JoinOfSplit(text: string)
    ensures Join(Split(text), "\\") == text
  {
    if text != "" {
      JoinOfSplit(text[1..]);
      var rest := Split(text[1..]);
      if text[0] == '\\' {
        assert ([""] + rest)[1..] == rest;
      } else {
        var parts := [[text[0]] + rest[0]] + rest[1..];
        assert parts[1..] == rest[1..];
      }
    }
  }

  // ---------- printing keys ----------

  const CHR_SEPARATOR := " || CHR(92) || "

  /** A distinct value read from the parent; numbers come with the text Python prints for them. */
  datatype Key = Boolean(value: bool) | Number(text: string) | Text(text: string) | Unsupported

  function QuotedParts(parts: seq<string>): (r: seq<string>)
    ensures |r| == |parts|
  {
    seq(|parts|, i requires 0 <= i < |parts| => Quoted(parts[i], '\''))
  }

  function TextLiteral(text: string): string {
    "(" + Join(QuotedParts(Split(text)), CHR_SEPARATOR) + ")"
  }

  function Literal(key: Key): Result<string> {
    match key
    case Boolean(value) => Success(if value then "TRUE" else "FALSE")
    case Number(text) => Success(text)
    case Text(text) =>
      if exists c <- text :: IsControl(c) then Failure(PolicyError) else Success(TextLiteral(text))
    case Unsupported => Failure(PolicyError)
  }

  function Literals(keys: seq<Key>): (r: Result<seq<string>>)
    ensures r.Success? ==> |r.value| == |keys|
  {
    if keys == [] then Success([])
    else
      var first := Literal(keys[0]);
      if first.Failure? then Failure(first.error)
      else
        var rest := Literals(keys[1..]);
        if rest.Failure? then Failure(rest.error) else Success([first.value] + rest.value)
  }

  function Membership(column: string, keys: seq<Key>): Result<string> {
    var name, values := QuoteIdentifier(column), Literals(keys);
    if values.Failure? then Failure(values.error)
    else if keys == [] then Success("FALSE")
    else if name.Failure? then Failure(name.error)
    else Success(name.value + " IN (" + Join(values.value, ", ") + ")")
  }

  function Base(where: Option<string>): string {
    if where.Some? && where.value != "" then where.value else "TRUE"
  }

  /** The predicate of a cohort capture: the configured one, and membership in the parent's keys. */
  function CohortPredicate(where: Option<string>, column: string, keys: seq<Key>): Result<string> {
    var membership := Membership(column, keys);
    if membership.Failure? then Failure(membership.error)
    else Success("(" + Base(where) + ") AND (" + membership.value + ")")
  }

  // ---------- reading a printed expression back ----------

  /** The text of a quoted value whose opening quote was consumed, and what follows its closing quote. */
  function ReadQuoted(s: string, quote: char): (r: Option<(string, string)>)
    ensures r.Some? ==> |r.value.1| < |s|
  {
    if s == "" then None
    else if s[0] != quote then
      var rest := ReadQuoted(s[1..], quote);
      if rest.None? then None else Some(([s[0]] + rest.value.0, rest.value.1))
    else if |s| > 1 && s[1] == quote then
      var rest := ReadQuoted(s[2..], quote);
      if rest.None? then None else Some(([quote] + rest.value.0, rest.value.1))
    else Some(("", s[1..]))
  }

  /** One operand of a concatenation: a quoted value or `CHR(92)`. */
  function ReadOperand(s: string): (r: Option<(string, string)>)
    ensures r.Some? ==> |r.value.1| < |s|
  {
    if s != "" && s[0] == '\'' then ReadQuoted(s[1..], '\'')
    else if "CHR(92)" <= s then Some(("\\", s[7..]))
    else None
  }

  /** Operands joined by `||`. */
  function ReadConcatenation(s: string): (r: Option<(string, string)>)
    ensures r.Some? ==> |r.value.1| < |s|
    decreases |s|
  {
    var first := ReadOperand(s);
    if first.None? then None
    else if " || " <= first.value.1 then
      var rest := ReadConcatenation(first.value.1[4..]);
      if rest.None? then None else Some((first.value.0 + rest.value.0, rest.value.1))
    else first
  }

  /** The value of a parenthesised string expression at the start of `s`, and what follows it. */
  function Evaluate(s: string): (r: Option<(string, string)>)
    ensures r.Some? ==> |r.value.1| < |s|
  {
    if s == "" || s[0] != '(' then None
    else
      var inner := ReadConcatenation(s[1..]);
      if inner.None? || inner.value.1 == "" || inner.value.1[0] != ')' then None
      else Some((inner.value.0, inner.value.1[1..]))
  }

  lemma {:induction false} ReadQuotedOfDoubled(text: string, quote: char, rest: string)
    requires rest == "" || rest[0] != quote
    ensures ReadQuoted(Doubled(text, quote) + [quote] + rest, quote) == Some((text, rest))
  {
    var s := Doubled(text, quote) + [quote] + rest;
    if text == "" {
      assert s == [quote] + rest;
    } else {
      var tail := Doubled(text[1..], quote) + [quote] + rest;
      ReadQuotedOfDoubled(text[1..], quote, rest);
      assert [text[0]] + text[1..] == text;
      if text[0] == quote {
        assert s == [quote, quote] + tail;
        assert s[2..] == tail;
      } else {
        assert s == [text[0]] + tail;
        assert s[1..] == tail;
      }
    }
  }

  lemma ReadOperandOfQuoted(text: string, rest: string)
    requires rest == "" || rest[0] != '\''
    ensures ReadOperand(Quoted(text, '\'') + rest) == Some((text, rest))
  {
    ReadQuotedOfDoubled(text, '\'', rest);
    assert (Quoted(text, '\'') + rest)[1..] == Doubled(text, '\'') + ['\''] + rest;
  }

  lemma ReadPair(s: string, text: string, tail: string, value: string, rest: string)
    requires ReadOperand(s) == Some((text, " || " + tail))
    requires ReadConcatenation(tail) == Some((value, rest))
    ensures ReadConcatenation(s) == Some((text + value, rest))
  {
    assert (" || " + tail)[4..] == tail;
  }

  lemma ReadBackslash(tail: string, value: string, rest: string)
    requires ReadConcatenation(tail) == Some((value, rest))
    ensures ReadConcatenation("CHR(92)" + (" || " + tail)) == Some(("\\" + value, rest))
  {
    var s := "CHR(92)" + (" || " + tail);
    assert s[0] == 'C' && "CHR(92)" <= s && s[7..] == " || " + tail;
    ReadPair(s, "\\", tail, value, rest);
  }

  lemma ReadSeparated(text: string, tail: string, value: string, rest: string)
    requires ReadConcatenation(tail) == Some((value, rest))
    ensures ReadConcatenation(Quoted(text, '\'') + (CHR_SEPARATOR + tail)) == Some((text + ("\\" + value), rest))
  {
    hide ReadConcatenation;
    var second := "CHR(92)" + (" || " + tail);
    ReadBackslash(tail, value, rest);
    assert CHR_SEPARATOR == " || " + ("CHR(92)" + " || ");
    assert CHR_SEPARATOR + tail == " || " + second;
    ReadOperandOfQuoted(text, " || " + second);
    ReadPair(Quoted(text, '\'') + (" || " + second), text, second, "\\" + value, rest);
  }

  lemma {:induction false} ReadConcatenationOfParts(parts: seq<string>, rest: string)
    requires parts != [] && rest != "" && rest[0] == ')'
    ensures ReadConcatenation(Join(QuotedParts(parts), CHR_SEPARATOR) + rest) == Some((Join(parts, "\\"), rest))
  {
    if |parts| == 1 {
      ReadOperandOfQuoted(parts[0], rest);
    } else {
      ReadConcatenationOfParts(parts[1..], rest);
      var tail := Join(QuotedParts(parts[1..]), CHR_SEPARATOR) + rest;
      assert QuotedParts(parts)[1..] == QuotedParts(parts[1..]);
      assert Join(QuotedParts(parts), CHR_SEPARATOR) + rest == Quoted(parts[0], '\'') + (CHR_SEPARATOR + tail);
      ReadSeparated(parts[0], tail, Join(parts[1..], "\\"), rest);
      assert parts[0] + ("\\" + Join(parts[1..], "\\")) == parts[0] + "\\" + Join(parts[1..], "\\");
    }
  }

  /** Evaluating the printed literal gives the text back, whatever follows it. */
  lemma LiteralRoundTrip(text: string, rest: string)
    ensures Evaluate(TextLiteral(text) + rest) == Some((text, rest))
  {
    hide ReadConcatenation, Join, Split, QuotedParts;
    JoinOfSplit(text);
    var inner := Join(QuotedParts(Split(text)), CHR_SEPARATOR) + (")" + rest);
    ReadConcatenationOfParts(Split(text), ")" + rest);
    assert (TextLiteral(text) + rest)[1..] == inner;
    assert (")" + rest)[1..] == rest;
  }

  /** A quoted identifier reads back as the identifier it quotes. */
  lemma IdentifierRoundTrip(name: string, rest: string)
    requires QuoteIdentifier(name).Success? && (rest == "" || rest[0] != '"')
    ensures var printed := QuoteIdentifier(name).value + rest;
            printed[0] == '"' && ReadQuoted(printed[1..], '"') == Some((name, rest))
  {
    ReadQuotedOfDoubled(name, '"', rest);
    assert (Quoted(name, '"') + rest)[1..] == Doubled(name, '"') + ['"'] + rest;
  }

  /** The values of a comma-separated list of string expressions. */
  function ReadList(s: string): Option<seq<string>>
    decreases |s|
  {
    var first := Evaluate(s);
    if first.None? then None
    else if first.value.1 == "" then Some([first.value.0])
    else if ", " <= first.value.1 then
      var rest := ReadList(first.value.1[2..]);
      if rest.None? then None else Some([first.value.0] + rest.value)
    else None
  }

  lemma ReadListCons(s: string, text: string, tail: string, values: seq<string>)
    requires Evaluate(s) == Some((text, ", " + tail)) && ReadList(tail) == Some(values)
    ensures ReadList(s) == Some([text] + values)
  {
    assert (", " + tail)[2..] == tail;
  }

  function Texts(keys: seq<Key>): seq<string>
    requires forall key <- keys :: key.Text?
  {
    if keys == [] then [] else [keys[0].text] + Texts(keys[1..])
  }

  /** The printed list of text keys reads back as exactly those keys, in order. */
  lemma {:induction false} ListRoundTrip(keys: seq<Key>)
    requires keys != [] && (forall key <- keys :: key.Text?) && Literals(keys).Success?
    ensures ReadList(Join(Literals(keys).value, ", ")) == Some(Texts(keys))
  {
    var first := Literal(keys[0]).value;
    if |keys| == 1 {
      LiteralRoundTrip(keys[0].text, "");
      assert first + "" == first;
      assert Literals(keys).value == [first];
      assert Texts(keys) == [keys[0].text];
    } else {
      ListRoundTrip(keys[1..]);
      LiteralsCons(keys);
      hide ReadList, Evaluate, Literals, TextLiteral, Join;
      var tail := Join(Literals(keys[1..]).value, ", ");
      LiteralRoundTrip(keys[0].text, ", " + tail);
      ReadListCons(Join(Literals(keys).value, ", "), keys[0].text, tail, Texts(keys[1..]));
    }
  }

  lemma LiteralsCons(keys: seq<Key>)
    requires |keys| > 1 && Literals(keys).Success?
    ensures Literals(keys[1..]).Success? && Literal(keys[0]).Success?
    ensures Join(Literals(keys).value, ", ")
         == Literal(keys[0]).value + (", " + Join(Literals(keys[1..]).value, ", "))
  {
    hide Literal, Quoted, QuotedParts;
    var first, rest := Literal(keys[0]).value, Literals(keys[1..]).value;
    assert Literals(keys).value == [first] + rest;
    assert ([first] + rest)[1..] == rest;
    assert first + ", " + Join(rest, ", ") == first + (", " + Join(rest, ", "));
  }

  // ---------- recognising read-only predicates ----------

  const KEYWORDS := ["select", "insert", "update", "delete", "merge", "drop", "alter", "create", "grant", "revoke",
                     "call", "copy"]

  /** Characters `str.strip` removes. */
  predicate IsSpace(c: char) {
    '\t' <= c <= '\r' || '\U{1c}' <= c <= ' ' || c == '\U{85}' || c == '\U{a0}' || c == '\U{1680}'
    || '\U{2000}' <= c <= '\U{200a}' || c == '\U{2028}' || c == '\U{2029}' || c == '\U{202f}' || c == '\U{205f}'
    || c == '\U{3000}'
  }

  predicate IsAsciiWord(c: char) {
    '0' <= c <= '9' || 'A' <= c <= 'Z' || c == '_' || 'a' <= c <= 'z'
  }

  /** The letter a character matches under IGNORECASE. */
  function Lower(c: char): char {
    if 'A' <= c <= 'Z' then c - 'A' + 'a'
    else if c == '\U{130}' || c == '\U{131}' then 'i'
    else if c == '\U{17f}' then 's'
    else if c == '\U{212a}' then 'k'
    else c
  }

  predicate IsLetter(c: char) {
    'a' <= Lower(c) <= 'z'
  }

  /** A classification of word characters that extends ASCII: letters are words, white space is not. */
  ghost predicate IsWordClass(word: char -> bool) {
    forall c: char ::
      && (c < '\U{80}' ==> (word(c) <==> IsAsciiWord(c)))
      && (IsLetter(c) ==> word(c))
      && (IsSpace(c) ==> !word(c))
  }

  predicate Spells(text: string, i: nat, keyword: string) {
    i + |keyword| <= |text| && forall j :: 0 <= j < |keyword| ==> Lower(text[i + j]) == keyword[j]
  }

  /** `\bkeyword\b` matches at `i`. */
  predicate KeywordAt(text: string, i: nat, keyword: string, word: char -> bool) {
    && Spells(text, i, keyword)
    && (0 < i <= |text| ==> !word(text[i - 1]))
    && (i + |keyword| < |text| ==> !word(text[i + |keyword|]))
  }

  predicate MarkAt(text: string, i: nat)
    requires i < |text|
  {
    || text[i] == ';'
    || (i + 1 < |text| && text[i] == '-' && text[i + 1] == '-')
    || (i + 1 < |text| && text[i] == '/' && text[i + 1] == '*')
    || (i + 1 < |text| && text[i] == '*' && text[i + 1] == '/')
  }

  /** The forbidden pattern matches nowhere. */
  predicate Clean(text: string, word: char -> bool) {
    && (forall i :: 0 <= i < |text| ==> !MarkAt(text, i))
    && (forall i, k :: 0 <= i < |text| && k in KEYWORDS ==> !KeywordAt(text, i, k, word))
  }

  predicate IsQuote(c: char) {
    c == '\'' || c == '"'
  }

  /**
   What remains after the longest match of `(?:[^q]|qq)*q` at the start of `s`: when the scan runs
   off the end, it backtracks into the last doubled quote.
   */
  function AfterQuoted(s: string, quote: char): (r: Option<string>)
    ensures r.Some? ==> |r.value| < |s|
  {
    if s == "" then None
    else if s[0] != quote then AfterQuoted(s[1..], quote)
    else if |s| > 1 && s[1] == quote then
      var longer := AfterQuoted(s[2..], quote);
      if longer.Some? then longer else Some(s[1..])
    else Some(s[1..])
  }

  /** `re.sub` of the quoted values by a question mark. */
  function Masked(s: string): string
    decreases |s|
  {
    if s == "" then ""
    else if IsQuote(s[0]) && AfterQuoted(s[1..], s[0]).Some? then "?" + Masked(AfterQuoted(s[1..], s[0]).value)
    else [s[0]] + Masked(s[1..])
  }

  function StripLeft(s: string): string {
    if s != "" && IsSpace(s[0]) then StripLeft(s[1..]) else s
  }

  function StripRight(s: string): string {
    if s != "" && IsSpace(s[|s| - 1]) then StripRight(s[..|s| - 1]) else s
  }

  function Strip(s: string): string {
    StripRight(StripLeft(s))
  }

  function ValidatePredicate(predicate_: string, word: char -> bool): Result<string> {
    var candidate := Strip(predicate_);
    var unquoted := Masked(candidate);
    if candidate == "" || !Clean(unquoted, word) || '\'' in unquoted || '"' in unquoted
    then Failure(PolicyError)
    else Success(candidate)
  }

  // ---------- the one-pass automaton ----------

  /** Outside quotes, inside a quoted value, or just behind a quote that may be doubled or closing. */
  datatype State = Outside | Inside(quote: char) | Behind(quote: char)

  function Step(state: State, c: char): (State, string) {
    match state
    case Inside(q) => (if c == q then Behind(q) else Inside(q), "")
    case Behind(q) => if c == q then (Inside(q), "") else if IsQuote(c) then (Inside(c), "?") else (Outside, [c])
    case Outside => if IsQuote(c) then (Inside(c), "?") else (Outside, [c])
  }

  function Scan(state: State, s: string): (State, string)
    decreases |s|
  {
    if s == "" then (state, "")
    else
      var (next, emitted) := Step(state, s[0]);
      var (last, rest) := Scan(next, s[1..]);
      (last, emitted + rest)
  }

  lemma SilentStep(state: State, s: string)
    requires s != "" && Step(state, s[0]).1 == ""
    ensures Scan(state, s) == Scan(Step(state, s[0]).0, s[1..])
  {
    assert "" + Scan(Step(state, s[0]).0, s[1..]).1 == Scan(Step(state, s[0]).0, s[1..]).1;
  }

  predicate HasQuote(s: string) {
    exists c <- s :: IsQuote(c)
  }

  /** The value closes, and the automaton goes on behind it. */
  predicate Closes(s: string, quote: char, rest: string) {
    Scan(Inside(quote), s) == Scan(Behind(quote), rest) && (rest == "" || rest[0] != quote)
  }

  /** The value never closes; the match was found by splitting its last doubled quote. */
  predicate Backtracks(s: string, quote: char, rest: string) {
    Scan(Inside(quote), s) == (Inside(quote), "") && rest != "" && rest[0] == quote && quote !in rest[1..]
  }

  /** Reading the inside of a quoted value: the automaton and the regular expression agree. */
  lemma {:induction false} ScanInside(s: string, quote: char)
    requires IsQuote(quote)
    ensures var after := AfterQuoted(s, quote);
            && (quote !in s ==> after.None? && Scan(Inside(quote), s) == (Inside(quote), ""))
            && (quote in s ==> after.Some?)
            && (after.Some? ==> Closes(s, quote, after.value) || Backtracks(s, quote, after.value))
    decreases |s|
  {
    if s != "" {
      SilentStep(Inside(quote), s);
      if s[0] != quote {
        ScanInside(s[1..], quote);
        assert s == [s[0]] + s[1..];
      } else if |s| > 1 && s[1] == quote {
        SilentStep(Behind(quote), s[1..]);
        ScanInside(s[2..], quote);
        assert s[1..][1..] == s[2..];
      }
    }
  }

  /** Behind a closing quote the automaton goes on as if outside. */
  lemma ScanBehind(s: string, quote: char)
    requires s == "" || s[0] != quote
    ensures Scan(Behind(quote), s).1 == Scan(Outside, s).1
    ensures Scan(Behind(quote), s).0.Inside? == Scan(Outside, s).0.Inside?
  {
  }

  lemma {:induction false} UnmatchedStays(s: string, quote: char)
    requires IsQuote(quote) && s != "" && s[0] == quote && quote !in s[1..]
    ensures quote in Masked(s)
  {
    ScanInside(s[1..], quote);
    assert Masked(s)[0] == quote;
  }

  /**
   The regular expression leaves no quote exactly when the automaton ends outside a quoted value,
   and then both have masked the text alike.
   */
  lemma {:induction false} MaskedIsScanned(s: string)
    ensures HasQuote(Masked(s)) <==> Scan(Outside, s).0.Inside?
    ensures !HasQuote(Masked(s)) ==> Masked(s) == Scan(Outside, s).1
    decreases |s|
  {
    if s == "" {
    } else if IsQuote(s[0]) {
      var after := AfterQuoted(s[1..], s[0]);
      ScanInside(s[1..], s[0]);
      if after.Some? {
        MaskedIsScanned(after.value);
        assert Masked(s) == "?" + Masked(after.value);
        if after.value == "" || after.value[0] != s[0] {
          ScanBehind(after.value, s[0]);
        } else {
          UnmatchedStays(after.value, s[0]);
        }
      } else {
        assert Masked(s)[0] == s[0];
      }
    } else {
      MaskedIsScanned(s[1..]);
      assert Masked(s) == [s[0]] + Masked(s[1..]);
      assert HasQuote(Masked(s)) <==> HasQuote(Masked(s[1..]));
    }
  }

  /** What validation accepts, in terms of the automaton. */
  lemma AcceptsExactly(text: string, word: char -> bool)
    ensures ValidatePredicate(text, word).Success?
            <==> Strip(text) != "" && !Scan(Outside, Strip(text)).0.Inside? && Clean(Scan(Outside, Strip(text)).1, word)
  {
    MaskedIsScanned(Strip(text));
    var masked := Masked(Strip(text));
    assert HasQuote(masked) <==> '\'' in masked || '"' in masked;
  }

  lemma {:induction false} StripLeftMeans(s: string) returns (lead: string)
    ensures s == lead + StripLeft(s) && (forall c <- lead :: IsSpace(c))
    ensures StripLeft(s) != "" ==> !IsSpace(StripLeft(s)[0])
  {
    if s != "" && IsSpace(s[0]) {
      var rest := StripLeftMeans(s[1..]);
      lead := [s[0]] + rest;
      assert s == [s[0]] + s[1..];
    } else {
      lead := "";
    }
  }

  lemma {:induction false} StripRightMeans(s: string) returns (tail: string)
    ensures s == StripRight(s) + tail && (forall c <- tail :: IsSpace(c))
    ensures StripRight(s) != "" ==> !IsSpace(StripRight(s)[|StripRight(s)| - 1])
    ensures StripRight(s) <= s
  {
    if s != "" && IsSpace(s[|s| - 1]) {
      var rest := StripRightMeans(s[..|s| - 1]);
      tail := rest + [s[|s| - 1]];
      assert s == s[..|s| - 1] + [s[|s| - 1]];
    } else {
      tail := "";
      assert s == s + "";
    }
  }

  /** What is accepted is the text without the white space around it. */
  lemma StripMeans(text: string) returns (lead: string, tail: string)
    ensures text == lead + Strip(text) + tail
    ensures (forall c <- lead :: IsSpace(c)) && (forall c <- tail :: IsSpace(c))
    ensures Strip(text) != "" ==> !IsSpace(Strip(text)[0]) && !IsSpace(Strip(text)[|Strip(text)| - 1])
    ensures Strip(text) != "" <==> exists c <- text :: !IsSpace(c)
  {
    lead := StripLeftMeans(text);
    tail := StripRightMeans(StripLeft(text));
    var stripped := Strip(text);
    assert text == lead + stripped + tail;
    if stripped != "" {
      assert stripped[0] == StripLeft(text)[0];
      assert stripped[0] in text by {
        assert text[|lead|] == stripped[0];
      }
    } else {
      assert text == lead + tail;
    }
  }

  /** The small letter, its capital, or a character that matches it when case is ignored. */
  predicate IsLetterOf(c: char, letter: char) {
    || c == letter
    || ('A' <= c <= 'Z' && c - 'A' + 'a' == letter)
    || (letter == 'i' && (c == '\U{130}' || c == '\U{131}'))
    || (letter == 's' && c == '\U{17f}')
    || (letter == 'k' && c == '\U{212a}')
  }

  /** A comment mark stands in the text at `i`. */
  predicate CommentAt(text: string, i: nat) {
    i + 2 <= |text| && (text[i..i + 2] == "--" || text[i..i + 2] == "/*" || text[i..i + 2] == "*/")
  }

  /** The word stands in the text at `i`, in whatever case, with no word character before or behind it. */
  predicate WordAt(text: string, i: nat, keyword: string, word: char -> bool) {
    && i + |keyword| <= |text|
    && (forall j :: 0 <= j < |keyword| ==> IsLetterOf(text[i + j], keyword[j]))
    && (i == 0 || !word(text[i - 1]))
    && (i + |keyword| == |text| || !word(text[i + |keyword|]))
  }

  lemma LowerMeans(c: char, letter: char)
    requires 'a' <= letter <= 'z'
    ensures Lower(c) == letter <==> IsLetterOf(c, letter)
  {
  }

  lemma WordMeans(text: string, i: nat, keyword: string, word: char -> bool)
    requires forall c <- keyword :: 'a' <= c <= 'z'
    ensures KeywordAt(text, i, keyword, word) <==> WordAt(text, i, keyword, word)
  {
    if i + |keyword| <= |text| {
      forall j | 0 <= j < |keyword| ensures Lower(text[i + j]) == keyword[j] <==> IsLetterOf(text[i + j], keyword[j]) {
        assert keyword[j] in keyword;
        LowerMeans(text[i + j], keyword[j]);
      }
    }
    hide Lower, IsLetterOf;
  }

  /**
   What validation refuses. A text is accepted if and only if it is not blank, every quoted value in it is
   closed, and outside of them there is no semicolon, no comment mark, and none of twelve statement words.
   */
  lemma RefusesExactly(text: string, word: char -> bool)
    ensures var executed := Scan(Outside, Strip(text)).1;
            ValidatePredicate(text, word).Success?
            <==> && (exists c <- text :: !IsSpace(c))
                 && !Scan(Outside, Strip(text)).0.Inside?
                 && ';' !in executed
                 && (forall i: nat :: !CommentAt(executed, i))
                 && (forall i, k | 0 <= i < |executed| && k in {
                       "select", "insert", "update", "delete", "merge", "drop", "alter", "create", "grant", "revoke",
                       "call", "copy"} :: !WordAt(executed, i, k, word))
  {
    var executed := Scan(Outside, Strip(text)).1;
    var lead, tail := StripMeans(text);
    AcceptsExactly(text, word);
    MarksMean(executed);
    forall i, k | 0 <= i < |executed| && k in KEYWORDS
      ensures KeywordAt(executed, i, k, word) <==> WordAt(executed, i, k, word)
    {
      KeywordFacts(k);
      WordMeans(executed, i, k, word);
    }
    KeywordList();
    hide Scan, Strip, ValidatePredicate, KeywordAt, WordAt, MarkAt, CommentAt;
  }

  lemma KeywordList()
    ensures forall k :: k in KEYWORDS <==> k in {
              "select", "insert", "update", "delete", "merge", "drop", "alter", "create", "grant", "revoke", "call",
              "copy"}
  {
  }

  lemma MarksMean(text: string)
    ensures (forall i :: 0 <= i < |text| ==> !MarkAt(text, i)) <==> ';' !in text && forall i: nat :: !CommentAt(text, i)
  {
    forall i: nat | i < |text| ensures MarkAt(text, i) <==> text[i] == ';' || CommentAt(text, i) {
      if i + 2 <= |text| {
        assert text[i..i + 2] == [text[i], text[i + 1]];
      }
    }
    hide MarkAt;
    if ';' in text {
      var i :| 0 <= i < |text| && text[i] == ';';
      assert MarkAt(text, i);
    }
    if i: nat :| CommentAt(text, i) {
      assert MarkAt(text, i);
    }
  }

  // ---------- composing accepted text ----------

  /** `s` leaves no quoted value open and its executable text is clean. */
  predicate Safe(s: string, word: char -> bool) {
    !Scan(Outside, s).0.Inside? && Clean(Scan(Outside, s).1, word)
  }

  /** A character that ends every word, mark and quoted value next to it. */
  predicate IsSeparator(c: char, word: char -> bool) {
    !word(c) && !IsLetter(c) && !IsQuote(c) && c != ';' && c != '-' && c != '/' && c != '*'
  }

  lemma {:induction false} ScanConcat(state: State, a: string, b: string)
    ensures var (middle, first) := Scan(state, a);
            var (last, second) := Scan(middle, b);
            Scan(state, a + b) == (last, first + second)
    decreases |a|
  {
    if a == "" {
      assert a + b == b;
      assert "" + Scan(state, b).1 == Scan(state, b).1;
    } else {
      var (next, emitted) := Step(state, a[0]);
      ScanConcat(next, a[1..], b);
      assert (a + b)[1..] == a[1..] + b;
      var (middle, first) := Scan(next, a[1..]);
      assert emitted + (first + Scan(middle, b).1) == (emitted + first) + Scan(middle, b).1;
    }
  }

  predicate TracksQuotes(state: State) {
    state.Outside? || IsQuote(state.quote)
  }

  lemma {:induction false} ScanTracksQuotes(state: State, s: string)
    requires TracksQuotes(state)
    ensures TracksQuotes(Scan(state, s).0)
    decreases |s|
  {
    if s != "" {
      ScanTracksQuotes(Step(state, s[0]).0, s[1..]);
    }
  }

  lemma KeywordFacts(keyword: string)
    requires keyword in KEYWORDS
    ensures |keyword| >= 4
    ensures |keyword| == 4 ==> keyword[0] == 'd' || keyword[0] == 'c'
    ensures keyword[0] in "siudmacgr"
    ensures forall c <- keyword :: 'a' <= c <= 'z'
  {
  }

  lemma KeywordStarts(text: string, i: nat, keyword: string)
    requires i < |text| && keyword in KEYWORDS
    ensures Spells(text, i, keyword) ==> Lower(text[i]) == keyword[0]
    ensures |keyword| >= 4
    ensures |keyword| == 4 ==> keyword[0] == 'd' || keyword[0] == 'c'
    ensures keyword[0] in "siudmacgr"
  {
    KeywordFacts(keyword);
    if Spells(text, i, keyword) {
      assert Lower(text[i + 0]) == keyword[0];
    }
  }

  /** A keyword found across a separator lies wholly on one side of it. */
  lemma KeywordOnOneSide(a: string, c: char, b: string, i: nat, keyword: string, word: char -> bool)
    requires IsSeparator(c, word) && keyword in KEYWORDS
    requires KeywordAt(a + [c] + b, i, keyword, word)
    ensures if i < |a| then KeywordAt(a, i, keyword, word) else i > |a| && KeywordAt(b, i - |a| - 1, keyword, word)
  {
    var text := a + [c] + b;
    KeywordFacts(keyword);
    assert text[|a|] == c;
    assert forall j :: 0 <= j < |keyword| ==> Lower(text[i + j]) == keyword[j];
    if i < |a| {
      forall p | i <= p < i + |keyword| ensures IsLetter(text[p]) {
        assert Lower(text[i + (p - i)]) == keyword[p - i];
      }
      assert i + |keyword| <= |a|;
      assert forall j :: 0 <= j < |a| ==> text[j] == a[j];
    } else {
      assert i != |a| by {
        assert Lower(text[i + 0]) == keyword[0];
      }
      assert forall j :: 0 <= j < |b| ==> text[|a| + 1 + j] == b[j];
      forall j | 0 <= j < |keyword| ensures Lower(b[i - |a| - 1 + j]) == keyword[j] {
        assert text[i + j] == b[i - |a| - 1 + j];
      }
    }
  }

  lemma CleanJoin(a: string, c: char, b: string, word: char -> bool)
    requires Clean(a, word) && Clean(b, word) && IsSeparator(c, word)
    ensures Clean(a + [c] + b, word)
  {
    var text := a + [c] + b;
    forall i | 0 <= i < |text| ensures !MarkAt(text, i) {
      assert i < |a| ==> !MarkAt(a, i);
      assert i > |a| ==> !MarkAt(b, i - |a| - 1);
    }
    forall i, k | 0 <= i < |text| && k in KEYWORDS ensures !KeywordAt(text, i, k, word) {
      if KeywordAt(text, i, k, word) {
        KeywordOnOneSide(a, c, b, i, k, word);
        KeywordFacts(k);
        assert false;
      }
    }
  }

  lemma SafeJoin(a: string, c: char, b: string, word: char -> bool)
    requires Safe(a, word) && Safe(b, word) && IsSeparator(c, word)
    ensures Safe(a + [c] + b, word)
  {
    var (middle, first) := Scan(Outside, a);
    ScanConcat(Outside, a, [c] + b);
    assert a + ([c] + b) == a + [c] + b;
    assert ([c] + b)[0] == c && ([c] + b)[1..] == b;
    ScanTracksQuotes(Outside, a);
    assert Step(middle, c) == (Outside, [c]);
    assert Scan(middle, [c] + b) == (Scan(Outside, b).0, [c] + Scan(Outside, b).1);
    CleanJoin(first, c, Scan(Outside, b).1, word);
    assert first + [c] + Scan(Outside, b).1 == first + ([c] + Scan(Outside, b).1);
  }

  /** Text without quotes is its own executable text. */
  lemma {:induction false} ScanPlain(s: string)
    requires !HasQuote(s)
    ensures Scan(Outside, s) == (Outside, s)
  {
    if s != "" {
      assert s == [s[0]] + s[1..];
      ScanPlain(s[1..]);
    }
  }

  /** Short words, and words in which no keyword can start, are safe. */
  lemma PlainIsSafe(s: string, word: char -> bool)
    requires !HasQuote(s)
    requires forall i :: 0 <= i < |s| ==> !MarkAt(s, i)
    requires forall i :: 0 <= i < |s| ==> Lower(s[i]) !in "siudmacgr" || i + 3 >= |s| || s == "FALSE"
    ensures Safe(s, word)
  {
    ScanPlain(s);
    forall i, k | 0 <= i < |s| && k in KEYWORDS ensures !KeywordAt(s, i, k, word) {
      KeywordStarts(s, i, k);
    }
  }

  lemma {:induction false} ScanDoubled(text: string, quote: char, rest: string)
    requires IsQuote(quote)
    ensures Scan(Inside(quote), Doubled(text, quote) + rest) == Scan(Inside(quote), rest)
  {
    var s := Doubled(text, quote) + rest;
    if text == "" {
      assert s == rest;
    } else {
      var tail := Doubled(text[1..], quote) + rest;
      ScanDoubled(text[1..], quote, rest);
      SilentStep(Inside(quote), s);
      if text[0] == quote {
        assert s == [quote, quote] + tail;
        SilentStep(Behind(quote), s[1..]);
        assert s[1..][1..] == tail;
      } else {
        assert s == [text[0]] + tail;
        assert s[1..] == tail;
      }
    }
  }

  lemma ScanQuoted(text: string, quote: char)
    requires IsQuote(quote)
    ensures Scan(Outside, Quoted(text, quote)) == (Behind(quote), "?")
  {
    var s := Quoted(text, quote);
    ScanDoubled(text, quote, [quote]);
    assert s[1..] == Doubled(text, quote) + [quote];
    SilentStep(Inside(quote), [quote]);
    assert Scan(Inside(quote), [quote]) == (Behind(quote), "");
    assert s[0] == quote && Scan(Outside, s) == (Scan(Inside(quote), s[1..]).0, "?" + Scan(Inside(quote), s[1..]).1);
    assert "?" + "" == "?";
  }

  lemma QuotedIsSafe(text: string, quote: char, word: char -> bool)
    requires IsQuote(quote)
    ensures Safe(Quoted(text, quote), word)
  {
    ScanQuoted(text, quote);
    hide Scan, Quoted, Doubled;
    assert !MarkAt("?", 0);
    forall i, k | 0 <= i < 1 && k in KEYWORDS ensures !KeywordAt("?", i, k, word) {
      KeywordFacts(k);
    }
  }

  /** The text of a finite int, float or Decimal. */
  predicate IsNumeral(text: string) {
    && text != ""
    && (forall c <- text :: '0' <= c <= '9' || c in "+-.eE")
    && (forall i :: 0 <= i < |text| - 1 ==> !(text[i] == '-' && text[i + 1] == '-'))
  }

  predicate WellFormedKey(key: Key) {
    key.Number? ==> IsNumeral(key.text)
  }

  /** Separators on both sides of `middle` let it join safe text. */
  lemma SafeAround(a: string, left: char, middle: string, right: char, b: string, word: char -> bool)
    requires Safe(a, word) && Safe(middle, word) && Safe(b, word)
    requires IsSeparator(left, word) && IsSeparator(right, word)
    ensures Safe(a + [left] + middle + [right] + b, word)
  {
    SafeJoin(a, left, middle, word);
    SafeJoin(a + [left] + middle, right, b, word);
  }

  lemma Separators(word: char -> bool)
    requires IsWordClass(word)
    ensures IsSeparator(' ', word) && IsSeparator('(', word) && IsSeparator(')', word)
    ensures IsSeparator(',', word) && IsSeparator('|', word)
    ensures forall c :: IsSpace(c) ==> IsSeparator(c, word)
  {
  }

  lemma SafeAroundChr(a: string, b: string, word: char -> bool)
    requires IsWordClass(word) && Safe(a, word) && Safe(b, word)
    ensures Safe(a + CHR_SEPARATOR + b, word)
  {
    hide Safe, IsWordClass, IsSeparator;
    Separators(word);
    PlainIsSafe("", word);
    PlainIsSafe("CHR", word);
    PlainIsSafe("92", word);
    SafeAround(a, ' ', "", '|', "", word);
    var p := a + [' '] + "" + ['|'] + "";
    SafeAround(p, '|', "", ' ', "CHR", word);
    var q := p + ['|'] + "" + [' '] + "CHR";
    SafeAround(q, '(', "92", ')', "", word);
    var r := q + ['('] + "92" + [')'] + "";
    SafeAround(r, ' ', "", '|', "", word);
    var t := r + [' '] + "" + ['|'] + "";
    SafeAround(t, '|', "", ' ', b, word);
    ChrSeparatorUnfolds(a, b);
  }

  /** The separator, character by character, as `SafeAroundChr` assembles it. */
  lemma ChrSeparatorUnfolds(a: string, b: string)
    ensures var p := a + [' '] + "" + ['|'] + "";
            var q := p + ['|'] + "" + [' '] + "CHR";
            var r := q + ['('] + "92" + [')'] + "";
            var t := r + [' '] + "" + ['|'] + "";
            a + CHR_SEPARATOR + b == t + ['|'] + "" + [' '] + b
  {
    var p := a + [' '] + "" + ['|'] + "";
    assert p == a + " |";
    var q := p + ['|'] + "" + [' '] + "CHR";
    assert q == a + " || CHR";
    var r := q + ['('] + "92" + [')'] + "";
    assert r == a + " || CHR(92)";
    var t := r + [' '] + "" + ['|'] + "";
    assert t == a + " || CHR(92) |";
    assert t + ['|'] + "" + [' '] == a + CHR_SEPARATOR;
  }

  lemma {:induction false} SafeParts(parts: seq<string>, word: char -> bool)
    requires IsWordClass(word) && parts != []
    ensures Safe(Join(QuotedParts(parts), CHR_SEPARATOR), word)
  {
    QuotedIsSafe(parts[0], '\'', word);
    if |parts| > 1 {
      SafeParts(parts[1..], word);
      assert QuotedParts(parts)[1..] == QuotedParts(parts[1..]);
      SafeAroundChr(Quoted(parts[0], '\''), Join(QuotedParts(parts[1..]), CHR_SEPARATOR), word);
    }
  }

  lemma SafeNumeral(text: string, word: char -> bool)
    requires IsNumeral(text)
    ensures Safe(text, word)
  {
    assert forall i :: 0 <= i < |text| ==> text[i] in text;
    PlainIsSafe(text, word);
  }

  lemma SafeText(text: string, word: char -> bool)
    requires IsWordClass(word)
    ensures Safe(TextLiteral(text), word)
  {
    var parts := Join(QuotedParts(Split(text)), CHR_SEPARATOR);
    Separators(word);
    PlainIsSafe("", word);
    SafeParts(Split(text), word);
    SafeAround("", '(', parts, ')', "", word);
    assert TextLiteral(text) == "" + ['('] + parts + [')'] + "";
  }

  lemma SafeLiteral(key: Key, word: char -> bool)
    requires IsWordClass(word) && WellFormedKey(key) && Literal(key).Success?
    ensures Safe(Literal(key).value, word)
  {
    match key
    case Boolean(value) =>
      PlainIsSafe("TRUE", word);
      PlainIsSafe("FALSE", word);
    case Number(text) => SafeNumeral(text, word);
    case Text(text) => SafeText(text, word);
  }

  lemma {:induction false} SafeLiterals(keys: seq<Key>, word: char -> bool)
    requires IsWordClass(word) && Literals(keys).Success? && forall key <- keys :: WellFormedKey(key)
    ensures Safe(Join(Literals(keys).value, ", "), word)
  {
    Separators(word);
    PlainIsSafe("", word);
    if keys != [] {
      SafeLiteral(keys[0], word);
      SafeLiterals(keys[1..], word);
      var first, rest := Literal(keys[0]).value, Literals(keys[1..]).value;
      assert Literals(keys).value[1..] == rest;
      if rest != [] {
        SafeAround(first, ',', "", ' ', Join(rest, ", "), word);
        assert first + ", " + Join(rest, ", ") == first + [','] + "" + [' '] + Join(rest, ", ");
      }
    }
  }

  lemma {:induction false} StripLeftSafe(s: string, word: char -> bool)
    requires IsWordClass(word) && Safe(StripLeft(s), word)
    ensures Safe(s, word)
  {
    if s != "" && IsSpace(s[0]) {
      Separators(word);
      PlainIsSafe("", word);
      StripLeftSafe(s[1..], word);
      SafeJoin("", s[0], s[1..], word);
      assert "" + [s[0]] + s[1..] == s;
    }
  }

  lemma {:induction false} StripRightSafe(s: string, word: char -> bool)
    requires IsWordClass(word) && Safe(StripRight(s), word)
    ensures Safe(s, word)
  {
    if s != "" && IsSpace(s[|s| - 1]) {
      Separators(word);
      PlainIsSafe("", word);
      StripRightSafe(s[..|s| - 1], word);
      SafeJoin(s[..|s| - 1], s[|s| - 1], "", word);
      assert s[..|s| - 1] + [s[|s| - 1]] + "" == s;
    }
  }

  lemma AcceptedIsSafe(text: string, word: char -> bool)
    requires IsWordClass(word) && ValidatePredicate(text, word).Success?
    ensures Safe(text, word)
  {
    AcceptsExactly(text, word);
    StripRightSafe(StripLeft(text), word);
    StripLeftSafe(text, word);
  }

  lemma SafeMembership(column: string, keys: seq<Key>, word: char -> bool)
    requires IsWordClass(word) && Membership(column, keys).Success? && forall key <- keys :: WellFormedKey(key)
    ensures Safe(Membership(column, keys).value, word)
  {
    if keys == [] {
      PlainIsSafe("FALSE", word);
      return;
    }
    var name, values := QuoteIdentifier(column).value, Join(Literals(keys).value, ", ");
    Separators(word);
    PlainIsSafe("", word);
    PlainIsSafe("IN", word);
    QuotedIsSafe(column, '"', word);
    SafeLiterals(keys, word);
    hide Safe, IsWordClass, IsSeparator, Join, Literals;
    SafeAround(name, ' ', "IN", ' ', "", word);
    SafeAround(name + [' '] + "IN" + [' '] + "", '(', values, ')', "", word);
    assert name + " IN (" + values + ")"
        == name + [' '] + "IN" + [' '] + "" + ['('] + values + [')'] + "";
  }

  lemma SafeConjunction(base: string, membership: string, word: char -> bool)
    requires IsWordClass(word) && Safe(base, word) && Safe(membership, word)
    ensures ValidatePredicate("(" + base + ") AND (" + membership + ")", word)
            == Success("(" + base + ") AND (" + membership + ")")
  {
    Separators(word);
    PlainIsSafe("", word);
    PlainIsSafe("AND", word);
    SafeAround("", '(', base, ')', "", word);
    var left := "" + ['('] + base + [')'] + "";
    SafeAround(left, ' ', "AND", ' ', "", word);
    var middle := left + [' '] + "AND" + [' '] + "";
    SafeAround(middle, '(', membership, ')', "", word);
    var text := middle + ['('] + membership + [')'] + "";
    Conjoined(base, membership, text);
    assert Strip(text) == text;
    AcceptsExactly(text, word);
  }

  lemma Conjoined(base: string, membership: string, text: string)
    requires text == "" + ['('] + base + [')'] + "" + [' '] + "AND" + [' '] + "" + ['('] + membership + [')'] + ""
    ensures text == "(" + base + ") AND (" + membership + ")"
    ensures text[0] == '(' && text[|text| - 1] == ')'
  {
    assert ") AND (" == [')'] + "" + [' '] + "AND" + [' '] + "" + ['('];
    assert "(" == ['('] && ")" == [')'];
  }

  /**
   Every predicate a cohort capture builds is accepted, for any list of keys, when the configured
   predicate is.
   */
  lemma CohortPredicateAccepted(where: Option<string>, column: string, keys: seq<Key>, word: char -> bool)
    requires IsWordClass(word) && forall key <- keys :: WellFormedKey(key)
    requires where.Some? && where.value != "" ==> ValidatePredicate(where.value, word).Success?
    requires CohortPredicate(where, column, keys).Success?
    ensures ValidatePredicate(CohortPredicate(where, column, keys).value, word)
            == Success(CohortPredicate(where, column, keys).value)
  {
    PlainIsSafe("TRUE", word);
    if where.Some? && where.value != "" {
      AcceptedIsSafe(where.value, word);
    }
    SafeMembership(column, keys, word);
    SafeConjunction(Base(where), Membership(column, keys).value, word);
  }
}
