/**
 What a cohort predicate means. An independent reader of the printed text finds the base predicate, the
 column and the keys in it, with no regard to how they were printed.
 */
module Cohorts {
  import opened Outcomes
  import opened Identity
  import opened Predicates
  import Planning

  /** A predicate read back: the base, and the column with its admitted keys; none when it admits nothing. */
  datatype Cohort = Cohort(base: string, column: Option<string>, keys: seq<Key>)

  /** A row is selected when it satisfies the base and its column holds one of the keys. */
  predicate Selects(c: Cohort, satisfiesBase: bool, value: Option<Key>) {
    satisfiesBase && c.column.Some? && value.Some? && value.value in c.keys
  }

  // ---------- the reader ----------

  /** The text before the first comma or closing parenthesis, and what follows it. */
  function Token(s: string): (r: (string, string))
    ensures r.0 + r.1 == s
  {
    if s == "" || s[0] == ',' || s[0] == ')' then ("", s)
    else
      var rest := Token(s[1..]);
      ([s[0]] + rest.0, rest.1)
  }

  /** A string expression, a truth value, or the text of a number. */
  function ReadValue(s: string): (r: Option<(Key, string)>)
    ensures r.Some? ==> |r.value.1| < |s|
  {
    if s != "" && s[0] == '(' then
      var text := Evaluate(s);
      if text.None? then None else Some((Text(text.value.0), text.value.1))
    else
      var (token, rest) := Token(s);
      if token == "" then None
      else if token == "TRUE" || token == "FALSE" then Some((Boolean(token == "TRUE"), rest))
      else Some((Number(token), rest))
  }

  function ReadValues(s: string): Option<(seq<Key>, string)>
    decreases |s|
  {
    var first := ReadValue(s);
    if first.None? then None
    else if ", " <= first.value.1 then
      var rest := ReadValues(first.value.1[2..]);
      if rest.None? then None else Some(([first.value.0] + rest.value.0, rest.value.1))
    else Some(([first.value.0], first.value.1))
  }

  function ReadMembership(s: string): Option<(Option<string>, seq<Key>)> {
    if s == "FALSE" then Some((None, []))
    else if s == "" || s[0] != '"' then None
    else
      var column := ReadQuoted(s[1..], '"');
      if column.None? || !(" IN (" <= column.value.1) then None
      else
        var values := ReadValues(column.value.1[5..]);
        if values.None? || values.value.1 != ")" then None else Some((Some(column.value.0), values.value.0))
  }

  const CONJUNCTION := ") AND ("

  /** What is before and behind the last conjunction outside quoted values. */
  function SplitLast(state: State, s: string): Option<(string, string)>
    decreases |s|
  {
    if s == "" then None
    else
      var later := SplitLast(Step(state, s[0]).0, s[1..]);
      if later.Some? then Some(([s[0]] + later.value.0, later.value.1))
      else if !state.Inside? && CONJUNCTION <= s then Some(("", s[7..]))
      else None
  }

  function ReadCohort(s: string): Option<Cohort> {
    if |s| < 2 || s[0] != '(' || s[|s| - 1] != ')' then None
    else
      var parts := SplitLast(Outside, s[1..|s| - 1]);
      if parts.None? then None
      else
        var membership := ReadMembership(parts.value.1);
        if membership.None? then None
        else Some(Cohort(parts.value.0, membership.value.0, membership.value.1))
  }

  // ---------- the values ----------

  lemma {:induction false} TokenEnds(token: string, rest: string)
    requires ',' !in token && ')' !in token && rest != "" && (rest[0] == ',' || rest[0] == ')')
    ensures Token(token + rest) == (token, rest)
  {
    if token == "" {
      assert token + rest == rest;
    } else {
      assert (token + rest)[1..] == token[1..] + rest;
      TokenEnds(token[1..], rest);
      assert [token[0]] + token[1..] == token;
    }
  }

  lemma ValueRoundTrip(key: Key, rest: string)
    requires Literal(key).Success? && WellFormedKey(key) && rest != "" && (rest[0] == ',' || rest[0] == ')')
    ensures ReadValue(Literal(key).value + rest) == Some((key, rest))
  {
    var printed := Literal(key).value;
    match key {
      case Boolean(value) => TokenEnds(printed, rest);
      case Number(text) => NumeralRoundTrip(text, rest);
      case Text(text) =>
        LiteralRoundTrip(text, rest);
        hide Evaluate, Join, QuotedParts, Split;
        assert (printed + rest)[0] == '(';
    }
  }

  lemma NumeralRoundTrip(text: string, rest: string)
    requires IsNumeral(text) && rest != "" && (rest[0] == ',' || rest[0] == ')')
    ensures ReadValue(text + rest) == Some((Number(text), rest))
  {
    assert text[0] in text;
    TokenEnds(text, rest);
    assert (text + rest)[0] == text[0];
  }

  lemma ReadValuesCons(printed: string, key: Key, tail: string, keys: seq<Key>, rest: string)
    requires ReadValue(printed + (", " + tail)) == Some((key, ", " + tail))
    requires ReadValues(tail) == Some((keys, rest))
    ensures ReadValues(printed + (", " + tail)) == Some(([key] + keys, rest))
  {
    hide ReadValue;
    assert (", " + tail)[2..] == tail;
  }

  lemma {:induction false} ValuesRoundTrip(keys: seq<Key>)
    requires keys != [] && Literals(keys).Success? && forall key <- keys :: WellFormedKey(key)
    ensures ReadValues(Join(Literals(keys).value, ", ") + ")") == Some((keys, ")"))
  {
    var first := Literal(keys[0]).value;
    hide ReadValue, Literal, WellFormedKey;
    if |keys| == 1 {
      assert Literals(keys).value == [first];
      ValueRoundTrip(keys[0], ")");
      assert [keys[0]] == keys;
    } else {
      ValuesRoundTrip(keys[1..]);
      LiteralsCons(keys);
      hide ReadValues, Literals, Join;
      var rest := Join(Literals(keys[1..]).value, ", ");
      ValueRoundTrip(keys[0], ", " + (rest + ")"));
      ReadValuesCons(first, keys[0], rest + ")", keys[1..], ")");
      assert first + (", " + rest) + ")" == first + (", " + (rest + ")"));
      assert [keys[0]] + keys[1..] == keys;
    }
  }

  lemma MembershipRoundTrip(column: string, keys: seq<Key>)
    requires Membership(column, keys).Success? && forall key <- keys :: WellFormedKey(key)
    ensures ReadMembership(Membership(column, keys).value)
         == Some((if keys == [] then None else Some(column), keys))
  {
    if keys != [] {
      hide ReadMembership, ReadValues, ReadQuoted, Literals, Join, WellFormedKey, Quoted;
      var name, values := QuoteIdentifier(column).value, Join(Literals(keys).value, ", ");
      ValuesRoundTrip(keys);
      IdentifierRoundTrip(column, " IN (" + (values + ")"));
      ReadsMembership(name, column, values + ")", keys);
      assert name + " IN (" + values + ")" == name + (" IN (" + (values + ")"));
    }
  }

  lemma ReadsMembership(name: string, column: string, values: string, keys: seq<Key>)
    requires var s := name + (" IN (" + values);
             s[0] == '"' && ReadQuoted(s[1..], '"') == Some((column, " IN (" + values))
    requires ReadValues(values) == Some((keys, ")"))
    ensures ReadMembership(name + (" IN (" + values)) == Some((Some(column), keys))
  {
    hide ReadValues, ReadQuoted;
    assert (" IN (" + values)[5..] == values;
  }

  // ---------- the conjunction ----------

  /** No quoted value stays open, and there is no `D` outside of them: the text holds no conjunction. */
  predicate Quiet(s: string) {
    !Scan(Outside, s).0.Inside? && 'D' !in Scan(Outside, s).1
  }

  /** Text without quotes is read as it is, outside and just behind a quoted value. */
  lemma ScanUnquoted(state: State, s: string)
    requires s != "" && !HasQuote(s) && !state.Inside? && TracksQuotes(state)
    ensures Scan(state, s) == (Outside, s)
  {
    ScanPlain(s);
    assert IsQuote(s[0]) ==> HasQuote(s);
    assert Step(state, s[0]) == Step(Outside, s[0]);
  }

  lemma QuietAcross(a: string, middle: string, b: string)
    requires Quiet(a) && Quiet(b) && middle != "" && !HasQuote(middle) && 'D' !in middle
    ensures Quiet(a + middle + b)
  {
    ScanTracksQuotes(Outside, a);
    ScanUnquoted(Scan(Outside, a).0, middle);
    ScanConcat(Outside, a, middle);
    ScanConcat(Outside, a + middle, b);
    hide Scan;
  }

  lemma QuietPlain(s: string)
    requires !HasQuote(s) && 'D' !in s
    ensures Quiet(s)
  {
    ScanPlain(s);
  }

  lemma QuietQuoted(text: string, quote: char)
    requires IsQuote(quote)
    ensures Quiet(Quoted(text, quote))
  {
    ScanQuoted(text, quote);
  }

  lemma {:induction false} QuietParts(parts: seq<string>)
    requires parts != []
    ensures Quiet(Join(QuotedParts(parts), CHR_SEPARATOR))
  {
    QuietQuoted(parts[0], '\'');
    hide Quiet, Quoted;
    if |parts| > 1 {
      QuietParts(parts[1..]);
      assert QuotedParts(parts)[1..] == QuotedParts(parts[1..]);
      assert Quiet(QuotedParts(parts)[0]);
      QuietAcross(QuotedParts(parts)[0], CHR_SEPARATOR, Join(QuotedParts(parts[1..]), CHR_SEPARATOR));
    }
  }

  lemma QuietLiteral(key: Key)
    requires Literal(key).Success? && WellFormedKey(key)
    ensures Quiet(Literal(key).value)
  {
    match key {
      case Boolean(_) => QuietPlain(Literal(key).value);
      case Number(text) => QuietPlain(text);
      case Text(text) =>
        var parts := Join(QuotedParts(Split(text)), CHR_SEPARATOR);
        QuietParts(Split(text));
        QuietPlain("");
        QuietAcross("", "(", parts);
        QuietAcross("" + "(" + parts, ")", "");
        assert TextLiteral(text) == "" + "(" + parts + ")" + "";
    }
  }

  lemma {:induction false} QuietLiterals(keys: seq<Key>)
    requires Literals(keys).Success? && forall key <- keys :: WellFormedKey(key)
    ensures Quiet(Join(Literals(keys).value, ", "))
  {
    if keys == [] {
      QuietPlain("");
    } else {
      QuietLiteral(keys[0]);
      QuietLiterals(keys[1..]);
      hide Quiet, Literal, WellFormedKey;
      var first, rest := Literal(keys[0]).value, Literals(keys[1..]).value;
      assert Literals(keys).value[1..] == rest;
      if rest != [] {
        QuietAcross(first, ", ", Join(rest, ", "));
      }
    }
  }

  lemma QuietMembership(column: string, keys: seq<Key>)
    requires Membership(column, keys).Success? && forall key <- keys :: WellFormedKey(key)
    ensures Quiet(Membership(column, keys).value)
  {
    QuietPlain("FALSE");
    if keys != [] {
      hide Literals, Join, WellFormedKey, Scan;
      var name, values := QuoteIdentifier(column).value, Join(Literals(keys).value, ", ");
      QuietQuoted(column, '"');
      QuietLiterals(keys);
      QuietPlain("");
      hide Quiet, Quoted;
      QuietAcross(name, " IN (", values);
      QuietAcross(name + " IN (" + values, ")", "");
      assert Membership(column, keys).value == name + " IN (" + values + ")" + "";
    }
  }

  /** A conjunction outside quoted values leaves its letters in the executable text. */
  lemma {:induction false} QuietHasNoConjunction(state: State, s: string)
    requires TracksQuotes(state) && 'D' !in Scan(state, s).1
    ensures SplitLast(state, s).None?
    decreases |s|
  {
    if s != "" {
      QuietHasNoConjunction(Step(state, s[0]).0, s[1..]);
      if !state.Inside? && CONJUNCTION <= s {
        ConjunctionIsRead(state, s);
      }
    }
  }

  lemma ConjunctionIsRead(state: State, s: string)
    requires TracksQuotes(state) && !state.Inside? && CONJUNCTION <= s
    ensures 'D' in Scan(state, s).1
  {
    assert s == CONJUNCTION + s[7..];
    ScanUnquoted(state, CONJUNCTION);
    ScanConcat(state, CONJUNCTION, s[7..]);
    assert CONJUNCTION[4] == 'D';
  }

  lemma {:induction false} NoConjunctionBehind(lead: string, s: string)
    requires !HasQuote(lead) && ')' !in lead && SplitLast(Outside, s).None?
    ensures SplitLast(Outside, lead + s).None?
  {
    if lead == "" {
      assert lead + s == s;
    } else {
      assert (lead + s)[1..] == lead[1..] + s;
      assert lead == [lead[0]] + lead[1..];
      NoConjunctionBehind(lead[1..], s);
    }
  }

  lemma SplitsHere(state: State, rest: string)
    requires !state.Inside? && TracksQuotes(state) && SplitLast(Outside, rest).None?
    ensures SplitLast(state, CONJUNCTION + rest) == Some(("", rest))
  {
    var s := CONJUNCTION + rest;
    NoConjunctionBehind(" AND (", rest);
    assert s[0] == ')' && s[1..] == " AND (" + rest && s[7..] == rest;
    assert Step(state, ')').0 == Outside;
  }

  lemma {:induction false} SplitsAtBase(state: State, base: string, rest: string)
    requires !Scan(state, base).0.Inside? && SplitLast(Outside, rest).None?
    requires TracksQuotes(state)
    ensures SplitLast(state, base + (CONJUNCTION + rest)) == Some((base, rest))
    decreases |base|
  {
    var s := base + (CONJUNCTION + rest);
    if base == "" {
      SplitsHere(state, rest);
      assert s == CONJUNCTION + rest;
    } else {
      assert s[1..] == base[1..] + (CONJUNCTION + rest);
      SplitsAtBase(Step(state, s[0]).0, base[1..], rest);
      assert [base[0]] + base[1..] == base;
    }
  }

  // ---------- the predicate ----------

  /** A key the printer accepts. */
  predicate Printable(key: Key) {
    !key.Unsupported? && (key.Text? ==> forall c <- key.text :: c >= ' ')
  }

  /** A column name that can be quoted. */
  predicate IsName(name: string) {
    name != "" && forall c <- name :: c >= ' '
  }

  lemma QuotesExactly(name: string)
    ensures QuoteIdentifier(name).Success? <==> IsName(name)
    ensures QuoteIdentifier(name).Failure? ==> QuoteIdentifier(name).error == BindingError
  {
  }

  lemma {:induction false} PrintsExactly(keys: seq<Key>)
    ensures Literals(keys).Success? <==> forall key <- keys :: Printable(key)
  {
    if keys != [] {
      PrintsExactly(keys[1..]);
      assert keys == [keys[0]] + keys[1..];
      assert Literal(keys[0]).Success? <==> Printable(keys[0]);
    }
  }

  /** The configured predicate, or `TRUE`. */
  function BaseText(where: Option<string>): string {
    if where.None? || where == Some("") then "TRUE" else where.value
  }

  lemma BaseIsClosed(where: Option<string>, word: char -> bool)
    requires IsWordClass(word)
    requires where.Some? && where.value != "" ==> ValidatePredicate(where.value, word).Success?
    ensures Base(where) == BaseText(where) && !Scan(Outside, BaseText(where)).0.Inside?
  {
    ScanPlain("TRUE");
    if where.Some? && where.value != "" {
      AcceptedIsSafe(where.value, word);
    }
  }

  lemma ReadsCohort(base: string, membership: string, column: Option<string>, keys: seq<Key>)
    requires SplitLast(Outside, base + (CONJUNCTION + membership)) == Some((base, membership))
    requires ReadMembership(membership) == Some((column, keys))
    ensures ReadCohort("(" + (base + (CONJUNCTION + membership)) + ")") == Some(Cohort(base, column, keys))
  {
    hide SplitLast, ReadMembership;
    var inner := base + (CONJUNCTION + membership);
    var s := "(" + inner + ")";
    assert s[1..|s| - 1] == inner;
  }

  lemma Conjoins(base: string, membership: string)
    ensures "(" + base + ") AND (" + membership + ")" == "(" + (base + (CONJUNCTION + membership)) + ")"
  {
  }

  /**
   What a cohort predicate says. Whenever it can be printed, and that is exactly when every key can and the
   column can be quoted, it reads back as the configured base, the column and exactly the keys, in order.
   */
  lemma CohortRoundTrip(where: Option<string>, column: string, keys: seq<Key>, word: char -> bool)
    requires IsWordClass(word) && forall key <- keys :: WellFormedKey(key)
    requires where.Some? && where.value != "" ==> ValidatePredicate(where.value, word).Success?
    ensures var printed := CohortPredicate(where, column, keys);
            && (printed.Success? <==>
                  (forall key <- keys :: Printable(key)) && (keys == [] || IsName(column)))
            && (printed.Success? ==>
                  ReadCohort(printed.value)
                  == Some(Cohort(BaseText(where), if keys == [] then None else Some(column), keys)))
  {
    PrintsExactly(keys);
    QuotesExactly(column);
    hide Literals, Printable, WellFormedKey, QuoteIdentifier, IsName;
    if CohortPredicate(where, column, keys).Success? {
      var base, membership := BaseText(where), Membership(column, keys).value;
      BaseIsClosed(where, word);
      MembershipRoundTrip(column, keys);
      QuietMembership(column, keys);
      QuietHasNoConjunction(Outside, membership);
      SplitsAtBase(Outside, base, membership);
      hide SplitLast, ReadMembership, Membership, Scan, BaseText;
      ReadsCohort(base, membership, if keys == [] then None else Some(column), keys);
      Conjoins(base, membership);
    }
  }

  /** Which rows it selects: those of the base whose column holds one of the keys, and none when there is no key. */
  lemma CohortSelects(
    where: Option<string>, column: string, keys: seq<Key>, word: char -> bool, base: bool, value: Option<Key>)
    requires IsWordClass(word) && forall key <- keys :: WellFormedKey(key)
    requires where.Some? && where.value != "" ==> ValidatePredicate(where.value, word).Success?
    requires CohortPredicate(where, column, keys).Success?
    ensures var read := ReadCohort(CohortPredicate(where, column, keys).value);
            && read.Some?
            && (Selects(read.value, base, value) <==> base && value.Some? && value.value in keys)
            && (keys == [] ==> !Selects(read.value, base, value))
  {
    CohortRoundTrip(where, column, keys, word);
    hide ReadCohort, CohortPredicate;
  }

  // ---------- the request of a child ----------

  /**
   `materialize_cohort`. A child's request is derived exactly when the parent's keys can be read, are not
   too many, and can be printed. It is the source's own request, sampled by the predicate whose base is
   the source's own, whose column is the rule's key, and whose keys are the parent's; its scope names the
   parent's snapshot and the rule.
   */
  lemma ChildRequest(
    base: Request, recipe: Recipe, parent: SnapshotKey, content: seq<Table>, read: Planning.KeyReader,
    word: char -> bool)
    requires IsWordClass(word)
    requires read(content, recipe).Success? ==> forall key <- read(content, recipe).value :: WellFormedKey(key)
    requires base.sampling.where.Some? && base.sampling.where.value != "" ==>
               ValidatePredicate(base.sampling.where.value, word).Success?
    ensures var keys, child := read(content, recipe), Planning.CohortRequest(base, recipe, parent, content, read);
            && (child.Success? <==>
                  && keys.Success?
                  && |keys.value| <= recipe.maxKeys
                  && (forall key <- keys.value :: Printable(key))
                  && (keys.value == [] || IsName(recipe.key)))
            && (keys.Failure? ==> child == Failure(keys.error))
            && (keys.Success? && |keys.value| > recipe.maxKeys ==> child == Failure(PolicyError))
            && (child.Success? ==>
                  && child.value.(sampling := base.sampling, scope := base.scope) == base
                  && child.value.scope == Derived(base.scope, parent, recipe)
                  && child.value.sampling.strategy == Where
                  && child.value.sampling.where.Some?
                  && child.value.sampling.(strategy := Where, where := None)
                     == Sampling(Where, None, None, None, None, None)
                  && ReadCohort(child.value.sampling.where.value)
                     == Some(Cohort(BaseText(base.sampling.where),
                                    if keys.value == [] then None else Some(recipe.key), keys.value)))
  {
    if read(content, recipe).Success? {
      CohortRoundTrip(base.sampling.where, recipe.key, read(content, recipe).value, word);
    }
    hide CohortPredicate, ReadCohort, BaseText, Printable, WellFormedKey, IsName, ValidatePredicate;
  }
}
