/**
 * The calculator plugin (`CalculatorSource.search` in
 * `src/plugins/core/calculator.ts`). A query is cleaned (trimmed, one leading
 * `=` and the whitespace after it dropped, all whitespace removed) and must
 * then consist of digits, operators, parentheses and dots with at least one
 * operator. Evaluation of the cleaned expression is an oracle; only a
 * finite number becomes a result, which copies its text on activation.
 */
module Calculator {
  import opened Interface
  import opened Text

  /** What evaluating the cleaned text gives: a finite number with its display text, or one of the rejected outcomes. */
  datatype Evaluation = Finite(display: string) | NotANumber | Infinite | NotNumeric | Thrown

  const Icon := "accessories-calculator"
  const Score := 110

  /** The characters `[0-9+\-*\/().]` the expression may consist of. */
  predicate Allowed(c: char) {
    '0' <= c <= '9' || c == '+' || c == '-' || c == '*' || c == '/' || c == '(' || c == ')' || c == '.'
  }

  /** The operators `[+\-*\/]`, one of which a calculation must contain. */
  predicate Operator(c: char) {
    c == '+' || c == '-' || c == '*' || c == '/'
  }

  /** One leading `=` and the whitespace after it dropped. */
  function Unprefixed(q: string): string {
    if "=" <= q then Trim(q[1..]) else q
  }

  /** `clean`: the query trimmed, unprefixed and stripped of every whitespace character. */
  function Clean(query: string): (clean: string)
    ensures forall c :: c in clean ==> !IsSpace(c)
  {
    RemoveSpacesMembers(Unprefixed(Trim(query)));
    RemoveSpaces(Unprefixed(Trim(query)))
  }

  /** Both tests of the validation: only allowed characters, at least one of them, and an operator among them. */
  predicate Accepted(clean: string) {
    && |clean| > 0
    && (forall k :: 0 <= k < |clean| ==> Allowed(clean[k]))
    && (exists k :: 0 <= k < |clean| && Operator(clean[k]))
  }

  /** `search(query)`, with the evaluation of a cleaned expression given as `evaluate`. */
  function Search(query: string, evaluate: string -> Evaluation): (r: seq<SearchResult>)
    ensures |r| <= 1
    ensures |r| == 1 <==> |query| >= 3 && Accepted(Clean(query)) && evaluate(Clean(query)).Finite?
    ensures |r| == 1 ==>
      var d := evaluate(Clean(query)).display;
      r[0] == SearchResult(d, "Result of " + query, Score, Some(Icon), CopyToClipboard(d))
  {
    if |query| < 3 then []
    else
      var clean := Clean(query);
      if !Accepted(clean) then []
      else
        match evaluate(clean)
        case Finite(d) => [SearchResult(d, "Result of " + query, Score, Some(Icon), CopyToClipboard(d))]
        case _ => []
  }

  /** Queries shorter than three characters, the empty one included, give nothing whatever they hold. */
  lemma ShortQueryGivesNothing(query: string, evaluate: string -> Evaluation)
    requires |query| < 3
    ensures Search(query, evaluate) == []
  {
  }

  /** A cleaned text with a character outside the expression alphabet gives nothing, before any evaluation. */
  lemma ForeignCharacterGivesNothing(query: string, evaluate: string -> Evaluation, c: char)
    requires c in Clean(query) && !Allowed(c)
    ensures Search(query, evaluate) == []
  {
  }

  /** A cleaned text without an operator, such as a plain number, gives nothing. */
  lemma NoOperatorGivesNothing(query: string, evaluate: string -> Evaluation)
    requires forall c :: c in Clean(query) ==> !Operator(c)
    ensures Search(query, evaluate) == []
  {
    var clean := Clean(query);
    forall k | 0 <= k < |clean| ensures !Operator(clean[k]) {
      assert clean[k] in clean;
    }
  }

  /** Whatever the evaluation, non-numbers, NaN, infinities and throws give nothing. */
  lemma RejectedEvaluationGivesNothing(query: string, evaluate: string -> Evaluation)
    requires !evaluate(Clean(query)).Finite?
    ensures Search(query, evaluate) == []
  {
  }

  lemma TrimLeadingSpace(t: string)
    requires |t| > 0 && !IsSpace(t[0]) && !IsSpace(t[|t| - 1])
    ensures Trim(" " + t) == t
  {
    assert (" " + t)[0] == ' ' && (" " + t)[1..] == t;
    assert TrimStart(" " + t) == TrimStart(t) == t;
  }

  /** The prefixed query of the test suite cleans to `10/2`. */
  lemma CleanPrefixed()
    ensures Clean("= 10 / 2") == "10/2"
  {
    TrimPlain("= 10 / 2");
    assert "= 10 / 2"[1..] == " " + "10 / 2";
    TrimLeadingSpace("10 / 2");
    assert Unprefixed(Trim("= 10 / 2")) == "10 / 2";
    RemoveSpacesDivision();
  }

  lemma RemoveSpacesDivision()
    ensures RemoveSpaces("10 / 2") == "10/2"
  {
    assert "10 / 2"[1..] == "0 / 2" && "0 / 2"[1..] == " / 2" && " / 2"[1..] == "/ 2";
    assert "/ 2"[1..] == " 2" && " 2"[1..] == "2" && "2"[1..] == "";
    assert RemoveSpaces("2") == "2";
    assert RemoveSpaces(" 2") == "2";
    assert RemoveSpaces("/ 2") == "/2";
    assert RemoveSpaces(" / 2") == "/2";
    assert RemoveSpaces("0 / 2") == "0/2";
  }

  /** The addition of the test suite cleans to `2+2`, which passes both tests. */
  lemma CleanAddition()
    ensures Clean("2 + 2") == "2+2" && Accepted("2+2")
  {
    TrimPlain("2 + 2");
    assert RemoveSpaces("2 + 2") == "2+2";
    assert Operator("2+2"[1]);
  }

  /** The addition gives one result, titled with whatever text the evaluation displays. */
  lemma AdditionResult(evaluate: string -> Evaluation)
    requires evaluate("2+2") == Finite("4")
    ensures Search("2 + 2", evaluate) == [SearchResult("4", "Result of 2 + 2", 110, Some(Icon), CopyToClipboard("4"))]
  {
    CleanAddition();
    assert |"2 + 2"| >= 3;
    assert "Result of " + "2 + 2" == "Result of 2 + 2";
  }

  /** A plain number has no operator and gives nothing. */
  lemma PlainNumberIgnored(evaluate: string -> Evaluation)
    ensures Search("123", evaluate) == []
  {
    TrimPlain("123");
    assert RemoveSpaces("123") == "123";
    assert Clean("123") == "123";
    NoOperatorGivesNothing("123", evaluate);
  }

  /** Letters in the expression give nothing. */
  lemma LettersIgnored(evaluate: string -> Evaluation)
    ensures Search("2 + abc", evaluate) == []
  {
    LetterSurvivesCleaning();
    ForeignCharacterGivesNothing("2 + abc", evaluate, 'a');
  }

  lemma LetterSurvivesCleaning()
    ensures 'a' in Clean("2 + abc")
  {
    var q := "2 + abc";
    TrimPlain(q);
    assert !("=" <= q) by {
      assert q[0] == '2';
    }
    assert Clean(q) == RemoveSpaces(q);
    assert q[4] == 'a';
    RemoveSpacesMembers(q);
  }
}
