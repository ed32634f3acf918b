/** The two commands `parse_command` is tried on in ai_services.py, followed
    pass by pass through the rewriting.  Each pass is a lemma over its texts;
    the facts about the literal texts sit in small lemmas of their own. */
module VoiceSamples {
  import opened Text
  import opened Tokens
  import opened Scanner
  import opened Voice
  import opened Parsing
  import opened Printing
  import opened Spelling
  import opened Interpreting
  import opened Calculator
  import SelfTest

  // "what is five to the power of three": the stop words go, the power
  // phrase becomes `**`, the number words become digits.

  const PowerUnstopped: string := " five " + "to the power of" + " three"
  const PowerQuestion: string := "what is" + PowerUnstopped
  const PowerSymbols: string := " five " + "**" + " three"
  const PowerThree: string := " five ** 3"
  const PowerDigits: string := " " + "5" + " ** 3"

  lemma PowerLower()
    ensures Lower(PowerQuestion) == PowerQuestion
  {
    assert forall i | 0 <= i < |PowerQuestion| :: !IsUpper(PowerQuestion[i]);
    LowerLeaves(PowerQuestion);
  }

  lemma PowerUnstoppedLacks()
    ensures forall k | 0 <= k < |PowerUnstopped| :: PowerUnstopped[k] !in "acdlms"
  {
  }

  lemma PowerUnstoppedSkips()
    ensures !Contains(PowerUnstopped, "what is") && !Contains(PowerUnstopped, "what's")
    ensures !Contains(PowerUnstopped, "calculate") && !Contains(PowerUnstopped, "compute")
    ensures !Contains(PowerUnstopped, "can you tell me")
  {
    PowerUnstoppedLacks();
    MissingChar(PowerUnstopped, "what is", 'a');
    MissingChar(PowerUnstopped, "what's", 'a');
    MissingChar(PowerUnstopped, "calculate", 'a');
    MissingChar(PowerUnstopped, "compute", 'c');
    MissingChar(PowerUnstopped, "can you tell me", 'a');
  }

  /** The stop-word pass on a command that opens with "what is" and holds no
      other stop word. */
  lemma OpensWithWhatIs(rest: string)
    requires !Contains(rest, "what is") && !Contains(rest, "what's") && !Contains(rest, "calculate")
    requires !Contains(rest, "compute") && !Contains(rest, "can you tell me")
    ensures ReplaceEach("what is" + rest, Deletions) == rest
  {
    TablesReplace();
    var text := "what is" + rest;
    assert Deletions[..0] == [] && text == "" + Deletions[0].0 + rest;
    ReplaceEachHits(text, Deletions, 0, "", rest);
    assert "" + "" + rest == rest;
    ReplaceEachKeeps(text, Deletions, 1, rest);
    ReplaceEachKeeps(text, Deletions, 2, rest);
    ReplaceEachKeeps(text, Deletions, 3, rest);
    ReplaceEachKeepsLast(text, Deletions, rest);
  }

  lemma PowerStopWords()
    ensures ReplaceEach(PowerQuestion, Deletions) == PowerUnstopped
  {
    PowerUnstoppedSkips();
    OpensWithWhatIs(PowerUnstopped);
  }

  /** "over" is not in "five to the power of three": no `o` is followed by `v`. */
  lemma PowerUnstoppedOver()
    ensures !Contains(PowerUnstopped, "over")
  {
    MissingPair(PowerUnstopped, "over", 0);
  }

  lemma PowerUnstoppedMissesAdding()
    ensures forall k | 0 <= k < 4 :: !Contains(PowerUnstopped, OperatorMap[k].0)
  {
    PowerUnstoppedLacks();
    MissingChar(PowerUnstopped, "plus", 'l');
    MissingChar(PowerUnstopped, "add", 'a');
    MissingChar(PowerUnstopped, "minus", 'm');
    MissingChar(PowerUnstopped, "subtract", 's');
  }

  lemma PowerUnstoppedMissesScaling()
    ensures forall k | 4 <= k < 8 :: !Contains(PowerUnstopped, OperatorMap[k].0)
  {
    PowerUnstoppedLacks();
    MissingChar(PowerUnstopped, "times", 'm');
    MissingChar(PowerUnstopped, "multiplied by", 'm');
    MissingChar(PowerUnstopped, "divided by", 'd');
    PowerUnstoppedOver();
  }

  lemma PowerSymbolsMisses()
    ensures forall k | 9 <= k < |OperatorMap| :: !Contains(PowerSymbols, OperatorMap[k].0)
  {
    forall k | 9 <= k < |OperatorMap|
      ensures !Contains(PowerSymbols, OperatorMap[k].0)
    {
      var w := OperatorMap[k].0;
      if k == 9 || k == 15 {
        MissingChar(PowerSymbols, w, 'p');
      } else if k == 10 {
        MissingChar(PowerSymbols, w, 'q');
      } else if k == 13 || k == 14 {
        MissingChar(PowerSymbols, w, 'c');
      } else {
        MissingChar(PowerSymbols, w, 'o');
      }
    }
  }

  /** The operator pass on a text whose only operator phrase is "to the power of". */
  lemma OnlyPowerPhrase(prefix: string, rest: string)
    requires 't' !in prefix && !Contains(rest, "to the power of")
    requires forall k | 0 <= k < 8 :: !Contains(prefix + "to the power of" + rest, OperatorMap[k].0)
    requires forall k | 9 <= k < |OperatorMap| :: !Contains(prefix + "**" + rest, OperatorMap[k].0)
    ensures ReplaceEach(prefix + "to the power of" + rest, OperatorMap) == prefix + "**" + rest
  {
    TablesReplace();
    var text := prefix + "to the power of" + rest;
    assert OperatorMap[..0] == [];
    ReplaceEachMisses(text, OperatorMap, 0, 8, text);
    ReplaceEachHits(text, OperatorMap, 8, prefix, rest);
    ReplaceEachMissesRest(text, OperatorMap, 9, prefix + "**" + rest);
  }

  lemma PowerOperators()
    ensures ReplaceEach(PowerUnstopped, OperatorMap) == PowerSymbols
  {
    PowerUnstoppedMissesAdding();
    PowerUnstoppedMissesScaling();
    PowerSymbolsMisses();
    MissingChar(" three", "to the power of", 'o');
    OnlyPowerPhrase(" five ", " three");
  }

  lemma PowerSymbolsMissesNumbers()
    ensures forall k | 0 <= k < 5 :: !Contains(PowerSymbols, NumberMap[k].0)
    ensures forall k | 6 <= k < 8 :: !Contains(PowerThree, NumberMap[k].0)
  {
    forall k | 0 <= k < 5
      ensures !Contains(PowerSymbols, NumberMap[k].0)
    {
      if k == 0 {
        MissingChar(PowerSymbols, NumberMap[k].0, 'z');
      } else if k == 2 {
        MissingChar(PowerSymbols, NumberMap[k].0, 'w');
      } else {
        MissingChar(PowerSymbols, NumberMap[k].0, 'o');
      }
    }
    forall k | 6 <= k < 8
      ensures !Contains(PowerThree, NumberMap[k].0)
    {
      MissingChar(PowerThree, NumberMap[k].0, 'o');
    }
  }

  lemma PowerDigitsMisses()
    ensures forall k | 9 <= k < |NumberMap| :: !Contains(PowerDigits, NumberMap[k].0)
    ensures !Contains(PowerDigits, "sqrt(")
  {
    forall k | 9 <= k < |NumberMap|
      ensures !Contains(PowerDigits, NumberMap[k].0)
    {
      MissingChar(PowerDigits, NumberMap[k].0, NumberMap[k].0[0]);
    }
    MissingChar(PowerDigits, "sqrt(", 's');
  }

  /** The number passes up to "three", on a text that ends in "three" and
      holds none of the earlier words. */
  lemma EndsInThree(head: string, t0: string)
    requires t0 == head + "three" && 't' !in head
    requires forall k | 0 <= k < 5 :: !Contains(t0, NumberMap[k].0)
    ensures ReplaceEach(t0, NumberMap[..6]) == head + "3"
  {
    TablesReplace();
    assert NumberMap[..0] == [];
    ReplaceEachMisses(t0, NumberMap, 0, 5, t0);
    assert t0 == head + NumberMap[5].0 + "";
    ReplaceEachHits(t0, NumberMap, 5, head, "");
    assert head + NumberMap[5].1 + "" == head + "3";
  }

  /** The number passes from "four" on, on a text whose only number word
      left is one "five". */
  lemma OneFiveLeft(t0: string, before: string, after: string, t2: string)
    requires ReplaceEach(t0, NumberMap[..6]) == before + "five" + after && t2 == before + "5" + after
    requires 'f' !in before && !Contains(after, "five")
    requires forall k | 6 <= k < 8 :: !Contains(before + "five" + after, NumberMap[k].0)
    requires forall k | 9 <= k < |NumberMap| :: !Contains(t2, NumberMap[k].0)
    ensures ReplaceEach(t0, NumberMap) == t2
  {
    TablesReplace();
    var t1 := before + "five" + after;
    ReplaceEachMisses(t0, NumberMap, 6, 8, t1);
    assert t1 == before + NumberMap[8].0 + after;
    ReplaceEachHits(t0, NumberMap, 8, before, after);
    assert t2 == before + NumberMap[8].1 + after;
    ReplaceEachMissesRest(t0, NumberMap, 9, t2);
  }

  lemma PowerTexts()
    ensures PowerSymbols == " five ** " + "three"
    ensures PowerThree == " " + "five" + " ** 3"
    ensures PowerDigits == " " + "5" + " ** 3"
  {
  }

  lemma PowerNumbers()
    ensures ReplaceEach(PowerSymbols, NumberMap) == PowerDigits
  {
    PowerTexts();
    PowerSymbolsMissesNumbers();
    PowerDigitsMisses();
    EndsInThree(" five ** ", PowerSymbols);
    MissingChar(" ** 3", "five", 'f');
    OneFiveLeft(PowerSymbols, " ", " ** 3", PowerDigits);
  }

  lemma PowerFilter()
    ensures Filter(PowerDigits) == PowerDigits
  {
    assert forall k | 0 <= k < |PowerDigits| :: PowerDigits[k] in KeptChars;
    FilterKeeps(PowerDigits);
  }

  lemma PowerWordsTail()
    ensures Words(" ** 3") == ["**", "3"]
  {
    assert Words("3") == ["3"] by {
      assert RunEnd("3", 0, NotSpace) == 1;
      assert "3"[..1] == "3" && "3"[1..] == [];
    }
    assert Words(" 3") == ["3"] by {
      assert " 3"[1..] == "3";
    }
    assert Words("** 3") == ["**", "3"] by {
      assert RunEnd("** 3", 0, NotSpace) == 2;
      assert "** 3"[..2] == "**" && "** 3"[2..] == " 3";
    }
    assert " ** 3"[1..] == "** 3";
  }

  lemma PowerWords()
    ensures Words(PowerDigits) == ["5", "**", "3"]
  {
    PowerWordsTail();
    assert Words("5 ** 3") == ["5", "**", "3"] by {
      assert RunEnd("5 ** 3", 0, NotSpace) == 1;
      assert "5 ** 3"[..1] == "5" && "5 ** 3"[1..] == " ** 3";
    }
    assert PowerDigits[0] == ' ' && PowerDigits[1..] == "5 ** 3";
  }

  lemma PowerNormalize()
    ensures Normalize(PowerDigits) == "5 ** 3"
  {
    PowerWords();
    assert Join(["5", "**", "3"], " ") == "5" + " " + "**" + " " + "3";
  }

  /** "what is five to the power of three" becomes "5 ** 3". */
  lemma PowerCommand()
    ensures Rewrite(Some(PowerQuestion)) == "5 ** 3"
  {
    PowerLower();
    PowerStopWords();
    PowerOperators();
    PowerNumbers();
    PowerFilter();
    PowerDigitsMisses();
    PowerNormalize();
  }

  // "calculate the square root of nine": the clean-up keeps the `t` of
  // "the", so the command comes out as "t sqrt( 9)", which the calculator
  // refuses.

  const RootUnstopped: string := " the " + "square root of" + " nine"
  const RootQuestion: string := "calculate" + RootUnstopped
  const RootSymbols: string := " the " + "sqrt(" + " nine"
  const RootDigits: string := " the sqrt( " + "9"
  const RootKept: string := " t sqrt( 9"

  lemma RootLower()
    ensures Lower(RootQuestion) == RootQuestion
  {
    assert forall i | 0 <= i < |RootQuestion| :: !IsUpper(RootQuestion[i]);
    LowerLeaves(RootQuestion);
  }

  lemma RootQuestionLacks()
    ensures forall k | 0 <= k < |RootQuestion| :: RootQuestion[k] != 'w'
  {
  }

  lemma RootUnstoppedLacks()
    ensures forall k | 0 <= k < |RootUnstopped| :: RootUnstopped[k] !in "bcdmpv"
  {
  }

  /** The stop-word pass on a command that opens with "calculate" and holds no
      other stop word. */
  lemma OpensWithCalculate(rest: string)
    requires !Contains("calculate" + rest, "what is") && !Contains("calculate" + rest, "what's")
    requires !Contains(rest, "calculate") && !Contains(rest, "compute") && !Contains(rest, "can you tell me")
    ensures ReplaceEach("calculate" + rest, Deletions) == rest
  {
    TablesReplace();
    assert "calculate" + rest == "" + Deletions[2].0 + rest;
    assert "" + Deletions[2].1 + rest == rest;
    ReplaceEachOnly("calculate" + rest, Deletions, 2, "", rest);
  }

  lemma RootStopWords()
    ensures ReplaceEach(RootQuestion, Deletions) == RootUnstopped
  {
    RootQuestionLacks();
    RootUnstoppedLacks();
    MissingChar(RootQuestion, "what is", 'w');
    MissingChar(RootQuestion, "what's", 'w');
    MissingChar(RootUnstopped, "calculate", 'c');
    MissingChar(RootUnstopped, "compute", 'c');
    MissingChar(RootUnstopped, "can you tell me", 'c');
    OpensWithCalculate(RootUnstopped);
  }

  lemma RootUnstoppedMisses0To4()
    ensures forall k | 0 <= k < 4 :: !Contains(RootUnstopped, OperatorMap[k].0)
  {
    RootUnstoppedLacks();
    MissingChar(RootUnstopped, "plus", 'p');
    MissingChar(RootUnstopped, "add", 'd');
    MissingChar(RootUnstopped, "minus", 'm');
    MissingChar(RootUnstopped, "subtract", 'b');
  }

  lemma RootUnstoppedMisses4To8()
    ensures forall k | 4 <= k < 8 :: !Contains(RootUnstopped, OperatorMap[k].0)
  {
    RootUnstoppedLacks();
    MissingChar(RootUnstopped, "times", 'm');
    MissingChar(RootUnstopped, "multiplied by", 'm');
    MissingChar(RootUnstopped, "divided by", 'd');
    MissingChar(RootUnstopped, "over", 'v');
  }

  lemma RootUnstoppedMisses8To10()
    ensures forall k | 8 <= k < 10 :: !Contains(RootUnstopped, OperatorMap[k].0)
  {
    RootUnstoppedLacks();
    MissingChar(RootUnstopped, "to the power of", 'p');
    MissingChar(RootUnstopped, "power", 'p');
  }

  lemma RootUnstoppedMisses()
    ensures forall k | 0 <= k < 10 :: !Contains(RootUnstopped, OperatorMap[k].0)
  {
    RootUnstoppedMisses0To4();
    RootUnstoppedMisses4To8();
    RootUnstoppedMisses8To10();
  }

  lemma RootSymbolsLacks()
    ensures forall k | 0 <= k < |RootSymbols| :: RootSymbols[k] !in "cdfgopvwxz"
  {
  }

  lemma RootSymbolsMisses11To14()
    ensures forall k | 11 <= k < 14 :: !Contains(RootSymbols, OperatorMap[k].0)
  {
    RootSymbolsLacks();
    MissingChar(RootSymbols, "open bracket", 'p');
    MissingChar(RootSymbols, "open parentheses", 'p');
    MissingChar(RootSymbols, "close bracket", 'c');
  }

  lemma RootSymbolsMisses14To17()
    ensures forall k | 14 <= k < 17 :: !Contains(RootSymbols, OperatorMap[k].0)
  {
    RootSymbolsLacks();
    MissingChar(RootSymbols, "close parentheses", 'c');
    MissingChar(RootSymbols, "point", 'p');
    MissingChar(RootSymbols, "dot", 'd');
  }

  lemma RootSymbolsMisses()
    ensures forall k | 11 <= k < 17 :: !Contains(RootSymbols, OperatorMap[k].0)
  {
    RootSymbolsMisses11To14();
    RootSymbolsMisses14To17();
  }

  /** The operator pass on a text whose only operator phrase is "square root of". */
  lemma OnlySquareRootPhrase(prefix: string, rest: string)
    requires 's' !in prefix && !Contains(rest, "square root of")
    requires forall k | 0 <= k < 10 :: !Contains(prefix + "square root of" + rest, OperatorMap[k].0)
    requires forall k | 11 <= k < |OperatorMap| :: !Contains(prefix + "sqrt(" + rest, OperatorMap[k].0)
    ensures ReplaceEach(prefix + "square root of" + rest, OperatorMap) == prefix + "sqrt(" + rest
  {
    TablesReplace();
    ReplaceEachOnly(prefix + "square root of" + rest, OperatorMap, 10, prefix, rest);
  }

  lemma RootOperators()
    ensures ReplaceEach(RootUnstopped, OperatorMap) == RootSymbols
  {
    RootUnstoppedMisses();
    RootSymbolsMisses();
    MissingChar(" nine", "square root of", 's');
    OnlySquareRootPhrase(" the ", " nine");
  }

  /** "three" is not in " the sqrt( nine": no `h` is followed by `r`. */
  lemma RootSymbolsThree()
    ensures !Contains(RootSymbols, "three")
  {
    MissingPair(RootSymbols, "three", 1);
  }

  lemma RootSymbolsMissesNumbers0To3()
    ensures forall k | 0 <= k < 3 :: !Contains(RootSymbols, NumberMap[k].0)
  {
    RootSymbolsLacks();
    MissingChar(RootSymbols, "zero", 'z');
    MissingChar(RootSymbols, "one", 'o');
    MissingChar(RootSymbols, "two", 'w');
  }

  lemma RootSymbolsMissesNumbers3To6()
    ensures forall k | 3 <= k < 6 :: !Contains(RootSymbols, NumberMap[k].0)
  {
    RootSymbolsLacks();
    MissingChar(RootSymbols, "to", 'o');
    MissingChar(RootSymbols, "too", 'o');
    RootSymbolsThree();
  }

  lemma RootSymbolsMissesNumbers6To9()
    ensures forall k | 6 <= k < 9 :: !Contains(RootSymbols, NumberMap[k].0)
  {
    RootSymbolsLacks();
    MissingChar(RootSymbols, "four", 'o');
    MissingChar(RootSymbols, "for", 'o');
    MissingChar(RootSymbols, "five", 'f');
  }

  lemma RootSymbolsMissesNumbers9To12()
    ensures forall k | 9 <= k < 12 :: !Contains(RootSymbols, NumberMap[k].0)
  {
    RootSymbolsLacks();
    MissingChar(RootSymbols, "six", 'x');
    MissingChar(RootSymbols, "seven", 'v');
    MissingChar(RootSymbols, "eight", 'g');
  }

  lemma RootSymbolsMissesNumbers()
    ensures forall k | 0 <= k < 12 :: !Contains(RootSymbols, NumberMap[k].0)
  {
    RootSymbolsMissesNumbers0To3();
    RootSymbolsMissesNumbers3To6();
    RootSymbolsMissesNumbers6To9();
    RootSymbolsMissesNumbers9To12();
  }

  /** The number pass on a text that ends in "nine", its only number word. */
  lemma EndsInNine(head: string)
    requires 'n' !in head && !Contains(head + "9", "ten")
    requires forall k | 0 <= k < 12 :: !Contains(head + "nine", NumberMap[k].0)
    ensures ReplaceEach(head + "nine", NumberMap) == head + "9"
  {
    TablesReplace();
    assert head + "nine" == head + NumberMap[12].0 + "";
    assert head + NumberMap[12].1 + "" == head + "9";
    ReplaceEachOnly(head + "nine", NumberMap, 12, head, "");
  }

  lemma RootTexts()
    ensures RootSymbols == " the sqrt( " + "nine"
    ensures 'n' !in " the sqrt( "
  {
  }

  lemma RootNumbers()
    ensures ReplaceEach(RootSymbols, NumberMap) == RootDigits
  {
    RootTexts();
    RootSymbolsMissesNumbers();
    MissingChar(" the sqrt( " + "9", "ten", 'n');
    EndsInNine(" the sqrt( ");
  }

  lemma RootTranslate()
    ensures Translate(Lower(RootQuestion)) == RootDigits
  {
    RootLower();
    RootStopWords();
    RootOperators();
    RootNumbers();
  }

  /** Which of the letters of "the" each clean-up keeps. */
  lemma TheLetters()
    ensures 't' in KeptChars && 'h' !in KeptChars && 'e' !in KeptChars
    ensures 't' !in SymbolChars && 'h' !in SymbolChars && 'e' !in SymbolChars && ' ' in SymbolChars
  {
  }

  lemma FilterThe()
    ensures Filter(" the") == " t"
  {
    TheLetters();
    assert " the"[1..] == "the" && "the"[1..] == "he" && "he"[1..] == "e" && "e"[1..] == [];
  }

  lemma FilterSqrtNine()
    ensures Filter(" sqrt( 9") == " sqrt( 9"
  {
    assert forall k | 0 <= k < |" sqrt( 9"| :: " sqrt( 9"[k] in KeptChars;
    FilterKeeps(" sqrt( 9");
  }

  lemma RootFilter()
    ensures Filter(RootDigits) == RootKept
  {
    assert RootDigits == " the" + " sqrt( 9";
    FilterAppend(" the", " sqrt( 9");
    FilterThe();
    FilterSqrtNine();
    RootKeptParts();
  }

  lemma RootKeptParts()
    ensures " t" + " sqrt( 9" == RootKept
    ensures " t " + "sqrt(" + " 9" == RootKept
  {
    assert RootKept[..2] == " t" && RootKept[2..] == " sqrt( 9";
    assert RootKept[..3] == " t " && RootKept[3..8] == "sqrt(" && RootKept[8..] == " 9";
  }

  /** The `sqrt(` in the cleaned text has nothing after it but " 9". */
  lemma ClosesAfter(prefix: string, rest: string)
    requires 's' !in prefix && ')' !in rest && !Contains(rest, "sqrt(")
    ensures CloseSqrt(prefix + "sqrt(" + rest) == prefix + "sqrt(" + rest + ")"
  {
    ContainsWithin(prefix, "sqrt(", rest);
    SplitOnce(prefix, "sqrt(", rest);
  }

  lemma RootClose()
    ensures CloseSqrt(RootKept) == " t sqrt( 9)"
  {
    MissingChar(" 9", "sqrt(", 's');
    ClosesAfter(" t ", " 9");
    RootKeptParts();
  }

  lemma SqrtNineWords()
    ensures Words("sqrt( 9)") == ["sqrt(", "9)"]
  {
    assert Words(" 9)") == ["9)"] by {
      assert " 9)"[1..] == "9)";
      assert RunEnd("9)", 0, NotSpace) == 2;
      assert "9)"[..2] == "9)" && "9)"[2..] == [];
    }
    assert RunEnd("sqrt( 9)", 0, NotSpace) == 5;
    assert "sqrt( 9)"[..5] == "sqrt(" && "sqrt( 9)"[5..] == " 9)";
  }

  lemma HeardWords()
    ensures Words("t sqrt( 9)") == ["t", "sqrt(", "9)"]
  {
    SqrtNineWords();
    assert RunEnd("t sqrt( 9)", 0, NotSpace) == 1;
    assert "t sqrt( 9)"[..1] == "t" && "t sqrt( 9)"[1..] == " sqrt( 9)";
    assert " sqrt( 9)"[1..] == "sqrt( 9)";
  }

  lemma RootWords()
    ensures Words(" t sqrt( 9)") == ["t", "sqrt(", "9)"]
  {
    HeardWords();
    assert " t sqrt( 9)"[1..] == "t sqrt( 9)";
  }

  lemma RootNormalize()
    ensures Normalize(" t sqrt( 9)") == "t sqrt( 9)"
  {
    RootWords();
    assert Join(["t", "sqrt(", "9)"], " ") == "t" + " " + "sqrt(" + " " + "9)";
  }

  /** As written, "calculate the square root of nine" becomes "t sqrt( 9)":
      the `t` of "the" survives the clean-up. */
  lemma RootCommand()
    ensures Rewrite(Some(RootQuestion)) == "t sqrt( 9)"
  {
    RootTranslate();
    RootFilter();
    RootClose();
    RootNormalize();
  }

  const HeardTokens: seq<Token> :=
    [Identifier("t"), Identifier("sqrt"), Paren(true), Number(9.0, false), Paren(false)]
  const HeardLayout: seq<bool> := [false, true, false, true]

  lemma HeardFits()
    ensures AllSpellable(HeardTokens) && Fits(HeardTokens, HeardLayout)
  {
    assert IsWord("t") && IsWord("sqrt");
  }

  lemma HeardText()
    ensures Written(HeardTokens, HeardLayout) == "t sqrt( 9)"
  {
  }

  lemma HeardParse()
    ensures ParseAt(Stream(HeardTokens, None), 0) == Err(UnknownConstant("t"))
  {
    var s := Stream(HeardTokens, None);
    assert FactorAt(s, 0) == Err(UnknownConstant("t"));
  }

  /** The calculator then refuses the command: `t` is no constant. */
  lemma RootCommandRefused(lib: MathLib)
    ensures Evaluate(lib, Rewrite(Some(RootQuestion))) == "Error: " + Message(lib, UnknownConstant("t"))
  {
    RootCommand();
    HeardFits();
    HeardText();
    SelfTest.Lexes("t sqrt( 9)", HeardTokens, HeardLayout);
    HeardParse();
    SelfTest.ParseRejects(lib, "t sqrt( 9)", HeardTokens, UnknownConstant("t"), "Error: " + Message(lib, UnknownConstant("t")));
  }

  // With the corrected clean-up the same command becomes "sqrt( 9)", which
  // evaluates to 3.

  lemma KeepSymbolsThe()
    ensures KeepSymbols(" the ") == "  "
  {
    TheLetters();
    assert " the "[1..] == "the " && "the "[1..] == "he " && "he "[1..] == "e " && "e "[1..] == " ";
    NotSqrtStart("the ");
    NotSqrtStart(" the ");
  }

  /** A text that does not begin with `s` does not begin with `sqrt`. */
  lemma NotSqrtStart(s: string)
    requires s != [] && s[0] != 's'
    ensures !StartsWith(s, "sqrt")
  {
    if |s| >= 4 {
      assert s[..4][0] == s[0];
    }
  }

  lemma KeepSymbolsSqrtNine()
    ensures KeepSymbols("sqrt( 9") == "sqrt( 9"
  {
    assert "sqrt( 9"[..4] == "sqrt" && "sqrt( 9"[4..] == "( 9";
    assert "( 9"[1..] == " 9" && " 9"[1..] == "9";
  }

  lemma RootKeepSymbols()
    ensures KeepSymbols(RootDigits) == "  sqrt( 9"
  {
    assert RootDigits == " the " + "sqrt( 9";
    KeepSymbolsAppend(" the ", "sqrt( 9");
    KeepSymbolsThe();
    KeepSymbolsSqrtNine();
  }

  lemma FixedWords()
    ensures Words("  sqrt( 9)") == ["sqrt(", "9)"]
  {
    SqrtNineWords();
    assert "  sqrt( 9)"[1..] == " sqrt( 9)" && " sqrt( 9)"[1..] == "sqrt( 9)";
  }

  lemma FixedParts()
    ensures "  " + "sqrt(" + " 9" == "  sqrt( 9"
    ensures "  " + "sqrt(" + " 9" + ")" == "  sqrt( 9)"
  {
    assert "  sqrt( 9"[..2] == "  " && "  sqrt( 9"[2..7] == "sqrt(" && "  sqrt( 9"[7..] == " 9";
  }

  lemma FixedClose()
    ensures CloseSqrt("  sqrt( 9") == "  sqrt( 9)"
  {
    MissingChar(" 9", "sqrt(", 's');
    ClosesAfter("  ", " 9");
    FixedParts();
  }

  lemma FixedNormalize()
    ensures Normalize("  sqrt( 9)") == "sqrt( 9)"
  {
    FixedWords();
    assert Join(["sqrt(", "9)"], " ") == "sqrt(" + " " + "9)";
  }

  lemma FixedFinish()
    ensures Normalize(CloseSqrt("  sqrt( 9")) == "sqrt( 9)"
  {
    FixedClose();
    FixedNormalize();
  }

  /** With the corrected clean-up the command becomes "sqrt( 9)". */
  lemma RootCommandFixed()
    ensures RewriteFixed(Some(RootQuestion)) == "sqrt( 9)"
  {
    RootTranslate();
    RootKeepSymbols();
    FixedFinish();
  }

  const FixedLayout: seq<bool> := [true, false, true]

  lemma FixedText()
    ensures Printable(SelfTest.Root) && Toks(SelfTest.Root, 1) == SelfTest.RootTokens
    ensures Fits(SelfTest.RootTokens, FixedLayout) && Written(SelfTest.RootTokens, FixedLayout) == "sqrt( 9)"
  {
    SelfTest.RootTokensOf();
  }

  /** ... and the calculator shows 3 for it. */
  lemma RootCommandFixedEvaluates(lib: MathLib)
    requires lib.sqrt(9.0) == 3.0
    ensures Evaluate(lib, RewriteFixed(Some(RootQuestion))) == "3"
  {
    RootCommandFixed();
    FixedText();
    SelfTest.Reads("sqrt( 9)", SelfTest.Root, SelfTest.RootTokens, FixedLayout);
    SelfTest.RootValue(lib);
    SelfTest.Shows(lib, "sqrt( 9)", SelfTest.Root, 3.0, "3");
  }
}
