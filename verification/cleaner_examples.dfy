/**
 * Worked inputs for `clean_text_for_voiceover`. Each small lemma applies one
 * general lemma of `Cleaner` or `Text` to one piece of the input (one
 * stage, or one match of a stage); the lemma for a whole input chains them.
 */
module CleanerExamples {
  import opened Text
  import opened Cleaner

  // ---------------------------------------------------------------------
  // The cleaner is not idempotent.
  // ---------------------------------------------------------------------

  /**
   * Cleaning is not idempotent and its output may carry `# `: the last
   * stage turns the newline of "#\nfoo" into a space, and a second pass
   * deletes the heading marker this creates.
   */
  lemma CleanNotIdempotent()
    ensures Clean("#\nfoo") == "# foo"
    ensures !NoHeadingMarker(Clean("#\nfoo"))
    ensures Clean(Clean("#\nfoo")) == "foo"
  {
    CleanHashNewline();
    CleanHashSpace();
  }

  lemma CleanHashNewline()
    ensures Clean("#\nfoo") == "# foo"
  {
    HashNewlineNoEmphasis();
    HashNewlineKept();
    HashNewlineNoSteps();
    HashNewlineCollapses();
  }

  lemma HashNewlineNoEmphasis()
    ensures StripEmphasis("#\nfoo") == "#\nfoo"
  {
    StripEmphasisKeeps("#\nfoo");
  }

  lemma HashNewlineKept()
    ensures StripHeadings("#\nfoo") == "#\nfoo"
  {
    HashNewlineHead();
    NewlineFooKept();
  }

  lemma HashNewlineHead()
    ensures HashRun("#\nfoo") == 1
  {
    HashRunIs("#\nfoo", 1);
  }

  lemma NewlineFooKept()
    ensures StripHeadings("\nfoo") == "\nfoo"
  {
    StripHeadingsKeeps("\nfoo");
  }

  lemma HashNewlineNoSteps()
    ensures ReplaceSteps("#\nfoo") == "#\nfoo"
  {
    ReplaceStepsKeeps("#\nfoo");
  }

  lemma HashNewlineCollapses()
    ensures Collapse("#\nfoo") == "# foo"
  {
    CollapseAround("#", '\n', "foo");
  }

  lemma CleanHashSpace()
    ensures Clean("# foo") == "foo"
  {
    HashSpaceNoEmphasis();
    HashSpaceRemoved();
    FooNoSteps();
    FooCollapses();
  }

  lemma HashSpaceNoEmphasis()
    ensures StripEmphasis("# foo") == "# foo"
  {
    StripEmphasisKeeps("# foo");
  }

  lemma HashSpaceRemoved()
    ensures StripHeadings("# foo") == "foo"
  {
    HashSpaceDropped();
    FooKept();
  }

  lemma HashSpaceDropped()
    ensures StripHeadings("# foo") == StripHeadings("foo")
  {
    StripHeadingsRemoves("#", "foo");
  }

  lemma FooKept()
    ensures StripHeadings("foo") == "foo"
  {
    StripHeadingsKeeps("foo");
  }

  lemma FooNoSteps()
    ensures ReplaceSteps("foo") == "foo"
  {
    ReplaceStepsKeeps("foo");
  }

  lemma FooCollapses()
    ensures Collapse("foo") == "foo"
  {
    CollapseOfNormalized("foo");
  }

  // ---------------------------------------------------------------------
  // Two numbered steps with bold text.
  // ---------------------------------------------------------------------

  /** Both list numbers become spoken labels, the bold markers vanish and the line break becomes a space. */
  lemma CleanTwoSteps()
    ensures Clean("1. Boil water\n" + "2. Add **pasta**") == "Step one: Boil water Step two: Add pasta"
  {
    TwoStepsEmphasis();
    TwoStepsHeadings();
    TwoStepsNumbers();
    TwoStepsCollapse();
  }

  lemma TwoStepsEmphasis()
    ensures StripEmphasis("1. Boil water\n" + "2. Add **pasta**") == "1. Boil water\n" + ("2. Add " + "pasta")
  {
    TwoStepsMarkers();
    FirstLineMarkers();
    BoldPasta();
  }

  lemma TwoStepsMarkers()
    ensures StripEmphasis("1. Boil water\n" + "2. Add **pasta**")
         == WithoutMarkers("1. Boil water\n") + WithoutMarkers("2. Add **pasta**")
  {
    StripEmphasisIsWithoutMarkers("1. Boil water\n" + "2. Add **pasta**");
    WithoutMarkersAppend("1. Boil water\n", "2. Add **pasta**");
  }

  lemma FirstLineMarkers()
    ensures WithoutMarkers("1. Boil water\n") == "1. Boil water\n"
  {
    WithoutMarkersKeeps("1. Boil water\n");
  }

  lemma BoldPasta()
    ensures WithoutMarkers("2. Add **pasta**") == "2. Add " + "pasta"
  {
    BoldPastaParts();
    AddPrefixKept();
    BoldPastaWord();
  }

  lemma BoldPastaParts()
    ensures WithoutMarkers("2. Add **pasta**") == WithoutMarkers("2. Add ") + WithoutMarkers("**" + ("pasta" + "**"))
  {
    assert "2. Add **pasta**" == "2. Add " + ("**" + ("pasta" + "**"));
    WithoutMarkersAppend("2. Add ", "**" + ("pasta" + "**"));
  }

  lemma AddPrefixKept()
    ensures WithoutMarkers("2. Add ") == "2. Add "
  {
    WithoutMarkersKeeps("2. Add ");
  }

  lemma BoldPastaWord()
    ensures WithoutMarkers("**" + ("pasta" + "**")) == "pasta"
  {
    WithoutMarkersAppend("**", "pasta" + "**");
    WithoutMarkersAppend("pasta", "**");
    WithoutMarkersKeeps("pasta");
  }

  lemma TwoStepsHeadings()
    ensures StripHeadings("1. Boil water\n" + ("2. Add " + "pasta")) == "1. Boil water\n" + ("2. Add " + "pasta")
  {
    StripHeadingsPlain("1. Boil water\n", "2. Add " + "pasta");
    StripHeadingsPlain("2. Add ", "pasta");
    StripHeadingsKeeps("pasta");
  }

  lemma TwoStepsNumbers()
    ensures ReplaceSteps("1. Boil water\n" + ("2. Add " + "pasta")) == "Step one: " + ("Boil water\n" + ("Step two: " + ("Add " + "pasta")))
  {
    StepOneMatched();
    BoilWaterKept();
    StepTwoAddPasta();
    LabelOne();
  }

  lemma StepOneMatched()
    ensures ReplaceSteps("1. Boil water\n" + ("2. Add " + "pasta"))
         == StepLabel(DigitsValue("1")) + ReplaceSteps("Boil water\n" + ("2. Add " + "pasta"))
  {
    var x := "2. Add " + "pasta";
    assert "1. Boil water\n" + x == "1" + "." + " " + ("Boil water\n" + x);
    ReplaceStepsNumber("1", " ", "Boil water\n" + x);
  }

  lemma BoilWaterKept()
    ensures ReplaceSteps("Boil water\n" + ("2. Add " + "pasta")) == "Boil water\n" + ReplaceSteps("2. Add " + "pasta")
  {
    ReplaceStepsPlain("Boil water\n", "2. Add " + "pasta");
  }

  lemma StepTwoAddPasta()
    ensures ReplaceSteps("2. Add " + "pasta") == "Step two: " + ("Add " + "pasta")
  {
    StepTwoMatched();
    AddPastaKept();
    LabelTwo();
  }

  lemma StepTwoMatched()
    ensures ReplaceSteps("2. Add " + "pasta") == StepLabel(DigitsValue("2")) + ReplaceSteps("Add " + "pasta")
  {
    assert "2. Add " + "pasta" == "2" + "." + " " + ("Add " + "pasta");
    ReplaceStepsNumber("2", " ", "Add " + "pasta");
  }

  lemma AddPastaKept()
    ensures ReplaceSteps("Add " + "pasta") == "Add " + "pasta"
  {
    AddKept();
    PastaKept();
  }

  lemma AddKept()
    ensures ReplaceSteps("Add " + "pasta") == "Add " + ReplaceSteps("pasta")
  {
    ReplaceStepsPlain("Add ", "pasta");
  }

  lemma PastaKept()
    ensures ReplaceSteps("pasta") == "pasta"
  {
    ReplaceStepsKeeps("pasta");
  }

  lemma LabelOne()
    ensures StepLabel(DigitsValue("1")) == "Step one: "
  {
    StepLabelOfDigits("1");
  }

  lemma LabelTwo()
    ensures StepLabel(DigitsValue("2")) == "Step two: "
  {
    StepLabelOfDigits("2");
  }

  lemma TwoStepsCollapse()
    ensures Collapse("Step one: " + ("Boil water\n" + ("Step two: " + ("Add " + "pasta")))) == "Step one: Boil water Step two: Add pasta"
  {
    TwoStepsLines();
    TwoStepsJoined();
    TwoStepsSentence();
  }

  lemma TwoStepsLines()
    ensures "Step one: " + ("Boil water\n" + ("Step two: " + ("Add " + "pasta"))) == "Step one: Boil water" + "\n" + "Step two: Add pasta"
  {
  }

  lemma TwoStepsJoined()
    ensures Collapse("Step one: Boil water" + "\n" + "Step two: Add pasta") == "Step one: Boil water" + " " + "Step two: Add pasta"
  {
    CollapseAround("Step one: Boil water", '\n', "Step two: Add pasta");
  }

  lemma TwoStepsSentence()
    ensures "Step one: Boil water" + " " + "Step two: Add pasta" == "Step one: Boil water Step two: Add pasta"
  {
  }

  // ---------------------------------------------------------------------
  // Step numbers above ten, up to ten, zero, with leading zeros, and a
  // decimal number in running text.
  // ---------------------------------------------------------------------

  /** A step number above ten is read out as its digits. */
  lemma CleanStepTwelve()
    ensures Clean("12. Rest") == "Step 12: Rest"
  {
    StepTwelveNoEmphasis();
    StepTwelveNoHeading();
    StepTwelveRest();
    StepTwelveCollapse();
    StepTwelveSentence();
  }

  lemma StepTwelveNoEmphasis()
    ensures StripEmphasis("12. Rest") == "12. Rest"
  {
    StripEmphasisKeeps("12. Rest");
  }

  lemma StepTwelveNoHeading()
    ensures StripHeadings("12. Rest") == "12. Rest"
  {
    StripHeadingsKeeps("12. Rest");
  }

  lemma StepTwelveCollapse()
    ensures Collapse("Step 12: " + "Rest") == "Step 12: " + "Rest"
  {
    CollapseOfNormalized("Step 12: " + "Rest");
  }

  lemma StepTwelveRest()
    ensures ReplaceSteps("12. Rest") == "Step 12: " + "Rest"
  {
    StepTwelveMatched();
    RestKept();
    LabelTwelve();
  }

  lemma StepTwelveMatched()
    ensures ReplaceSteps("12. Rest") == StepLabel(DigitsValue("12")) + ReplaceSteps("Rest")
  {
    assert "12. Rest" == "12" + "." + " " + "Rest";
    ReplaceStepsNumber("12", " ", "Rest");
  }

  lemma RestKept()
    ensures ReplaceSteps("Rest") == "Rest"
  {
    ReplaceStepsKeeps("Rest");
  }

  lemma LabelTwelve()
    ensures StepLabel(DigitsValue("12")) == "Step 12: "
  {
    assert "12"[..1] == "1";
    StepLabelOfDigits("12");
  }

  lemma StepTwelveSentence()
    ensures "Step 12: " + "Rest" == "Step 12: Rest"
  {
  }

  /** A step number up to ten is read out as a word. */
  lemma CleanStepThree()
    ensures Clean("3. Mix well") == "Step three: Mix well"
  {
    StepThreeNoEmphasis();
    StepThreeNoHeading();
    StepThreeMixWell();
    StepThreeCollapse();
    StepThreeSentence();
  }

  lemma StepThreeNoEmphasis()
    ensures StripEmphasis("3. Mix well") == "3. Mix well"
  {
    StripEmphasisKeeps("3. Mix well");
  }

  lemma StepThreeNoHeading()
    ensures StripHeadings("3. Mix well") == "3. Mix well"
  {
    StripHeadingsKeeps("3. Mix well");
  }

  lemma StepThreeCollapse()
    ensures Collapse("Step three: " + "Mix well") == "Step three: " + "Mix well"
  {
    CollapseOfNormalized("Step three: " + "Mix well");
  }

  lemma StepThreeMixWell()
    ensures ReplaceSteps("3. Mix well") == "Step three: " + "Mix well"
  {
    StepThreeMatched();
    MixWellKept();
    LabelThree();
  }

  lemma StepThreeMatched()
    ensures ReplaceSteps("3. Mix well") == StepLabel(DigitsValue("3")) + ReplaceSteps("Mix well")
  {
    assert "3. Mix well" == "3" + "." + " " + "Mix well";
    ReplaceStepsNumber("3", " ", "Mix well");
  }

  lemma MixWellKept()
    ensures ReplaceSteps("Mix well") == "Mix well"
  {
    ReplaceStepsKeeps("Mix well");
  }

  lemma LabelThree()
    ensures StepLabel(DigitsValue("3")) == "Step three: "
  {
    StepLabelOfDigits("3");
  }

  lemma StepThreeSentence()
    ensures "Step three: " + "Mix well" == "Step three: Mix well"
  {
  }

  /** The pattern is not anchored to a line start: a decimal number is split at its period. */
  lemma ReplaceStepsDecimalNumber()
    ensures ReplaceSteps("1.5 cups") == "Step one: " + "5 cups"
  {
    DecimalNumberMatched();
    FiveCupsKept();
    LabelOne();
  }

  lemma DecimalNumberMatched()
    ensures ReplaceSteps("1.5 cups") == StepLabel(DigitsValue("1")) + ReplaceSteps("5 cups")
  {
    assert "1.5 cups" == "1" + "." + "" + "5 cups";
    ReplaceStepsNumber("1", "", "5 cups");
  }

  lemma FiveCupsKept()
    ensures ReplaceSteps("5 cups") == "5 cups"
  {
    FiveKept();
    CupsKept();
  }

  lemma FiveKept()
    ensures ReplaceSteps("5 cups") == "5" + ReplaceSteps(" cups")
  {
    assert "5 cups" == "5" + " cups";
    ReplaceStepsKeepsNumber("5", " cups");
  }

  lemma CupsKept()
    ensures ReplaceSteps(" cups") == " cups"
  {
    ReplaceStepsKeeps(" cups");
  }

  /** The number is read with `int()`, so leading zeros drop. */
  lemma ReplaceStepsLeadingZeros()
    ensures ReplaceSteps("007. Bake") == "Step seven: " + "Bake"
  {
    LeadingZerosMatched();
    BakeKept();
    LabelSeven();
  }

  lemma LeadingZerosMatched()
    ensures ReplaceSteps("007. Bake") == StepLabel(DigitsValue("007")) + ReplaceSteps("Bake")
  {
    assert "007. Bake" == "007" + "." + " " + "Bake";
    ReplaceStepsNumber("007", " ", "Bake");
  }

  lemma BakeKept()
    ensures ReplaceSteps("Bake") == "Bake"
  {
    ReplaceStepsKeeps("Bake");
  }

  lemma LabelSeven()
    ensures StepLabel(DigitsValue("007")) == "Step seven: "
  {
    SevenValue();
    LabelSevenDigit();
  }

  lemma SevenValue()
    ensures DigitsValue("007") == DigitsValue("7")
  {
    LeadingZeroDrops("7");
    LeadingZeroDrops("07");
  }

  lemma LabelSevenDigit()
    ensures StepLabel(DigitsValue("7")) == "Step seven: "
  {
    StepLabelOfDigits("7");
  }

  /** Step zero reads as "ten": the index -1 selects the last number word. */
  lemma ReplaceStepsZero()
    ensures ReplaceSteps("0. Serve") == "Step ten: " + "Serve"
  {
    ZeroMatched();
    ServeKept();
    LabelZero();
  }

  lemma ZeroMatched()
    ensures ReplaceSteps("0. Serve") == StepLabel(DigitsValue("0")) + ReplaceSteps("Serve")
  {
    assert "0. Serve" == "0" + "." + " " + "Serve";
    ReplaceStepsNumber("0", " ", "Serve");
  }

  lemma ServeKept()
    ensures ReplaceSteps("Serve") == "Serve"
  {
    ReplaceStepsKeeps("Serve");
  }

  lemma LabelZero()
    ensures StepLabel(DigitsValue("0")) == "Step ten: "
  {
    StepLabelOfDigits("0");
  }
}
