/** Worked examples of `normalizeAddress`: words that merely contain an abbreviation or a
    directional are kept, a spelled-out address is left alone, and a short address has its
    abbreviation expanded and its trailing directional dropped.

    Each fact about a literal word or list is stated by a lemma of its own, so that no proof
    has to evaluate the rule lists and the example strings together. */
module AddressExamples {
  import opened Text
  import opened Address

  /** No rule of the list names `w`. */
  predicate Unnamed(w: string, rules: seq<Rule>) {
    forall i :: 0 <= i < |rules| ==> rules[i].word != w
  }

  /** Lower-case letters and digits only. */
  predicate PlainWord(w: string) {
    forall i :: 0 <= i < |w| ==> IsLower(w[i]) || IsDigit(w[i])
  }

  // ---------------------------------------------------------------------------------------
  // Facts that hold for any word.

  /** The abbreviation pass on one word is a lookup in the list. */
  lemma ExpandWord(w: string)
    ensures Rewrite(w, Abbreviations) == Lookup(w, Abbreviations)
  {
    AbbreviationsUnchained();
    RewriteIsLookup(w, Abbreviations);
  }

  /** The directional pass on one word is a lookup in the list. */
  lemma DeleteWord(w: string)
    ensures Rewrite(w, DirectionalRemovals) == Lookup(w, DirectionalRemovals)
  {
    DirectionalsUnchained();
    RewriteIsLookup(w, DirectionalRemovals);
  }

  /** The first rule naming a word decides its lookup. */
  lemma {:induction false} LookupAt(w: string, rules: seq<Rule>, i: int)
    requires 0 <= i < |rules| && rules[i].word == w
    requires forall j :: 0 <= j < i ==> rules[j].word != w
    ensures Lookup(w, rules) == rules[i].replacement
    decreases i
  {
    if i > 0 {
      assert rules[1..][i - 1] == rules[i];
      LookupAt(w, rules[1..], i - 1);
    }
  }

  /** A word neither list names is kept by both passes. */
  lemma KeptByBoth(w: string)
    requires Unnamed(w, Abbreviations) && Unnamed(w, DirectionalRemovals)
    ensures Rewrite(w, Abbreviations) == w && Rewrite(w, DirectionalRemovals) == w
  {
    ExpandWord(w);
    DeleteWord(w);
  }

  /** A plain word is made of word characters, tame and tidy. */
  lemma PlainWordTidy(w: string)
    requires PlainWord(w)
    ensures AllWordChars(w) && Tame(w) && Tidy(w)
  {  }

  /** A plain word neither list names is fixed by both passes. */
  lemma PlainWordFixed(w: string)
    requires w != "" && PlainWord(w)
    requires Unnamed(w, Abbreviations) && Unnamed(w, DirectionalRemovals)
    ensures AllWordChars(w) && Tame(w) && Tidy(w)
    ensures WordsFixed(w, Abbreviations) && WordsFixed(w, DirectionalRemovals)
  {
    PlainWordTidy(w);
    KeptByBoth(w);
    WordsFixedOfWord(w, Abbreviations);
    WordsFixedOfWord(w, DirectionalRemovals);
  }

  /** A plain word neither list names is a normalised address, and so left unchanged. */
  lemma PlainWordUnchanged(w: string)
    requires w != "" && PlainWord(w)
    requires Unnamed(w, Abbreviations) && Unnamed(w, DirectionalRemovals)
    ensures Normalize(w) == w
  {
    PlainWordFixed(w);
    NormalizeFixesNormalized(w);
  }

  /** A word, a space and the rest: the word is rewritten on its own. */
  lemma MapWordsWordSpace(u: string, v: string, rules: seq<Rule>)
    requires u != "" && AllWordChars(u) && ValidRules(rules)
    ensures MapWords(u + (" " + v), rules) == Rewrite(u, rules) + (" " + MapWords(v, rules))
  {
    MapWordsOfWord(u, [' '] + v, rules);
    MapWordsOfNonWord(' ', v, rules);
  }

  lemma LastWord(u: string, rules: seq<Rule>)
    requires u != "" && AllWordChars(u) && ValidRules(rules)
    ensures MapWords(u, rules) == Rewrite(u, rules)
  {
    MapWordsOfWord(u, "", rules);
    assert u + "" == u;
  }

  /** A fixed word, a space and a fixed rest are fixed. */
  lemma WordSpaceFixed(u: string, v: string, rules: seq<Rule>)
    requires AllWordChars(u) && WordsFixed(u, rules) && WordsFixed(v, rules)
    ensures WordsFixed(u + (" " + v), rules)
  {
    WordsFixedSplit([' '], v, rules);
    WordsFixedSplit(u, [' '] + v, rules);
  }

  /** Four words separated by single spaces are rewritten one by one. */
  lemma FourWords(a: string, b: string, c: string, x: string, rules: seq<Rule>)
    requires ValidRules(rules)
    requires a != "" && b != "" && c != "" && x != ""
    requires AllWordChars(a) && AllWordChars(b) && AllWordChars(c) && AllWordChars(x)
    ensures MapWords(a + (" " + (b + (" " + (c + (" " + x))))), rules)
            == Rewrite(a, rules) + (" " + (Rewrite(b, rules) + (" " + (Rewrite(c, rules) + (" " + Rewrite(x, rules))))))
  {
    LastWord(x, rules);
    MapWordsWordSpace(c, x, rules);
    MapWordsWordSpace(b, c + (" " + x), rules);
    MapWordsWordSpace(a, b + (" " + (c + (" " + x))), rules);
  }

  /** "123 main <c> <x>", for any list that keeps "123" and "main", is rewritten to
      "123 main <c'> <x'>". */
  lemma FourWordExample(rules: seq<Rule>, s: string, t: string, c: string, c': string, x: string, x': string)
    requires ValidRules(rules) && c != "" && AllWordChars(c) && x != "" && AllWordChars(x)
    requires AllWordChars("123") && AllWordChars("main")
    requires Rewrite("123", rules) == "123" && Rewrite("main", rules) == "main"
    requires Rewrite(c, rules) == c' && Rewrite(x, rules) == x'
    requires s == "123" + (" " + ("main" + (" " + (c + (" " + x)))))
    requires t == "123" + (" " + ("main" + (" " + (c' + (" " + x')))))
    ensures MapWords(s, rules) == t
  {
    FourWords("123", "main", c, x, rules);
  }

  /** One trailing space is trimmed off a string that neither starts nor ends with white
      space. */
  lemma TrimTrailingSpace(s: string)
    requires s != [] && !IsSpace(s[0]) && !IsSpace(s[|s| - 1])
    ensures Trim(s + " ") == s
  {  }

  /** Two non-empty tidy strings joined by one space are tidy. */
  lemma TidyJoin(u: string, v: string)
    requires u != [] && v != [] && Tidy(u) && Tidy(v)
    ensures Tidy(u + (" " + v))
  {  }

  /** A tidy string followed by one space is single-spaced. */
  lemma TidyThenSpace(u: string)
    requires u != [] && Tidy(u)
    ensures SingleSpaced(u + " ")
  {  }

  /** Three fixed words joined by spaces are fixed. */
  lemma ThreeWordsFixed(a: string, b: string, c: string, s: string, rules: seq<Rule>)
    requires AllWordChars(a) && AllWordChars(b)
    requires WordsFixed(a, rules) && WordsFixed(b, rules) && WordsFixed(c, rules)
    requires s == a + (" " + (b + (" " + c)))
    ensures WordsFixed(s, rules)
  {
    WordSpaceFixed(b, c, rules);
    WordSpaceFixed(a, b + (" " + c), rules);
  }

  // ---------------------------------------------------------------------------------------
  // Facts about the example words, one list at a time.

  lemma StoneFacts()
    ensures PlainWord("stone") && Unnamed("stone", Abbreviations)
  {
  }

  lemma StoneNotDirectional()
    ensures Unnamed("stone", DirectionalRemovals)
  {
  }

  lemma NestFacts()
    ensures PlainWord("nest") && Unnamed("nest", Abbreviations)
  {
  }

  lemma NestNotDirectional()
    ensures Unnamed("nest", DirectionalRemovals)
  {
  }

  lemma NumberFacts()
    ensures PlainWord("123") && Unnamed("123", Abbreviations)
  {
  }

  lemma NumberNotDirectional()
    ensures Unnamed("123", DirectionalRemovals)
  {
  }

  lemma MainFacts()
    ensures PlainWord("main") && Unnamed("main", Abbreviations)
  {
  }

  lemma MainNotDirectional()
    ensures Unnamed("main", DirectionalRemovals)
  {
  }

  lemma StreetFacts()
    ensures PlainWord("street") && Unnamed("street", Abbreviations)
  {
  }

  lemma StreetNotDirectional()
    ensures Unnamed("street", DirectionalRemovals)
  {
  }

  lemma NortheastFacts()
    ensures PlainWord("ne") && Unnamed("ne", Abbreviations)
  {
  }

  /** "ne" is named first by the ninth directional rule. */
  lemma NortheastPosition()
    ensures DirectionalRemovals[8] == Rule("ne", "")
    ensures forall j :: 0 <= j < 8 ==> DirectionalRemovals[j].word != "ne"
  {
  }

  /** "st" is named first by the second abbreviation rule. */
  lemma StreetPosition()
    ensures Abbreviations[1] == Rule("st", "street")
    ensures forall j :: 0 <= j < 1 ==> Abbreviations[j].word != "st"
  {
  }

  lemma StFacts()
    ensures PlainWord("st")
  {
  }

  lemma StIsWord()
    ensures "st" != "" && AllWordChars("st")
  {
  }

  // The example addresses, spelled as their words joined by spaces.

  lemma AbbreviatedSpelling()
    ensures "123" + (" " + ("main" + (" " + ("st" + (" " + "ne"))))) == "123 main st ne"
  {
  }

  lemma ExpandedSpelling()
    ensures "123" + (" " + ("main" + (" " + ("street" + (" " + "ne"))))) == "123 main street ne"
  {
  }

  lemma RemovedSpelling()
    ensures "123" + (" " + ("main" + (" " + ("street" + (" " + ""))))) == "123 main street "
  {
  }

  lemma SpelledOutSpelling()
    ensures "123" + (" " + ("main" + (" " + "street"))) == "123 main street"
  {
  }

  // What each pass does to each example word.

  lemma NumberKept()
    ensures "123" != "" && AllWordChars("123")
    ensures Rewrite("123", Abbreviations) == "123" && Rewrite("123", DirectionalRemovals) == "123"
  {
    NumberFacts();
    NumberNotDirectional();
    PlainWordTidy("123");
    KeptByBoth("123");
  }

  lemma MainKept()
    ensures "main" != "" && AllWordChars("main")
    ensures Rewrite("main", Abbreviations) == "main" && Rewrite("main", DirectionalRemovals) == "main"
  {
    MainFacts();
    MainNotDirectional();
    PlainWordTidy("main");
    KeptByBoth("main");
  }

  lemma StreetKept()
    ensures "street" != "" && AllWordChars("street")
    ensures Rewrite("street", Abbreviations) == "street" && Rewrite("street", DirectionalRemovals) == "street"
  {
    StreetFacts();
    StreetNotDirectional();
    PlainWordTidy("street");
    KeptByBoth("street");
  }

  lemma StreetExpanded()
    ensures Rewrite("st", Abbreviations) == "street"
  {
    StreetPosition();
    ExpandWord("st");
    LookupAt("st", Abbreviations, 1);
  }

  lemma NortheastKept()
    ensures "ne" != "" && AllWordChars("ne")
    ensures Rewrite("ne", Abbreviations) == "ne"
  {
    NortheastFacts();
    PlainWordTidy("ne");
    ExpandWord("ne");
  }

  lemma NortheastDeleted()
    ensures Rewrite("ne", DirectionalRemovals) == ""
  {
    NortheastPosition();
    DeleteWord("ne");
    LookupAt("ne", DirectionalRemovals, 8);
  }

  // ---------------------------------------------------------------------------------------
  // The examples.

  /** "stone" contains "st", "ne" and "s", but none of them as a whole word. */
  lemma StoneUnchanged()
    ensures Normalize("stone") == "stone"
  {
    StoneFacts();
    StoneNotDirectional();
    PlainWordUnchanged("stone");
  }

  /** "nest" contains "ne", "n", "e", "s" and "st", but none of them as a whole word. */
  lemma NestUnchanged()
    ensures Normalize("nest") == "nest"
  {
    NestFacts();
    NestNotDirectional();
    PlainWordUnchanged("nest");
  }

  lemma SpelledOutTame()
    ensures Tame("123 main street")
  {
  }

  lemma SpelledOutTidy()
    ensures Tidy("123 main street")
  {
    assert Tidy("123" + (" " + ("main" + (" " + "street")))) by {
      NumberFacts();
      MainFacts();
      StreetFacts();
      PlainWordTidy("123");
      PlainWordTidy("main");
      PlainWordTidy("street");
      TidyJoin("main", "street");
      TidyJoin("123", "main" + (" " + "street"));
    }
    SpelledOutSpelling();
  }

  /** The words of the spelled-out address are each fixed by both passes. */
  lemma SpelledOutWordsFixed()
    ensures WordsFixed("123", Abbreviations) && WordsFixed("123", DirectionalRemovals)
    ensures WordsFixed("main", Abbreviations) && WordsFixed("main", DirectionalRemovals)
    ensures WordsFixed("street", Abbreviations) && WordsFixed("street", DirectionalRemovals)
  {
    NumberKept();
    MainKept();
    StreetKept();
    WordsFixedOfWord("123", Abbreviations);
    WordsFixedOfWord("123", DirectionalRemovals);
    WordsFixedOfWord("main", Abbreviations);
    WordsFixedOfWord("main", DirectionalRemovals);
    WordsFixedOfWord("street", Abbreviations);
    WordsFixedOfWord("street", DirectionalRemovals);
  }

  lemma SpelledOutNormalized()
    ensures IsNormalized("123 main street")
  {
    NumberKept();
    MainKept();
    SpelledOutWordsFixed();
    SpelledOutSpelling();
    ThreeWordsFixed("123", "main", "street", "123 main street", Abbreviations);
    ThreeWordsFixed("123", "main", "street", "123 main street", DirectionalRemovals);
    SpelledOutTame();
    SpelledOutTidy();
  }

  /** A spelled-out address is already normal and so left unchanged. */
  lemma SpelledOutUnchanged()
    ensures Normalize("123 main street") == "123 main street"
  {
    SpelledOutNormalized();
    NormalizeFixesNormalized("123 main street");
  }

  /** The abbreviation pass on "123 main st ne". */
  lemma ExpansionExample()
    ensures MapWords("123 main st ne", Abbreviations) == "123 main street ne"
  {
    AbbreviationsValid();
    NumberKept();
    MainKept();
    StIsWord();
    StreetExpanded();
    NortheastKept();
    AbbreviatedSpelling();
    ExpandedSpelling();
    FourWordExample(Abbreviations, "123 main st ne", "123 main street ne", "st", "street", "ne", "ne");
  }

  /** The directional pass on "123 main street ne" deletes the last word, not the space
      before it. */
  lemma DeletionExample()
    ensures MapWords("123 main street ne", DirectionalRemovals) == "123 main street "
  {
    DirectionalsValid();
    NumberKept();
    MainKept();
    StreetKept();
    NortheastKept();
    NortheastDeleted();
    ExpandedSpelling();
    RemovedSpelling();
    FourWordExample(DirectionalRemovals, "123 main street ne", "123 main street ", "street", "street", "ne", "");
  }

  lemma LoweredExample()
    ensures ToLower("123 Main St NE") == "123 main st ne"
  {
  }

  lemma LoweredTidy()
    ensures Tidy("123 main st ne")
  {
    assert Tidy("123" + (" " + ("main" + (" " + ("st" + (" " + "ne")))))) by {
      NumberFacts();
      MainFacts();
      StFacts();
      NortheastFacts();
      PlainWordTidy("123");
      PlainWordTidy("main");
      PlainWordTidy("st");
      PlainWordTidy("ne");
      TidyJoin("st", "ne");
      TidyJoin("main", "st" + (" " + "ne"));
      TidyJoin("123", "main" + (" " + ("st" + (" " + "ne"))));
    }
    AbbreviatedSpelling();
  }

  lemma LoweredHasNoPunctuation()
    ensures '.' !in "123 main st ne" && ',' !in "123 main st ne"
  {
  }

  /** Lower-casing, collapsing and stripping "123 Main St NE". */
  lemma CleanedExample()
    ensures StripChar(StripChar(CollapseSpaces(ToLower("123 Main St NE")), '.'), ',') == "123 main st ne"
  {
    LoweredExample();
    LoweredTidy();
    LoweredHasNoPunctuation();
    TidyIsStable("123 main st ne");
  }

  lemma ExpandedShape()
    ensures Tidy("123 main street ne")
  {
    assert Tidy("123" + (" " + ("main" + (" " + ("street" + (" " + "ne")))))) by {
      NumberFacts();
      MainFacts();
      StreetFacts();
      NortheastFacts();
      PlainWordTidy("123");
      PlainWordTidy("main");
      PlainWordTidy("street");
      PlainWordTidy("ne");
      TidyJoin("street", "ne");
      TidyJoin("main", "street" + (" " + "ne"));
      TidyJoin("123", "main" + (" " + ("street" + (" " + "ne"))));
    }
    ExpandedSpelling();
  }

  lemma ExpandedExample()
    ensures Trim(CollapseSpaces("123 main street ne")) == "123 main street ne"
  {
    ExpandedShape();
    TidyIsStable("123 main street ne");
  }

  lemma RemovedShape()
    ensures SingleSpaced("123 main street ")
  {
    SpelledOutTidy();
    TidyThenSpace("123 main street");
    assert "123 main street" + " " == "123 main street ";
  }

  lemma RemovedEnds()
    ensures "123 main street" + " " == "123 main street "
    ensures !IsSpace("123 main street"[0]) && !IsSpace("123 main street"[14])
  {
  }

  /** The space left behind by the deleted directional is trimmed away. */
  lemma RemovedExample()
    ensures Trim(CollapseSpaces("123 main street ")) == "123 main street"
  {
    RemovedShape();
    RemovedEnds();
    TrimTrailingSpace("123 main street");
    CollapseSingleSpaced("123 main street ");
  }

  /** An abbreviation is expanded, and a trailing directional is dropped together with the
      space before it. */
  lemma AbbreviatedExample()
    ensures Normalize("123 Main St NE") == "123 main street"
  {
    ListsWellFormed();
    NormalizeIsWordwise("123 Main St NE", Abbreviations, DirectionalRemovals);
    CleanedExample();
    ExpansionExample();
    ExpandedExample();
    DeletionExample();
    RemovedExample();
  }

  lemma EmptyExample()
    ensures Normalize("") == ""
  {
  }
}
