/** `normalizeAddress`, the key the consolidator groups pages by: lower-case, collapse white
    space, drop '.' and ',', expand twelve street-type abbreviations as whole words, collapse
    and trim, then delete sixteen compass directions as whole words, collapse and trim again.

    Each `.replace(/\bX\b/g, Y)` is modelled literally as a left-to-right scan that honours
    the `\b` boundaries (`ReplaceWholeWord`), and proved equal to rewriting every maximal run of
    word characters on its own (`MapWords`); the shape and idempotence results are proved on
    the word-wise form. */
module Address {
  import opened Text

  /** One `.replace(/\bword\b/g, replacement)` of the normaliser. */
  datatype Rule = Rule(word: string, replacement: string)

  /** The abbreviation expansions, in the order the normaliser applies them. */
  const Abbreviations: seq<Rule> := [
    Rule("rd", "road"), Rule("st", "street"), Rule("ave", "avenue"), Rule("dr", "drive"),
    Rule("ln", "lane"), Rule("blvd", "boulevard"), Rule("ct", "court"), Rule("pkwy", "parkway"),
    Rule("pl", "place"), Rule("cir", "circle"), Rule("ste", "suite"), Rule("apt", "apartment")
  ]

  /** The directional removals, in the order the normaliser applies them. */
  const DirectionalRemovals: seq<Rule> := [
    Rule("northeast", ""), Rule("northwest", ""), Rule("southeast", ""), Rule("southwest", ""),
    Rule("north", ""), Rule("south", ""), Rule("east", ""), Rule("west", ""),
    Rule("ne", ""), Rule("nw", ""), Rule("se", ""), Rule("sw", ""),
    Rule("n", ""), Rule("s", ""), Rule("e", ""), Rule("w", "")
  ]

  predicate AllWordChars(s: string) {
    forall i :: 0 <= i < |s| ==> IsWordChar(s[i])
  }

  predicate AllLower(s: string) {
    forall i :: 0 <= i < |s| ==> IsLower(s[i])
  }

  /** Rules whose words are non-empty lower-case words and whose replacements are lower-case
      words or empty: every rule of the normaliser. */
  predicate ValidRules(rules: seq<Rule>) {
    forall i :: 0 <= i < |rules| ==>
      rules[i].word != "" && AllLower(rules[i].word) && AllLower(rules[i].replacement)
  }

  // ---------------------------------------------------------------------------------------
  // The string operations of the normaliser, as the regular expressions define them.

  /** The leading white space of `s` removed. */
  function SkipSpaces(s: string): (r: string)
    ensures |r| <= |s| && r == s[|s| - |r|..]
    ensures r == [] || !IsSpace(r[0])
    ensures forall i :: 0 <= i < |s| - |r| ==> IsSpace(s[i])
  {
    if |s| == 0 || !IsSpace(s[0]) then s else SkipSpaces(s[1..])
  }

  /** The trailing white space of `s` removed. */
  function DropTrailingSpaces(s: string): (r: string)
    ensures |r| <= |s| && r == s[..|r|]
    ensures r == [] || !IsSpace(r[|r| - 1])
    ensures forall i :: |r| <= i < |s| ==> IsSpace(s[i])
  {
    if |s| == 0 || !IsSpace(s[|s| - 1]) then s else DropTrailingSpaces(s[..|s| - 1])
  }

  /** `trim()`: a slice of `s` that neither starts nor ends with white space, all of whose
      cut-off characters are white space. */
  function Trim(s: string): (r: string)
    ensures r == [] || (!IsSpace(r[0]) && !IsSpace(r[|r| - 1]))
    ensures forall c :: c in r ==> c in s
    ensures s == [] || (!IsSpace(s[0]) && !IsSpace(s[|s| - 1])) ==> r == s
  {
    var t := SkipSpaces(s);
    var r := DropTrailingSpaces(t);
    TrimMembers(s, t, r);
    r
  }

  /** A prefix of a suffix holds only characters of the whole. */
  lemma TrimMembers(s: string, t: string, r: string)
    requires |t| <= |s| && t == s[|s| - |t|..]
    requires |r| <= |t| && r == t[..|r|]
    ensures forall c :: c in r ==> c in s
  {
    forall c | c in r ensures c in s {
      var k :| 0 <= k < |r| && r[k] == c;
      assert t[k] == c;
      assert s[|s| - |t| + k] == c;
    }
  }

  /** `replace(/\s+/g, ' ')`: every maximal run of white space becomes one space. */
  function CollapseSpaces(s: string): (r: string)
    ensures SingleSpaced(r)
    ensures |s| == 0 ==> r == []
    ensures |s| > 0 && !IsSpace(s[0]) ==> |r| > 0 && r[0] == s[0]
    ensures |s| > 0 && IsSpace(s[0]) ==> |r| > 0 && r[0] == ' '
    decreases |s|
  {
    if |s| == 0 then ""
    else if IsSpace(s[0]) then
      var rest := CollapseSpaces(SkipSpaces(s[1..]));
      SingleSpacedCons(' ', rest);
      " " + rest
    else
      var rest := CollapseSpaces(s[1..]);
      SingleSpacedCons(s[0], rest);
      [s[0]] + rest
  }

  /** The collapse adds no character but the space. */
  lemma {:induction false} CollapseMembers(s: string)
    ensures forall c :: c in CollapseSpaces(s) ==> c == ' ' || c in s
    decreases |s|
  {
    if |s| > 0 {
      var tail := s[1..];
      TrimMembers(s, tail, tail);
      if IsSpace(s[0]) {
        var t := SkipSpaces(tail);
        CollapseMembers(t);
        TrimMembers(tail, t, t);
        assert CollapseSpaces(s) == " " + CollapseSpaces(t);
      } else {
        CollapseMembers(tail);
        assert CollapseSpaces(s) == [s[0]] + CollapseSpaces(tail);
      }
    }
  }

  /** A character put in front of a single-spaced string keeps it single-spaced, unless it is
      white space other than a space or a space before another space. */
  lemma SingleSpacedCons(c: char, r: string)
    requires SingleSpaced(r)
    requires IsSpace(c) ==> c == ' ' && (r == [] || !IsSpace(r[0]))
    ensures SingleSpaced([c] + r)
  {
    var s := [c] + r;
    forall i | 0 <= i < |s| && IsSpace(s[i])
      ensures s[i] == ' ' && (i + 1 < |s| ==> !IsSpace(s[i + 1]))
    {
      if i > 0 {
        assert s[i] == r[i - 1];
        if i + 1 < |s| {
          assert s[i + 1] == r[i];
        }
      }
    }
  }

  /** `replace(/c/g, '')`: every occurrence of `c` deleted. */
  function StripChar(s: string, c: char): (r: string)
    ensures forall x :: x in r <==> x in s && x != c
    ensures multiset(r) == multiset(s)[c := 0]
    ensures c !in s ==> r == s
  {
    if |s| == 0 then ""
    else
      assert s == [s[0]] + s[1..];
      if s[0] == c then StripChar(s[1..], c)
      else [s[0]] + StripChar(s[1..], c)
  }

  /** Stripping works piecewise, so the kept characters stay in their order. */
  lemma {:induction false} StripCharAppend(a: string, b: string, c: char)
    ensures StripChar(a + b, c) == StripChar(a, c) + StripChar(b, c)
    decreases |a|
  {
    if |a| > 0 {
      assert (a + b)[1..] == a[1..] + b;
      StripCharAppend(a[1..], b, c);
    } else {
      assert a + b == b;
    }
  }

  /** `s.replace(/\bword\b/g, replacement)` for a word of word characters, scanning `s` left to
      right; `afterWord` says whether the character before `s` is a word character. A match
      needs a boundary on both sides: no word character before it, and the end of the string
      or a non-word character after it. Scanning resumes after a match, whose last character
      is a word character. */
  function ReplaceWholeWord(s: string, word: string, replacement: string, afterWord: bool): string
    decreases |s|
  {
    if |s| == 0 then ""
    else if !afterWord && word != "" && word <= s && (|s| == |word| || !IsWordChar(s[|word|])) then
      replacement + ReplaceWholeWord(s[|word|..], word, replacement, true)
    else [s[0]] + ReplaceWholeWord(s[1..], word, replacement, IsWordChar(s[0]))
  }

  /** The replacements of `rules`, one after the other. */
  function ReplaceAll(s: string, rules: seq<Rule>): string
    decreases |rules|
  {
    if |rules| == 0 then s
    else ReplaceAll(ReplaceWholeWord(s, rules[0].word, rules[0].replacement, false), rules[1..])
  }

  /** The steps of `normalizeAddress`, for a list of expansions applied before a list of
      deletions. A missing address is the empty string. */
  function NormalizeWith(addr: string, expansions: seq<Rule>, deletions: seq<Rule>): string {
    if addr == "" then ""
    else
      var cleaned := StripChar(StripChar(CollapseSpaces(ToLower(addr)), '.'), ',');
      var expanded := Trim(CollapseSpaces(ReplaceAll(cleaned, expansions)));
      Trim(CollapseSpaces(ReplaceAll(expanded, deletions)))
  }

  /** `normalizeAddress`. */
  function Normalize(addr: string): string {
    NormalizeWith(addr, Abbreviations, DirectionalRemovals)
  }

  // ---------------------------------------------------------------------------------------
  // The word-wise reading.

  /** The length of the run of word characters `s` starts with. */
  function WordLen(s: string): (n: nat)
    ensures n <= |s|
    ensures forall i :: 0 <= i < n ==> IsWordChar(s[i])
    ensures n < |s| ==> !IsWordChar(s[n])
  {
    if |s| == 0 || !IsWordChar(s[0]) then 0 else 1 + WordLen(s[1..])
  }

  /** What the rules, applied in order, make of one whole word. */
  function Rewrite(w: string, rules: seq<Rule>): string
    decreases |rules|
  {
    if |rules| == 0 then w
    else Rewrite(if w == rules[0].word then rules[0].replacement else w, rules[1..])
  }

  /** Every maximal run of word characters rewritten by the rules; everything else kept. */
  function MapWords(s: string, rules: seq<Rule>): (r: string)
    ensures |s| > 0 && !IsWordChar(s[0]) ==> |r| > 0 && r[0] == s[0]
    decreases |s|
  {
    if |s| == 0 then ""
    else if IsWordChar(s[0]) then
      var n := WordLen(s);
      Rewrite(s[..n], rules) + MapWords(s[n..], rules)
    else [s[0]] + MapWords(s[1..], rules)
  }

  /** Every maximal run of word characters of `s` is left alone by the rules. */
  predicate WordsFixed(s: string, rules: seq<Rule>)
    decreases |s|
  {
    if |s| == 0 then true
    else if IsWordChar(s[0]) then
      var n := WordLen(s);
      Rewrite(s[..n], rules) == s[..n] && WordsFixed(s[n..], rules)
    else WordsFixed(s[1..], rules)
  }

  /** The normaliser with each block of whole-word replacements done in one pass. */
  function NormalizeWordwise(addr: string, expansions: seq<Rule>, deletions: seq<Rule>): string {
    if addr == "" then ""
    else
      var cleaned := StripChar(StripChar(CollapseSpaces(ToLower(addr)), '.'), ',');
      var expanded := Trim(CollapseSpaces(MapWords(cleaned, expansions)));
      Trim(CollapseSpaces(MapWords(expanded, deletions)))
  }

  // ---------------------------------------------------------------------------------------
  // The scan and the word-wise pass agree.

  lemma LowerIsWordChar(s: string)
    requires AllLower(s)
    ensures AllWordChars(s)
  {
  }

  /** Right after a word character the scan cannot match until the current word has ended. */
  lemma {:induction false} ReplaceAfterWord(s: string, word: string, replacement: string)
    requires word != "" && AllWordChars(word)
    ensures ReplaceWholeWord(s, word, replacement, true)
            == s[..WordLen(s)] + ReplaceWholeWord(s[WordLen(s)..], word, replacement, false)
    decreases |s|
  {
    if |s| > 0 {
      if IsWordChar(s[0]) {
        ReplaceAfterWord(s[1..], word, replacement);
        assert WordLen(s[1..]) == WordLen(s) - 1;
        assert s[1..][WordLen(s[1..])..] == s[WordLen(s)..];
        assert [s[0]] + s[1..][..WordLen(s[1..])] == s[..WordLen(s)];
      }
    }
  }

  /** One whole-word replacement is the word-wise rewrite by that single rule. */
  lemma {:induction false} ReplaceWholeWordIsMapWords(s: string, rule: Rule)
    requires ValidRules([rule])
    ensures ReplaceWholeWord(s, rule.word, rule.replacement, false) == MapWords(s, [rule])
    decreases |s|
  {
    if |s| > 0 {
      if IsWordChar(s[0]) {
        var n := WordLen(s);
        ReplaceAtWord(s, rule);
        ReplaceWholeWordIsMapWords(s[n..], rule);
      } else {
        assert [rule][0] == rule;
        LowerIsWordChar(rule.word);
        assert !(rule.word <= s);
        ReplaceWholeWordIsMapWords(s[1..], rule);
      }
    }
  }

  /** At the start of a word the scan either replaces the whole word or copies it. */
  lemma ReplaceAtWord(s: string, rule: Rule)
    requires ValidRules([rule])
    requires |s| > 0 && IsWordChar(s[0])
    ensures ReplaceWholeWord(s, rule.word, rule.replacement, false)
            == Rewrite(s[..WordLen(s)], [rule]) + ReplaceWholeWord(s[WordLen(s)..], rule.word, rule.replacement, false)
  {
    var word, replacement := rule.word, rule.replacement;
    assert [rule][0] == rule;
    LowerIsWordChar(word);
    var n := WordLen(s);
    assert [rule][1..] == [];
    if word <= s && (|s| == |word| || !IsWordChar(s[|word|])) {
      MatchedWord(s, word);
      ReplaceAfterWord(s[n..], word, replacement);
    } else {
      assert s[..n] != word;
      CopiedWord(s, word, replacement);
    }
  }

  lemma MatchedWord(s: string, word: string)
    requires AllWordChars(word)
    requires word <= s && (|s| == |word| || !IsWordChar(s[|word|]))
    ensures WordLen(s) == |word| && s[..WordLen(s)] == word
  {
    assert forall i :: 0 <= i < |word| ==> IsWordChar(s[i]) by {
      forall i | 0 <= i < |word| ensures IsWordChar(s[i]) {
        assert s[i] == word[i];
      }
    }
    WordLenOfPrefix(s, |word|);
  }

  lemma CopiedWord(s: string, word: string, replacement: string)
    requires word != "" && AllWordChars(word)
    requires |s| > 0 && IsWordChar(s[0])
    requires !(word <= s && (|s| == |word| || !IsWordChar(s[|word|])))
    ensures ReplaceWholeWord(s, word, replacement, false)
            == s[..WordLen(s)] + ReplaceWholeWord(s[WordLen(s)..], word, replacement, false)
  {
    var n := WordLen(s);
    var t := s[1..];
    var rest := ReplaceWholeWord(s[n..], word, replacement, false);
    assert ReplaceWholeWord(s, word, replacement, false) == [s[0]] + ReplaceWholeWord(t, word, replacement, true);
    assert ReplaceWholeWord(t, word, replacement, true) == t[..n - 1] + rest by {
      assert WordLen(t) == n - 1;
      ReplaceAfterWord(t, word, replacement);
      assert t[n - 1..] == s[n..];
    }
    assert [s[0]] + (t[..n - 1] + rest) == s[..n] + rest by {
      assert [s[0]] + t[..n - 1] == s[..n];
    }
  }

  /** A run of `k` word characters followed by a non-word character or the end is where the
      leading word ends. */
  lemma {:induction false} WordLenOfPrefix(s: string, k: nat)
    requires k <= |s|
    requires forall i :: 0 <= i < k ==> IsWordChar(s[i])
    requires k == |s| || !IsWordChar(s[k])
    ensures WordLen(s) == k
    decreases k
  {
    if k > 0 {
      WordLenOfPrefix(s[1..], k - 1);
    }
  }

  lemma {:induction false} RewriteAppend(w: string, p: seq<Rule>, q: seq<Rule>)
    ensures Rewrite(w, p + q) == Rewrite(Rewrite(w, p), q)
    decreases |p|
  {
    if |p| == 0 {
      assert p + q == q;
    } else {
      assert (p + q)[1..] == p[1..] + q;
      RewriteAppend(if w == p[0].word then p[0].replacement else w, p[1..], q);
    }
  }

  /** Rewriting keeps a word a word, or makes it empty, and never introduces a character
      outside the word and the replacements. */
  lemma {:induction false} RewriteKeeps(w: string, rules: seq<Rule>)
    requires ValidRules(rules)
    ensures AllWordChars(w) ==> AllWordChars(Rewrite(w, rules))
    ensures w == "" ==> Rewrite(w, rules) == ""
    ensures Tame(w) ==> Tame(Rewrite(w, rules))
    decreases |rules|
  {
    if |rules| > 0 {
      LowerIsWordChar(rules[0].replacement);
      RewriteKeeps(if w == rules[0].word then rules[0].replacement else w, rules[1..]);
    }
  }

  lemma WordLenOfWord(u: string, v: string)
    requires AllWordChars(u)
    requires v == [] || !IsWordChar(v[0])
    ensures WordLen(u + v) == |u|
  {
    WordLenOfPrefix(u + v, |u|);
  }

  /** A word followed by a boundary is rewritten on its own. */
  lemma MapWordsOfWord(u: string, v: string, rules: seq<Rule>)
    requires AllWordChars(u)
    requires v == [] || !IsWordChar(v[0])
    requires ValidRules(rules)
    ensures MapWords(u + v, rules) == Rewrite(u, rules) + MapWords(v, rules)
  {
    RewriteKeeps(u, rules);
    if u == [] {
      assert u + v == v;
    } else {
      WordLenOfWord(u, v);
      assert (u + v)[..|u|] == u && (u + v)[|u|..] == v;
    }
  }

  lemma MapWordsOfNonWord(c: char, v: string, rules: seq<Rule>)
    requires !IsWordChar(c)
    ensures MapWords([c] + v, rules) == [c] + MapWords(v, rules)
  {
    assert ([c] + v)[1..] == v;
  }

  /** Two word-wise passes are one pass by the concatenated rules. */
  lemma {:induction false} MapWordsCompose(s: string, p: seq<Rule>, q: seq<Rule>)
    requires ValidRules(p) && ValidRules(q)
    ensures MapWords(MapWords(s, p), q) == MapWords(s, p + q)
    decreases |s|
  {
    if |s| > 0 {
      if IsWordChar(s[0]) {
        var n := WordLen(s);
        var u := Rewrite(s[..n], p);
        RewriteKeeps(s[..n], p);
        MapWordsOfWord(u, MapWords(s[n..], p), q);
        RewriteAppend(s[..n], p, q);
        MapWordsCompose(s[n..], p, q);
      } else {
        MapWordsOfNonWord(s[0], MapWords(s[1..], p), q);
        MapWordsCompose(s[1..], p, q);
      }
    }
  }

  lemma MapWordsNoRules(s: string)
    ensures MapWords(s, []) == s
    decreases |s|
  {
    if |s| > 0 {
      if IsWordChar(s[0]) {
        MapWordsNoRules(s[WordLen(s)..]);
      } else {
        MapWordsNoRules(s[1..]);
      }
    }
  }

  /** The sequence of whole-word replacements is one word-wise pass. */
  lemma {:induction false} ReplaceAllIsMapWords(s: string, rules: seq<Rule>)
    requires ValidRules(rules)
    ensures ReplaceAll(s, rules) == MapWords(s, rules)
    decreases |rules|
  {
    if |rules| == 0 {
      MapWordsNoRules(s);
    } else {
      var first := rules[0];
      ReplaceWholeWordIsMapWords(s, first);
      ReplaceAllIsMapWords(MapWords(s, [first]), rules[1..]);
      MapWordsCompose(s, [first], rules[1..]);
      assert [first] + rules[1..] == rules;
    }
  }

  /** The normaliser as written and its word-wise reading agree on every input. */
  lemma NormalizeIsWordwise(addr: string, expansions: seq<Rule>, deletions: seq<Rule>)
    requires ValidRules(expansions) && ValidRules(deletions)
    ensures NormalizeWith(addr, expansions, deletions) == NormalizeWordwise(addr, expansions, deletions)
  {
    if addr != "" {
      var cleaned := StripChar(StripChar(CollapseSpaces(ToLower(addr)), '.'), ',');
      ReplaceAllIsMapWords(cleaned, expansions);
      var expanded := Trim(CollapseSpaces(MapWords(cleaned, expansions)));
      ReplaceAllIsMapWords(expanded, deletions);
    }
  }

  // ---------------------------------------------------------------------------------------
  // What a normalised address looks like.

  predicate TameChar(c: char) {
    !IsUpper(c) && c != '.' && c != ','
  }

  /** No capital letter, period or comma. */
  predicate Tame(s: string) {
    forall c :: c in s ==> TameChar(c)
  }

  /** Every white-space character is a space followed by something other than white space. */
  predicate SingleSpaced(s: string) {
    forall i :: 0 <= i < |s| && IsSpace(s[i]) ==> s[i] == ' ' && (i + 1 < |s| ==> !IsSpace(s[i + 1]))
  }

  /** Single-spaced, and neither starting nor ending with a space. */
  predicate Tidy(s: string) {
    forall i :: 0 <= i < |s| && IsSpace(s[i]) ==> s[i] == ' ' && 0 < i < |s| - 1 && !IsSpace(s[i + 1])
  }

  /** Tame, tidy, and with no word the rules would expand or delete. */
  predicate NormalizedFor(t: string, expansions: seq<Rule>, deletions: seq<Rule>) {
    Tame(t) && Tidy(t) && WordsFixed(t, expansions) && WordsFixed(t, deletions)
  }

  /** The strings `normalizeAddress` produces. */
  predicate IsNormalized(t: string) {
    NormalizedFor(t, Abbreviations, DirectionalRemovals)
  }

  // ---------------------------------------------------------------------------------------
  // Tameness.

  lemma {:induction false} RewriteTame(w: string, rules: seq<Rule>)
    requires ValidRules(rules) && Tame(w)
    ensures Tame(Rewrite(w, rules))
    decreases |rules|
  {
    if |rules| > 0 {
      var next := if w == rules[0].word then rules[0].replacement else w;
      assert Tame(next) by {
        if w == rules[0].word {
          forall c | c in next ensures TameChar(c) {
            var i :| 0 <= i < |next| && next[i] == c;
            assert IsLower(next[i]);
          }
        }
      }
      RewriteTame(next, rules[1..]);
    }
  }

  lemma {:induction false} MapWordsTame(s: string, rules: seq<Rule>)
    requires ValidRules(rules) && Tame(s)
    ensures Tame(MapWords(s, rules))
    decreases |s|
  {
    if |s| > 0 {
      if IsWordChar(s[0]) {
        var n := WordLen(s);
        assert Tame(s[..n]) by {
          forall c | c in s[..n] ensures TameChar(c) {
            var i :| 0 <= i < n && s[..n][i] == c;
            assert s[i] == c;
          }
        }
        assert Tame(s[n..]) by {
          forall c | c in s[n..] ensures TameChar(c) {
            var i :| 0 <= i < |s| - n && s[n..][i] == c;
            assert s[n + i] == c;
          }
        }
        RewriteTame(s[..n], rules);
        MapWordsTame(s[n..], rules);
      } else {
        assert Tame(s[1..]) by {
          forall c | c in s[1..] ensures TameChar(c) {
            var i :| 0 <= i < |s| - 1 && s[1..][i] == c;
            assert s[1 + i] == c;
          }
        }
        MapWordsTame(s[1..], rules);
      }
    }
  }

  // ---------------------------------------------------------------------------------------
  // Tidiness.

  /** Trimming a single-spaced string leaves it tidy. */
  lemma TrimTidy(s: string)
    requires SingleSpaced(s)
    ensures Tidy(Trim(s))
  {
    var t := SkipSpaces(s);
    var r := DropTrailingSpaces(t);
    var k := |s| - |t|;
    forall i | 0 <= i < |r| && IsSpace(r[i])
      ensures r[i] == ' ' && 0 < i < |r| - 1 && !IsSpace(r[i + 1])
    {
      assert r[i] == s[k + i];
      assert r[i + 1] == s[k + i + 1];
    }
  }

  /** A single-spaced string without surrounding spaces is left alone by the collapse. */
  lemma {:induction false} CollapseSingleSpaced(s: string)
    requires SingleSpaced(s)
    ensures CollapseSpaces(s) == s
    decreases |s|
  {
    if |s| > 0 {
      assert SingleSpaced(s[1..]) by {
        forall i | 0 <= i < |s| - 1 && IsSpace(s[1..][i])
          ensures s[1..][i] == ' ' && (i + 1 < |s| - 1 ==> !IsSpace(s[1..][i + 1]))
        {
          assert s[1..][i] == s[i + 1];
        }
      }
      CollapseSingleSpaced(s[1..]);
      if IsSpace(s[0]) {
        assert s[0] == ' ';
        assert |s| > 1 ==> !IsSpace(s[1..][0]);
        assert SkipSpaces(s[1..]) == s[1..];
        assert CollapseSpaces(s) == " " + s[1..];
      } else {
        assert CollapseSpaces(s) == [s[0]] + s[1..];
      }
      assert s == [s[0]] + s[1..];
    }
  }

  // ---------------------------------------------------------------------------------------
  // Fixed words survive collapsing, trimming and further word-wise passes.

  lemma WordsFixedNoRules(s: string)
    ensures WordsFixed(s, [])
    decreases |s|
  {
    if |s| > 0 {
      if IsWordChar(s[0]) {
        WordsFixedNoRules(s[WordLen(s)..]);
      } else {
        WordsFixedNoRules(s[1..]);
      }
    }
  }

  /** A single word is fixed exactly when the rules leave it alone. */
  lemma WordsFixedOfWord(u: string, rules: seq<Rule>)
    requires u != [] && AllWordChars(u)
    ensures WordsFixed(u, rules) <==> Rewrite(u, rules) == u
  {
    WordLenOfWord(u, []);
    assert u + [] == u;
  }

  /** Two strings that do not glue a word together are fixed exactly when both are. */
  lemma {:induction false} WordsFixedSplit(u: string, v: string, rules: seq<Rule>)
    requires u == [] || v == [] || !IsWordChar(u[|u| - 1]) || !IsWordChar(v[0])
    ensures WordsFixed(u + v, rules) <==> WordsFixed(u, rules) && WordsFixed(v, rules)
    decreases |u|
  {
    if u == [] {
      assert u + v == v;
    } else if !IsWordChar(u[0]) {
      assert (u + v)[1..] == u[1..] + v;
      WordsFixedSplit(u[1..], v, rules);
    } else {
      var n := WordLen(u);
      if n < |u| {
        WordLenOfPrefix(u + v, n);
        assert (u + v)[..n] == u[..n];
        assert (u + v)[n..] == u[n..] + v;
        WordsFixedSplit(u[n..], v, rules);
      } else {
        assert u[..n] == u;
        WordLenOfWord(u, v);
        assert (u + v)[..n] == u && (u + v)[n..] == v;
      }
    }
  }

  lemma SpaceIsNotWordChar(c: char)
    requires IsSpace(c)
    ensures !IsWordChar(c)
  {
  }

  /** Skipping leading white space keeps the words fixed. */
  lemma WordsFixedSkip(s: string, rules: seq<Rule>)
    requires WordsFixed(s, rules)
    ensures WordsFixed(SkipSpaces(s), rules)
  {
    var t := SkipSpaces(s);
    var k := |s| - |t|;
    assert s == s[..k] + t;
    if k > 0 {
      SpaceIsNotWordChar(s[k - 1]);
    }
    WordsFixedSplit(s[..k], t, rules);
  }

  /** Dropping trailing white space keeps the words fixed. */
  lemma WordsFixedDrop(t: string, rules: seq<Rule>)
    requires WordsFixed(t, rules)
    ensures WordsFixed(DropTrailingSpaces(t), rules)
  {
    var r := DropTrailingSpaces(t);
    assert t == r + t[|r|..];
    if |r| < |t| {
      SpaceIsNotWordChar(t[|r|]);
    }
    WordsFixedSplit(r, t[|r|..], rules);
  }

  lemma WordsFixedTrim(s: string, rules: seq<Rule>)
    requires WordsFixed(s, rules)
    ensures WordsFixed(Trim(s), rules)
  {
    WordsFixedSkip(s, rules);
    WordsFixedDrop(SkipSpaces(s), rules);
  }

  /** The collapse copies a leading run of non-space characters. */
  lemma {:induction false} CollapseKeepsNonSpaces(u: string, v: string)
    requires forall i :: 0 <= i < |u| ==> !IsSpace(u[i])
    ensures CollapseSpaces(u + v) == u + CollapseSpaces(v)
    decreases |u|
  {
    if u != [] {
      NoSpacesTail(u);
      CollapseKeepsNonSpaces(u[1..], v);
      CollapseKeepsStep(u, v);
    } else {
      assert u + v == v;
    }
  }

  lemma NoSpacesTail(u: string)
    requires |u| > 0 && forall i :: 0 <= i < |u| ==> !IsSpace(u[i])
    ensures !IsSpace(u[0]) && forall i :: 0 <= i < |u[1..]| ==> !IsSpace(u[1..][i])
  {
    forall i | 0 <= i < |u[1..]| ensures u[1..][i] == u[i + 1] { }
  }

  lemma CollapseKeepsStep(u: string, v: string)
    requires |u| > 0 && !IsSpace(u[0])
    requires CollapseSpaces(u[1..] + v) == u[1..] + CollapseSpaces(v)
    ensures CollapseSpaces(u + v) == u + CollapseSpaces(v)
  {
    var c, tail := u[0], u[1..];
    assert u == [c] + tail;
    ConsAppend(c, tail, v);
    CollapseCons(c, tail + v);
    ConsAppend(c, tail, CollapseSpaces(v));
  }

  lemma ConsAppend<T>(c: T, a: seq<T>, b: seq<T>)
    ensures [c] + (a + b) == ([c] + a) + b
  {
  }

  /** A character other than white space is copied by the collapse. */
  lemma CollapseCons(c: char, x: string)
    requires !IsSpace(c)
    ensures CollapseSpaces([c] + x) == [c] + CollapseSpaces(x)
  {
    var w := [c] + x;
    assert w[0] == c && w[1..] == x;
  }

  lemma {:induction false} WordsFixedCollapse(s: string, rules: seq<Rule>)
    requires WordsFixed(s, rules)
    ensures WordsFixed(CollapseSpaces(s), rules)
    decreases |s|
  {
    if |s| > 0 {
      if IsWordChar(s[0]) {
        var n := WordLen(s);
        var u := s[..n];
        assert s == u + s[n..];
        forall i | 0 <= i < |u| ensures !IsSpace(u[i]) {
          if IsSpace(u[i]) {
            SpaceIsNotWordChar(u[i]);
          }
        }
        CollapseKeepsNonSpaces(u, s[n..]);
        WordsFixedCollapse(s[n..], rules);
        WordsFixedOfWord(u, rules);
        WordsFixedSplit(u, CollapseSpaces(s[n..]), rules);
      } else if IsSpace(s[0]) {
        var t := SkipSpaces(s[1..]);
        WordsFixedSkip(s[1..], rules);
        WordsFixedCollapse(t, rules);
        WordsFixedSplit(" ", CollapseSpaces(t), rules);
      } else {
        WordsFixedCollapse(s[1..], rules);
        assert CollapseSpaces(s) == [s[0]] + CollapseSpaces(s[1..]);
        WordsFixedSplit([s[0]], CollapseSpaces(s[1..]), rules);
      }
    }
  }

  /** A word-wise pass by `p` yields words that `q` leaves alone, when `q` leaves alone the
      image under `p` of every word `r` leaves alone. */
  lemma {:induction false} WordsFixedAfterMap(s: string, p: seq<Rule>, q: seq<Rule>, r: seq<Rule>)
    requires ValidRules(p) && WordsFixed(s, r)
    requires forall w :: AllWordChars(w) && Rewrite(w, r) == w ==> Rewrite(Rewrite(w, p), q) == Rewrite(w, p)
    ensures WordsFixed(MapWords(s, p), q)
    decreases |s|
  {
    if |s| > 0 {
      if IsWordChar(s[0]) {
        var n := WordLen(s);
        var u := Rewrite(s[..n], p);
        RewriteKeeps(s[..n], p);
        WordsFixedAfterMap(s[n..], p, q, r);
        if u != [] {
          WordsFixedOfWord(u, q);
        }
        WordsFixedSplit(u, MapWords(s[n..], p), q);
      } else {
        WordsFixedAfterMap(s[1..], p, q, r);
        WordsFixedSplit([s[0]], MapWords(s[1..], p), q);
      }
    }
  }

  /** A string whose words are fixed is left alone by the word-wise pass. */
  lemma {:induction false} WordsFixedMapWords(s: string, rules: seq<Rule>)
    requires WordsFixed(s, rules)
    ensures MapWords(s, rules) == s
    decreases |s|
  {
    if |s| > 0 {
      if IsWordChar(s[0]) {
        var n := WordLen(s);
        assert Rewrite(s[..n], rules) == s[..n] && WordsFixed(s[n..], rules);
        WordsFixedMapWords(s[n..], rules);
        MapWordsKeepsFixedWord(s, rules);
      } else {
        assert WordsFixed(s[1..], rules);
        WordsFixedMapWords(s[1..], rules);
        MapWordsKeepsOther(s, rules);
      }
    }
  }

  lemma MapWordsKeepsFixedWord(s: string, rules: seq<Rule>)
    requires |s| > 0 && IsWordChar(s[0])
    requires Rewrite(s[..WordLen(s)], rules) == s[..WordLen(s)]
    requires MapWords(s[WordLen(s)..], rules) == s[WordLen(s)..]
    ensures MapWords(s, rules) == s
  {
    var n := WordLen(s);
    assert MapWords(s, rules) == Rewrite(s[..n], rules) + MapWords(s[n..], rules);
    assert s == s[..n] + s[n..];
  }

  lemma MapWordsKeepsOther(s: string, rules: seq<Rule>)
    requires |s| > 0 && !IsWordChar(s[0])
    requires MapWords(s[1..], rules) == s[1..]
    ensures MapWords(s, rules) == s
  {
    assert MapWords(s, rules) == [s[0]] + s[1..];
    assert s == [s[0]] + s[1..];
  }

  // ---------------------------------------------------------------------------------------
  // The rule lists: a word is rewritten at most once.

  /** The replacement of the first rule whose word is `w`, or `w` itself. */
  function Lookup(w: string, rules: seq<Rule>): (r: string)
    ensures r == w || exists i :: 0 <= i < |rules| && rules[i].replacement == r
    ensures (forall i :: 0 <= i < |rules| ==> rules[i].word != w) ==> r == w
    decreases |rules|
  {
    if |rules| == 0 then w
    else if rules[0].word == w then rules[0].replacement
    else
      var r := Lookup(w, rules[1..]);
      assert r == w || exists i :: 0 <= i < |rules| && rules[i].replacement == r by {
        if r != w {
          var i :| 0 <= i < |rules| - 1 && rules[1..][i].replacement == r;
          assert rules[i + 1].replacement == r;
        }
      }
      r
  }

  /** No replacement is itself a word some rule rewrites. */
  predicate NoChains(rules: seq<Rule>) {
    forall i, j :: 0 <= i < |rules| && 0 <= j < |rules| ==> rules[i].replacement != rules[j].word
  }

  /** Without chains, applying the rules in order is a single table lookup. */
  lemma {:induction false} RewriteIsLookup(w: string, rules: seq<Rule>)
    requires NoChains(rules)
    ensures Rewrite(w, rules) == Lookup(w, rules)
    decreases |rules|
  {
    if |rules| > 0 {
      assert NoChains(rules[1..]) by {
        forall i, j | 0 <= i < |rules| - 1 && 0 <= j < |rules| - 1
          ensures rules[1..][i].replacement != rules[1..][j].word
        {
          assert rules[1..][i] == rules[i + 1] && rules[1..][j] == rules[j + 1];
        }
      }
      var next := if w == rules[0].word then rules[0].replacement else w;
      RewriteIsLookup(next, rules[1..]);
      if w == rules[0].word {
        assert forall j :: 0 <= j < |rules| - 1 ==> rules[1..][j].word != next by {
          forall j | 0 <= j < |rules| - 1 ensures rules[1..][j].word != next {
            assert rules[1..][j] == rules[j + 1];
          }
        }
      }
    }
  }

  /** Without chains, the result of a lookup is not looked up again. */
  lemma LookupIdempotent(w: string, rules: seq<Rule>)
    requires NoChains(rules)
    ensures Lookup(Lookup(w, rules), rules) == Lookup(w, rules)
  {
    var r := Lookup(w, rules);
    if r != w {
      var k :| 0 <= k < |rules| && rules[k].replacement == r;
      assert forall j :: 0 <= j < |rules| ==> rules[j].word != r;
    } else if exists j :: 0 <= j < |rules| && rules[j].word == w {
      LookupHit(w, rules);
    }
  }

  /** A word some rule rewrites is looked up to a replacement. */
  lemma {:induction false} LookupHit(w: string, rules: seq<Rule>)
    requires exists j :: 0 <= j < |rules| && rules[j].word == w
    ensures exists i :: 0 <= i < |rules| && rules[i].word == w && rules[i].replacement == Lookup(w, rules)
    decreases |rules|
  {
    if rules[0].word != w {
      var j :| 0 <= j < |rules| && rules[j].word == w;
      assert rules[1..][j - 1].word == w;
      LookupHit(w, rules[1..]);
      var i :| 0 <= i < |rules| - 1 && rules[1..][i].word == w && rules[1..][i].replacement == Lookup(w, rules[1..]);
      assert rules[i + 1] == rules[1..][i];
    }
  }

  /** Expansions and deletions as the normaliser's lists are: lower-case words, no
      replacement rewritten again, and deletions that delete. */
  predicate WellFormedLists(expansions: seq<Rule>, deletions: seq<Rule>) {
    && ValidRules(expansions) && ValidRules(deletions)
    && NoChains(expansions) && NoChains(deletions)
    && forall i :: 0 <= i < |deletions| ==> deletions[i].replacement == ""
  }

  lemma ListsWellFormed()
    ensures WellFormedLists(Abbreviations, DirectionalRemovals)
  {
    AbbreviationsValid();
    DirectionalsValid();
    AbbreviationsUnchained();
    DirectionalsUnchained();
  }

  /** The conditions `ValidRules` puts on one rule. */
  predicate ValidRule(rule: Rule) {
    rule.word != "" && AllLower(rule.word) && AllLower(rule.replacement)
  }

  lemma AbbreviationsValid()
    ensures ValidRules(Abbreviations)
  {
    forall i | 0 <= i < |Abbreviations| ensures ValidRule(Abbreviations[i]) {
      if i < 4 { AbbreviationValid(i, 0); }
      else if i < 8 { AbbreviationValid(i, 4); }
      else { AbbreviationValid(i, 8); }
    }
  }

  lemma AbbreviationValid(i: int, lo: int)
    requires lo in {0, 4, 8} && lo <= i < lo + 4
    ensures ValidRule(Abbreviations[i])
  {
    if lo == 0 { assert i in {0, 1, 2, 3}; }
    else if lo == 4 { assert i in {4, 5, 6, 7}; }
    else { assert i in {8, 9, 10, 11}; }
  }

  lemma DirectionalsValid()
    ensures ValidRules(DirectionalRemovals)
    ensures forall i :: 0 <= i < |DirectionalRemovals| ==> DirectionalRemovals[i].replacement == ""
  {
    forall i | 0 <= i < |DirectionalRemovals|
      ensures ValidRule(DirectionalRemovals[i]) && DirectionalRemovals[i].replacement == ""
    {
      if i < 4 { DirectionalValid(i, 0); }
      else if i < 8 { DirectionalValid(i, 4); }
      else if i < 12 { DirectionalValid(i, 8); }
      else { DirectionalValid(i, 12); }
    }
  }

  lemma DirectionalValid(i: int, lo: int)
    requires lo in {0, 4, 8, 12} && lo <= i < lo + 4
    ensures ValidRule(DirectionalRemovals[i]) && DirectionalRemovals[i].replacement == ""
  {
    if lo == 0 { assert i in {0, 1, 2, 3}; }
    else if lo == 4 { assert i in {4, 5, 6, 7}; }
    else if lo == 8 { assert i in {8, 9, 10, 11}; }
    else { assert i in {12, 13, 14, 15}; }
  }

  lemma AbbreviationsUnchained()
    ensures NoChains(Abbreviations)
  {
    forall i, j | 0 <= i < |Abbreviations| && 0 <= j < |Abbreviations|
      ensures Abbreviations[i].replacement != Abbreviations[j].word
    {
      if i < 4 { ExpansionNotAWord(i, 0); }
      else if i < 8 { ExpansionNotAWord(i, 4); }
      else { ExpansionNotAWord(i, 8); }
    }
  }

  /** No expansion is itself an abbreviation: `road`, `street`, ... all have a vowel that
      the abbreviations lack, or a different length. */
  lemma ExpansionNotAWord(i: int, lo: int)
    requires lo in {0, 4, 8} && lo <= i < lo + 4
    ensures forall j :: 0 <= j < |Abbreviations| ==> Abbreviations[i].replacement != Abbreviations[j].word
  {
    if lo == 0 { assert i in {0, 1, 2, 3}; }
    else if lo == 4 { assert i in {4, 5, 6, 7}; }
    else { assert i in {8, 9, 10, 11}; }
  }

  /** Rules that delete a non-empty word never chain: an empty replacement is no rule's word. */
  lemma DeletionsUnchained(rules: seq<Rule>)
    requires forall i :: 0 <= i < |rules| ==> rules[i].replacement == "" && rules[i].word != ""
    ensures NoChains(rules)
  {
  }

  lemma DirectionalsUnchained()
    ensures NoChains(DirectionalRemovals)
  {
    DirectionalsValid();
    DeletionsUnchained(DirectionalRemovals);
  }

  /** What a pass makes of a word is left alone by a second one. */
  lemma PassIdempotent(w: string, rules: seq<Rule>)
    requires NoChains(rules)
    ensures Rewrite(Rewrite(w, rules), rules) == Rewrite(w, rules)
  {
    RewriteIsLookup(w, rules);
    RewriteIsLookup(Rewrite(w, rules), rules);
    LookupIdempotent(w, rules);
  }

  /** Deleting words never creates an expandable one: a word the expansions leave alone is
      deleted or kept, and either way still left alone. */
  lemma DeletionKeepsExpansions(w: string, expansions: seq<Rule>, deletions: seq<Rule>)
    requires WellFormedLists(expansions, deletions)
    requires Rewrite(w, expansions) == w
    ensures Rewrite(Rewrite(w, deletions), expansions) == Rewrite(w, deletions)
  {
    RewriteIsLookup(w, deletions);
    var d := Rewrite(w, deletions);
    assert d == w || d == "";
    if d == "" {
      RewriteKeeps(d, expansions);
    }
  }

  // ---------------------------------------------------------------------------------------
  // The normaliser's promises.

  /** The input after lower-casing, collapsing and stripping periods and commas is tame. */
  lemma CleanedTame(addr: string)
    ensures Tame(StripChar(StripChar(CollapseSpaces(ToLower(addr)), '.'), ','))
  {
    var lowered := ToLower(addr);
    assert forall c :: c in lowered ==> !IsUpper(c);
    var collapsed := CollapseSpaces(lowered);
    CollapseMembers(lowered);
    assert forall c :: c in collapsed ==> !IsUpper(c);
  }

  /** The expansion stage yields a tame string whose words the expansions leave alone. */
  lemma ExpansionStage(cleaned: string, expansions: seq<Rule>)
    requires ValidRules(expansions) && NoChains(expansions) && Tame(cleaned)
    ensures var expanded := Trim(CollapseSpaces(MapWords(cleaned, expansions)));
            Tame(expanded) && WordsFixed(expanded, expansions)
  {
    var mapped := MapWords(cleaned, expansions);
    MapWordsTame(cleaned, expansions);
    CollapseMembers(mapped);
    ExpandedWordsFixed(cleaned, expansions);
    WordsFixedCollapseTrim(mapped, expansions);
  }

  /** The abbreviation pass leaves nothing for itself to rewrite. */
  lemma ExpandedWordsFixed(cleaned: string, expansions: seq<Rule>)
    requires ValidRules(expansions) && NoChains(expansions)
    ensures WordsFixed(MapWords(cleaned, expansions), expansions)
  {
    WordsFixedNoRules(cleaned);
    forall w | AllWordChars(w) && Rewrite(w, []) == w
      ensures Rewrite(Rewrite(w, expansions), expansions) == Rewrite(w, expansions)
    {
      PassIdempotent(w, expansions);
    }
    WordsFixedAfterMap(cleaned, expansions, expansions, []);
  }

  /** Collapsing and trimming keep the words fixed. */
  lemma WordsFixedCollapseTrim(s: string, rules: seq<Rule>)
    requires WordsFixed(s, rules)
    ensures WordsFixed(Trim(CollapseSpaces(s)), rules)
  {
    WordsFixedCollapse(s, rules);
    WordsFixedTrim(CollapseSpaces(s), rules);
  }

  /** The directional pass leaves nothing for either pass to rewrite. */
  lemma DeletedWordsFixed(expanded: string, expansions: seq<Rule>, deletions: seq<Rule>)
    requires WellFormedLists(expansions, deletions)
    requires WordsFixed(expanded, expansions)
    ensures WordsFixed(MapWords(expanded, deletions), deletions)
    ensures WordsFixed(MapWords(expanded, deletions), expansions)
  {
    WordsFixedNoRules(expanded);
    forall w | AllWordChars(w) && Rewrite(w, []) == w
      ensures Rewrite(Rewrite(w, deletions), deletions) == Rewrite(w, deletions)
    {
      PassIdempotent(w, deletions);
    }
    WordsFixedAfterMap(expanded, deletions, deletions, []);
    forall w | AllWordChars(w) && Rewrite(w, expansions) == w
      ensures Rewrite(Rewrite(w, deletions), expansions) == Rewrite(w, deletions)
    {
      DeletionKeepsExpansions(w, expansions, deletions);
    }
    WordsFixedAfterMap(expanded, deletions, expansions, expansions);
  }

  /** The deletion stage keeps the string tame and the expansions' words alone, deletes every
      word it would delete, and leaves the spaces tidy. */
  lemma DeletionStage(expanded: string, expansions: seq<Rule>, deletions: seq<Rule>)
    requires WellFormedLists(expansions, deletions)
    requires Tame(expanded) && WordsFixed(expanded, expansions)
    ensures NormalizedFor(Trim(CollapseSpaces(MapWords(expanded, deletions))), expansions, deletions)
  {
    var removed := MapWords(expanded, deletions);
    MapWordsTame(expanded, deletions);
    CollapseMembers(removed);
    DeletedWordsFixed(expanded, expansions, deletions);
    TrimTidy(CollapseSpaces(removed));
    WordsFixedCollapseTrim(removed, expansions);
    WordsFixedCollapseTrim(removed, deletions);
  }

  lemma ShapeWith(addr: string, expansions: seq<Rule>, deletions: seq<Rule>)
    requires WellFormedLists(expansions, deletions)
    ensures NormalizedFor(NormalizeWith(addr, expansions, deletions), expansions, deletions)
  {
    NormalizeIsWordwise(addr, expansions, deletions);
    if addr != "" {
      var cleaned := StripChar(StripChar(CollapseSpaces(ToLower(addr)), '.'), ',');
      CleanedTame(addr);
      ExpansionStage(cleaned, expansions);
      var expanded := Trim(CollapseSpaces(MapWords(cleaned, expansions)));
      DeletionStage(expanded, expansions, deletions);
    }
  }

  lemma LowerOfTame(t: string)
    requires Tame(t)
    ensures ToLower(t) == t
  {
    forall i | 0 <= i < |t| ensures ToLower(t)[i] == t[i] {
      assert t[i] in t;
    }
  }

  /** Collapsing and trimming leave a tidy string alone. */
  lemma TidyIsStable(t: string)
    requires Tidy(t)
    ensures CollapseSpaces(t) == t
    ensures Trim(CollapseSpaces(t)) == t
  {
    assert SingleSpaced(t);
    CollapseSingleSpaced(t);
    if t != [] {
      assert !IsSpace(t[0]) && !IsSpace(t[|t| - 1]);
    }
  }

  lemma FixesWith(t: string, expansions: seq<Rule>, deletions: seq<Rule>)
    requires WellFormedLists(expansions, deletions)
    requires NormalizedFor(t, expansions, deletions)
    ensures NormalizeWith(t, expansions, deletions) == t
  {
    NormalizeIsWordwise(t, expansions, deletions);
    if t != "" {
      LowerOfTame(t);
      TidyIsStable(t);
      assert '.' !in t && ',' !in t;
      WordsFixedMapWords(t, expansions);
      WordsFixedMapWords(t, deletions);
    }
  }

  /** Every output of `normalizeAddress` is tame (no capital letter, period or comma), tidy
      (single spaces only, none at either end) and free of words it would expand or delete. */
  lemma NormalizeShape(addr: string)
    ensures IsNormalized(Normalize(addr))
  {
    ListsWellFormed();
    ShapeWith(addr, Abbreviations, DirectionalRemovals);
  }

  /** `normalizeAddress` leaves every normalised address unchanged. */
  lemma NormalizeFixesNormalized(t: string)
    requires IsNormalized(t)
    ensures Normalize(t) == t
  {
    ListsWellFormed();
    FixesWith(t, Abbreviations, DirectionalRemovals);
  }

  /** Normalising twice is normalising once. */
  lemma NormalizeIdempotent(addr: string)
    ensures Normalize(Normalize(addr)) == Normalize(addr)
  {
    NormalizeShape(addr);
    NormalizeFixesNormalized(Normalize(addr));
  }
}
