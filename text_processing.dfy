/** The text feature extractor of utils/text_processing.py. Tokenisation, sentence splitting,
    lemmatisation, the stopword corpus and named-entity recognition are foreign libraries: their
    outputs (token and sentence sequences, stopword set, regex captures) are parameters here. */
module TextProcessing {
  import opened Strings
  import opened Seqs
  import Config

  // ---------------------------------------------------------------------------------------------
  // clean_text: lower-case, replace everything but letters and whitespace by a space, collapse
  // whitespace runs to one space, strip.

  /** re.sub(r'[^a-zA-Z\s]', ' ', s) */
  function KeepLettersAndSpaces(s: string): (r: string)
    ensures |r| == |s|
    ensures forall i | 0 <= i < |s| :: r[i] == (if IsLetter(s[i]) || IsSpace(s[i]) then s[i] else ' ')
  {
    seq(|s|, i requires 0 <= i < |s| => if IsLetter(s[i]) || IsSpace(s[i]) then s[i] else ' ')
  }

  /** re.sub(r'\s+', ' ', s) */
  function Collapse(s: string): string
    decreases |s|
  {
    if s == [] then []
    else if IsSpace(s[0]) then [' '] + Collapse(StripLeft(s[1..]))
    else [s[0]] + Collapse(s[1..])
  }

  ghost predicate LowerOrSpace(s: string) {
    forall i | 0 <= i < |s| :: IsLowerLetter(s[i]) || IsSpace(s[i])
  }

  ghost predicate CleanChars(s: string) {
    forall i | 0 <= i < |s| :: IsLowerLetter(s[i]) || s[i] == ' '
  }

  ghost predicate NoDoubleSpace(s: string) {
    forall i | 0 <= i < |s| - 1 :: !(s[i] == ' ' && s[i + 1] == ' ')
  }

  /** The shape of clean_text's output: only a-z and single spaces, no space at either end. */
  ghost predicate IsClean(s: string) {
    && CleanChars(s)
    && NoDoubleSpace(s)
    && (s != [] ==> s[0] != ' ' && s[|s| - 1] != ' ')
  }

  lemma {:induction false} CollapseShape(s: string)
    requires LowerOrSpace(s)
    ensures CleanChars(Collapse(s)) && NoDoubleSpace(Collapse(s))
    ensures Collapse(s) == [] <==> s == []
    ensures s != [] ==> (Collapse(s)[0] == ' ' <==> IsSpace(s[0]))
    decreases |s|
  {
    if s == [] {
    } else if IsSpace(s[0]) {
      var t := StripLeft(s[1..]);
      assert forall i | 0 <= i < |t| :: t[i] == s[1..][|s[1..]| - |t| + i];
      assert LowerOrSpace(t);
      CollapseShape(t);
      var c := Collapse(t);
      assert Collapse(s) == [' '] + c;
      assert c != [] ==> t != [] && c[0] != ' ';
      ConsKeepsShape(' ', c);
    } else {
      assert LowerOrSpace(s[1..]);
      CollapseShape(s[1..]);
      var c := Collapse(s[1..]);
      assert Collapse(s) == [s[0]] + c;
      ConsKeepsShape(s[0], c);
    }
  }

  lemma ConsKeepsShape(x: char, c: string)
    requires IsLowerLetter(x) || x == ' '
    requires CleanChars(c) && NoDoubleSpace(c)
    requires x == ' ' && c != [] ==> c[0] != ' '
    ensures CleanChars([x] + c) && NoDoubleSpace([x] + c)
  {
    var r := [x] + c;
    assert forall i | 1 <= i < |r| :: r[i] == c[i - 1];
  }

  /** A part of a collapsed string with no space at either end has the clean shape. */
  lemma TrimmedPartClean(c: string, r: string)
    requires CleanChars(c) && NoDoubleSpace(c)
    requires Trimmed(r) && Contains(c, r)
    ensures IsClean(r)
  {
    var a :| 0 <= a <= |c| && OccursAt(c, r, a);
    var b := a + |r|;
    assert c[a..b] == r;
    SliceKeepsShape(c, a, b);
  }

  lemma SliceKeepsShape(c: string, a: nat, b: nat)
    requires a <= b <= |c|
    requires CleanChars(c) && NoDoubleSpace(c)
    ensures CleanChars(c[a..b]) && NoDoubleSpace(c[a..b])
  {
    var r := c[a..b];
    assert forall i | 0 <= i < |r| :: r[i] == c[a + i];
  }

  /** The characters of s that are not whitespace, in order. */
  function NonSpace(s: string): string {
    if s == [] then [] else (if IsSpace(s[0]) then [] else [s[0]]) + NonSpace(s[1..])
  }

  /** The letters of s, lower-cased, in order. */
  function LowerLetters(s: string): string {
    if s == [] then [] else (if IsLetter(s[0]) then [LowerChar(s[0])] else []) + LowerLetters(s[1..])
  }

  lemma {:induction false} NonSpaceConcat(a: string, b: string)
    ensures NonSpace(a + b) == NonSpace(a) + NonSpace(b)
  {
    if a == [] {
      assert a + b == b;
    } else {
      assert (a + b)[1..] == a[1..] + b;
      NonSpaceConcat(a[1..], b);
      var h := if IsSpace(a[0]) then [] else [a[0]];
      calc {
        NonSpace(a + b);
        h + NonSpace(a[1..] + b);
        h + (NonSpace(a[1..]) + NonSpace(b));
        (h + NonSpace(a[1..])) + NonSpace(b);
      }
    }
  }

  /** Replacing the non-letters of the lower-cased text by spaces leaves its letters as the only
      non-space characters. */
  lemma {:induction false} KeptLetters(s: string)
    ensures NonSpace(KeepLettersAndSpaces(Lower(s))) == LowerLetters(s)
  {
    if s != [] {
      var k := KeepLettersAndSpaces(Lower(s));
      assert Lower(s)[1..] == Lower(s[1..]);
      assert k[1..] == KeepLettersAndSpaces(Lower(s[1..]));
      KeptLetters(s[1..]);
    }
  }

  /** Leading whitespace holds no non-space character. */
  lemma {:induction false} StripLeftNonSpace(s: string)
    ensures NonSpace(StripLeft(s)) == NonSpace(s)
  {
    if s != [] && IsSpace(s[0]) {
      StripLeftNonSpace(s[1..]);
    }
  }

  /** Trailing whitespace holds no non-space character. */
  lemma {:induction false} StripRightNonSpace(s: string)
    ensures NonSpace(StripRight(s)) == NonSpace(s)
  {
    if s != [] && IsSpace(s[|s| - 1]) {
      var init := s[..|s| - 1];
      assert s == init + [s[|s| - 1]];
      NonSpaceConcat(init, [s[|s| - 1]]);
      StripRightNonSpace(init);
    }
  }

  /** Collapsing whitespace runs keeps the non-space characters. */
  lemma {:induction false} CollapseNonSpace(s: string)
    ensures NonSpace(Collapse(s)) == NonSpace(s)
    decreases |s|
  {
    if s != [] {
      if IsSpace(s[0]) {
        var t := StripLeft(s[1..]);
        assert ([' '] + Collapse(t))[1..] == Collapse(t);
        CollapseNonSpace(t);
        StripLeftNonSpace(s[1..]);
      } else {
        assert ([s[0]] + Collapse(s[1..]))[1..] == Collapse(s[1..]);
        CollapseNonSpace(s[1..]);
      }
    }
  }

  /** clean_text: the result has the clean shape, and its non-space characters are exactly the
      letters of the text, lower-cased and in order; digits and punctuation only separate words. */
  function CleanText(text: string): (r: string)
    ensures IsClean(r)
    ensures NonSpace(r) == LowerLetters(text)
    ensures text == "" ==> r == ""
  {
    if text == "" then ""
    else
      var kept := KeepLettersAndSpaces(Lower(text));
      CollapseShape(kept);
      StripSpec(Collapse(kept));
      TrimmedPartClean(Collapse(kept), Strip(Collapse(kept)));
      KeptLetters(text);
      CollapseNonSpace(kept);
      StripLeftNonSpace(Collapse(kept));
      StripRightNonSpace(StripLeft(Collapse(kept)));
      Strip(Collapse(kept))
  }

  lemma {:induction false} CollapseFixpoint(s: string)
    requires CleanChars(s) && NoDoubleSpace(s)
    ensures Collapse(s) == s
    decreases |s|
  {
    if s == [] {
    } else {
      assert CleanChars(s[1..]) && NoDoubleSpace(s[1..]);
      if s[0] == ' ' {
        assert s[1..] == [] || !IsSpace(s[1]);
        assert StripLeft(s[1..]) == s[1..];
      }
      CollapseFixpoint(s[1..]);
    }
  }

  /** Text already in clean form is left unchanged. */
  lemma CleanFixpoint(s: string)
    requires IsClean(s)
    ensures CleanText(s) == s
  {
    if s != "" {
      assert Lower(s) == s by {
        assert forall i | 0 <= i < |s| :: !IsUpper(s[i]);
      }
      assert KeepLettersAndSpaces(s) == s by {
        assert forall i | 0 <= i < |s| :: IsLetter(s[i]) || IsSpace(s[i]);
      }
      CollapseFixpoint(s);
      assert Trimmed(s);
      StripIdentity(s);
    }
  }

  /** clean_text is idempotent. */
  lemma CleanTextIdempotent(t: string)
    ensures CleanText(CleanText(t)) == CleanText(t)
  {
    CleanFixpoint(CleanText(t));
  }

  // ---------------------------------------------------------------------------------------------
  // remove_stopwords over a given token sequence and stopword set.

  /** The tokens kept by remove_stopwords, in their original order. */
  function KeptWords(words: seq<string>, stopwords: set<string>): (r: seq<string>)
    ensures |r| <= |words|
    ensures forall w :: w in r <==> w in words && Lower(w) !in stopwords
  {
    if words == [] then []
    else (if Lower(words[0]) in stopwords then [] else [words[0]]) + KeptWords(words[1..], stopwords)
  }

  /** remove_stopwords: the kept tokens joined by single spaces. */
  function RemoveStopwords(words: seq<string>, stopwords: set<string>): string {
    Join(KeptWords(words, stopwords), " ")
  }

  /** Filtering distributes over concatenation, so the relative order of kept tokens is the
      input order. */
  lemma {:induction false} KeptWordsConcat(a: seq<string>, b: seq<string>, stopwords: set<string>)
    ensures KeptWords(a + b, stopwords) == KeptWords(a, stopwords) + KeptWords(b, stopwords)
  {
    if a == [] {
      assert a + b == b;
    } else {
      assert (a + b)[0] == a[0] && (a + b)[1..] == a[1..] + b;
      KeptWordsConcat(a[1..], b, stopwords);
    }
  }

  // ---------------------------------------------------------------------------------------------
  // extract_skills: the pattern \b<skill>\b searched in the lower-cased text.

  /** The regex boundary \b at position i: exactly one side is a word character. */
  predicate Boundary(t: string, i: nat)
    requires i <= |t|
  {
    (i > 0 && IsWordChar(t[i - 1])) != (i < |t| && IsWordChar(t[i]))
  }

  predicate WholeWordAt(t: string, k: string, i: nat) {
    OccursAt(t, k, i) && Boundary(t, i) && Boundary(t, i + |k|)
  }

  /** re.search(r'\b' + re.escape(k) + r'\b', t) finds a match. */
  predicate HasWholeWord(t: string, k: string) {
    exists i | 0 <= i <= |t| :: WholeWordAt(t, k, i)
  }

  predicate SkillMentioned(text: string, skill: string) {
    HasWholeWord(Lower(text), Lower(skill))
  }

  method ExtractSkills(text: string, skillList: seq<string>) returns (skills: seq<string>)
    ensures NoDuplicates(skills)
    ensures forall s :: s in skills <==> s in skillList && SkillMentioned(text, s)
  {
    var textLower := Lower(text);
    var found: seq<string> := [];
    for i := 0 to |skillList|
      invariant forall s :: s in found <==> s in skillList[..i] && SkillMentioned(text, s)
    {
      var skill := skillList[i];
      assert skillList[..i + 1] == skillList[..i] + [skill];
      if HasWholeWord(textLower, Lower(skill)) {
        found := found + [skill];
      }
    }
    assert skillList[..|skillList|] == skillList;
    skills := Dedup(found);
  }

  /** "java" is not found inside "javascript": the match would end between two word characters. */
  lemma JavaNotInJavascript()
    ensures !SkillMentioned("javascript", "java")
    ensures SkillMentioned("java, javascript", "java")
  {
    var t := "javascript";
    assert Lower(t) == t && Lower("java") == "java";
    forall i | 0 <= i <= |t| ensures !WholeWordAt(t, "java", i) {
      if 0 < i && i + 4 <= |t| {
        assert t[i..i + 4][0] == t[i];
      }
    }
    var u := "java, javascript";
    assert Lower(u) == u;
    assert WholeWordAt(u, "java", 0);
  }

  /** The trailing \b after "c++" needs a word character to follow it. */
  lemma CPlusPlusNeedsFollowingWordChar()
    ensures !SkillMentioned("c++ developer", "c++")
    ensures SkillMentioned("c++11", "c++")
  {
    var t := "c++ developer";
    assert Lower(t) == t && Lower("c++") == "c++";
    forall i | 0 <= i <= |t| ensures !WholeWordAt(t, "c++", i) {
      if 0 < i && i + 3 <= |t| {
        assert t[i..i + 3][0] == t[i];
      }
    }
    var u := "c++11";
    assert Lower(u) == u;
    assert WholeWordAt(u, "c++", 0);
  }

  // ---------------------------------------------------------------------------------------------
  // extract_phone: four fixed-shape patterns, each scanned with re.findall.

  /** Pattern elements: \b, \d, a literal character, \s* (greedy). */
  datatype Token = Bound | Digit | Lit(c: char) | Spaces

  function Digits(n: nat): seq<Token> {
    seq(n, _ => Digit)
  }

  /** \b\d{3}-\d{3}-\d{4}\b */
  const PhoneDashed: seq<Token> :=
    [Bound] + Digits(3) + [Lit('-')] + Digits(3) + [Lit('-')] + Digits(4) + [Bound]
  /** \b\(\d{3}\)\s*\d{3}-\d{4}\b */
  const PhoneParen: seq<Token> :=
    [Bound, Lit('(')] + Digits(3) + [Lit(')'), Spaces] + Digits(3) + [Lit('-')] + Digits(4) + [Bound]
  /** \b\d{10}\b */
  const PhonePlain: seq<Token> := [Bound] + Digits(10) + [Bound]
  /** \b\d{3}\.\d{3}\.\d{4}\b */
  const PhoneDotted: seq<Token> :=
    [Bound] + Digits(3) + [Lit('.')] + Digits(3) + [Lit('.')] + Digits(4) + [Bound]

  const PhonePatterns: seq<seq<Token>> := [PhoneDashed, PhoneParen, PhonePlain, PhoneDotted]

  function SkipSpaces(t: string, i: nat): (j: nat)
    requires i <= |t|
    ensures i <= j <= |t|
    ensures forall k | i <= k < j :: IsSpace(t[k])
    ensures j == |t| || !IsSpace(t[j])
    decreases |t| - i
  {
    if i < |t| && IsSpace(t[i]) then SkipSpaces(t, i + 1) else i
  }

  /** Where a match of p starting at i ends, if there is one. Greedy \s* needs no backtracking in
      these patterns: what follows it is always a digit. */
  function MatchAt(p: seq<Token>, t: string, i: nat): (r: Option<nat>)
    requires i <= |t|
    ensures r.Some? ==> i <= r.value <= |t|
    decreases |p|
  {
    if p == [] then Some(i)
    else match p[0]
      case Bound => if Boundary(t, i) then MatchAt(p[1..], t, i) else None
      case Digit => if i < |t| && IsDigit(t[i]) then MatchAt(p[1..], t, i + 1) else None
      case Lit(c) => if i < |t| && t[i] == c then MatchAt(p[1..], t, i + 1) else None
      case Spaces => MatchAt(p[1..], t, SkipSpaces(t, i))
  }

  /** re.findall from position i: matches left to right, resuming after each match. */
  function FindAll(p: seq<Token>, t: string, i: nat): seq<string>
    requires i <= |t|
    decreases |t| - i
  {
    match MatchAt(p, t, i)
    case Some(j) =>
      [t[i..j]] + (if j > i then FindAll(p, t, j) else if i < |t| then FindAll(p, t, i + 1) else [])
    case None =>
      if i < |t| then FindAll(p, t, i + 1) else []
  }

  /** m has the fixed shape of p (the zero-width \b elements put no constraint on m itself). */
  ghost predicate Fits(p: seq<Token>, m: string)
    decreases |p|
  {
    if p == [] then m == []
    else match p[0]
      case Bound => Fits(p[1..], m)
      case Digit => m != [] && IsDigit(m[0]) && Fits(p[1..], m[1..])
      case Lit(c) => m != [] && m[0] == c && Fits(p[1..], m[1..])
      case Spaces =>
        exists k | 0 <= k <= |m| :: (forall l | 0 <= l < k :: IsSpace(m[l])) && Fits(p[1..], m[k..])
  }

  lemma {:induction false} MatchFits(p: seq<Token>, t: string, i: nat)
    requires i <= |t| && MatchAt(p, t, i).Some?
    ensures Fits(p, t[i..MatchAt(p, t, i).value])
    decreases |p|
  {
    var j := MatchAt(p, t, i).value;
    if p != [] {
      match p[0]
      case Bound =>
        MatchFits(p[1..], t, i);
      case Digit =>
        MatchFits(p[1..], t, i + 1);
        CharFit(p, t, i, j);
      case Lit(c) =>
        MatchFits(p[1..], t, i + 1);
        CharFit(p, t, i, j);
      case Spaces =>
        var s := SkipSpaces(t, i);
        MatchFits(p[1..], t, s);
        SpacesFit(p, t, i, s, j);
    }
  }

  /** A digit or literal token matched at t[i] followed by a fit of the rest fits the whole match. */
  lemma CharFit(p: seq<Token>, t: string, i: nat, j: nat)
    requires p != [] && i < j <= |t| && Fits(p[1..], t[i + 1..j])
    requires (p[0] == Digit && IsDigit(t[i])) || (p[0].Lit? && t[i] == p[0].c)
    ensures Fits(p, t[i..j])
  {
    assert t[i..j][1..] == t[i + 1..j];
  }

  /** A run of whitespace t[i..s] followed by a fit of the rest fits a leading \s*. */
  lemma SpacesFit(p: seq<Token>, t: string, i: nat, s: nat, j: nat)
    requires p != [] && p[0] == Spaces && i <= s <= j <= |t|
    requires (forall k | i <= k < s :: IsSpace(t[k])) && Fits(p[1..], t[s..j])
    ensures Fits(p, t[i..j])
  {
    var m := t[i..j];
    assert m[s - i..] == t[s..j];
    assert forall l | 0 <= l < s - i :: IsSpace(m[l]);
  }

  lemma {:induction false} FindAllFits(p: seq<Token>, t: string, i: nat)
    requires i <= |t|
    ensures forall m | m in FindAll(p, t, i) :: Fits(p, m)
    decreases |t| - i
  {
    match MatchAt(p, t, i)
    case Some(j) =>
      MatchFits(p, t, i);
      if j > i { FindAllFits(p, t, j); } else if i < |t| { FindAllFits(p, t, i + 1); }
    case None =>
      if i < |t| { FindAllFits(p, t, i + 1); }
  }

  /** \b\( can only hold after a word character: a parenthesised number at the start of the text
      or after a space is not matched. */
  lemma ParenNeedsWordCharBefore(t: string, i: nat)
    requires i <= |t| && MatchAt(PhoneParen, t, i).Some?
    ensures 0 < i && IsWordChar(t[i - 1])
  {
    assert PhoneParen[0] == Bound && PhoneParen[1..][0] == Lit('(');
  }

  /** The findall results of the patterns, concatenated in pattern order. */
  function PhoneMatches(text: string, patterns: seq<seq<Token>>): seq<string> {
    if patterns == [] then []
    else PhoneMatches(text, patterns[..|patterns| - 1]) + FindAll(patterns[|patterns| - 1], text, 0)
  }

  lemma PhoneMatchesUnfold(text: string)
    ensures PhoneMatches(text, PhonePatterns)
         == FindAll(PhoneDashed, text, 0) + FindAll(PhoneParen, text, 0)
            + FindAll(PhonePlain, text, 0) + FindAll(PhoneDotted, text, 0)
  {
    var ps := PhonePatterns;
    assert ps[..1][..0] == [] && ps[..1][0] == PhoneDashed;
    assert PhoneMatches(text, ps[..1]) == FindAll(PhoneDashed, text, 0);
    assert ps[..2][..1] == ps[..1] && ps[..2][1] == PhoneParen;
    assert PhoneMatches(text, ps[..2]) == PhoneMatches(text, ps[..1]) + FindAll(PhoneParen, text, 0);
    assert ps[..3][..2] == ps[..2] && ps[..3][2] == PhonePlain;
    assert PhoneMatches(text, ps[..3]) == PhoneMatches(text, ps[..2]) + FindAll(PhonePlain, text, 0);
    assert ps[..4] == ps && ps[3] == PhoneDotted;
    assert PhoneMatches(text, ps) == PhoneMatches(text, ps[..3]) + FindAll(PhoneDotted, text, 0);
  }

  method ExtractPhone(text: string) returns (phones: seq<string>)
    ensures phones == FindAll(PhoneDashed, text, 0) + FindAll(PhoneParen, text, 0)
                      + FindAll(PhonePlain, text, 0) + FindAll(PhoneDotted, text, 0)
    ensures forall m | m in phones :: exists p | p in PhonePatterns :: Fits(p, m)
  {
    phones := [];
    for k := 0 to |PhonePatterns|
      invariant phones == PhoneMatches(text, PhonePatterns[..k])
    {
      assert PhonePatterns[..k + 1][..k] == PhonePatterns[..k];
      phones := phones + FindAll(PhonePatterns[k], text, 0);
    }
    assert PhonePatterns[..4] == PhonePatterns;
    PhoneMatchesUnfold(text);
    FindAllFits(PhoneDashed, text, 0);
    FindAllFits(PhoneParen, text, 0);
    FindAllFits(PhonePlain, text, 0);
    FindAllFits(PhoneDotted, text, 0);
    assert PhonePatterns[0] == PhoneDashed && PhonePatterns[1] == PhoneParen;
    assert PhonePatterns[2] == PhonePlain && PhonePatterns[3] == PhoneDotted;
    forall m | m in phones ensures exists p | p in PhonePatterns :: Fits(p, m) {
      if m in FindAll(PhoneDashed, text, 0) {
        assert Fits(PhoneDashed, m);
      } else if m in FindAll(PhoneParen, text, 0) {
        assert Fits(PhoneParen, m);
      } else if m in FindAll(PhonePlain, text, 0) {
        assert Fits(PhonePlain, m);
      } else {
        assert Fits(PhoneDotted, m);
      }
    }
  }

  // ---------------------------------------------------------------------------------------------
  // extract_education over a given sentence sequence.

  const EducationKeywords: seq<string> := [
    "bachelor", "master", "phd", "doctorate", "degree", "university",
    "college", "institute", "school", "bsc", "msc", "ba", "ma",
    "btech", "mtech", "mba", "graduation", "undergraduate", "postgraduate"
  ]

  predicate KeywordHit(text: string, sentence: string, keyword: string) {
    Contains(Lower(text), keyword) && Contains(Lower(sentence), keyword)
  }

  predicate MentionsAny(text: string, sentence: string, keywords: seq<string>) {
    exists k | k in keywords :: KeywordHit(text, sentence, k)
  }

  /** The stripped sentences that mention the keyword, in sentence order. */
  function SentencesMentioning(sentences: seq<string>, keyword: string): (r: seq<string>)
    ensures forall e :: e in r <==> exists s | s in sentences :: Contains(Lower(s), keyword) && e == Strip(s)
  {
    if sentences == [] then []
    else
      var init := sentences[..|sentences| - 1];
      var last := sentences[|sentences| - 1];
      assert forall s :: s in sentences <==> s in init || s == last;
      SentencesMentioning(init, keyword) + (if Contains(Lower(last), keyword) then [Strip(last)] else [])
  }

  /** What extract_education collects before deduplication: keyword by keyword (skipping keywords
      absent from the whole text), the stripped sentences mentioning it. */
  function EducationHits(text: string, sentences: seq<string>, keywords: seq<string>): (r: seq<string>)
    ensures forall e :: e in r <==> exists s | s in sentences :: MentionsAny(text, s, keywords) && e == Strip(s)
  {
    if keywords == [] then []
    else
      var init := keywords[..|keywords| - 1];
      var k := keywords[|keywords| - 1];
      var r := EducationHits(text, sentences, init)
        + (if Contains(Lower(text), k) then SentencesMentioning(sentences, k) else []);
      EducationHitsStep(text, sentences, keywords, EducationHits(text, sentences, init), r);
      r
  }

  lemma EducationHitsStep(text: string, sentences: seq<string>, keywords: seq<string>,
                          prev: seq<string>, r: seq<string>)
    requires keywords != []
    requires forall e :: e in prev <==>
      exists s | s in sentences :: MentionsAny(text, s, keywords[..|keywords| - 1]) && e == Strip(s)
    requires var k := keywords[|keywords| - 1];
      r == prev + (if Contains(Lower(text), k) then SentencesMentioning(sentences, k) else [])
    ensures forall e :: e in r <==> exists s | s in sentences :: MentionsAny(text, s, keywords) && e == Strip(s)
  {
    var init := keywords[..|keywords| - 1];
    var k := keywords[|keywords| - 1];
    forall s ensures MentionsAny(text, s, keywords) <==> MentionsAny(text, s, init) || KeywordHit(text, s, k) {
      if MentionsAny(text, s, keywords) {
        var x :| x in keywords && KeywordHit(text, s, x);
        if x != k {
          var i :| 0 <= i < |keywords| && keywords[i] == x;
          assert x in init;
        }
      }
      if MentionsAny(text, s, init) {
        var x :| x in init && KeywordHit(text, s, x);
        assert x in keywords;
      }
      assert k in keywords;
    }
  }

  /** One more keyword adds the sentences mentioning it, when the text mentions it at all. */
  lemma EducationHitsSnoc(text: string, sentences: seq<string>, keywords: seq<string>, keyword: string)
    ensures EducationHits(text, sentences, keywords + [keyword])
      == EducationHits(text, sentences, keywords)
         + (if Contains(Lower(text), keyword) then SentencesMentioning(sentences, keyword) else [])
  {
    assert (keywords + [keyword])[..|keywords|] == keywords;
  }

  /** The inner loop of extract_education: the stripped sentences mentioning one keyword. */
  method MentioningSentences(sentences: seq<string>, keyword: string) returns (hits: seq<string>)
    ensures hits == SentencesMentioning(sentences, keyword)
  {
    hits := [];
    for j := 0 to |sentences|
      invariant hits == SentencesMentioning(sentences[..j], keyword)
    {
      assert sentences[..j + 1][..j] == sentences[..j];
      if Contains(Lower(sentences[j]), keyword) {
        hits := hits + [Strip(sentences[j])];
      }
    }
    assert sentences[..|sentences|] == sentences;
  }

  method ExtractEducation(text: string, sentences: seq<string>) returns (education: seq<string>)
    ensures education == Dedup(EducationHits(text, sentences, EducationKeywords))
    ensures NoDuplicates(education)
    ensures forall e :: e in education <==>
      exists s | s in sentences :: MentionsAny(text, s, EducationKeywords) && e == Strip(s)
  {
    var textLower := Lower(text);
    var info: seq<string> := [];
    for i := 0 to |EducationKeywords|
      invariant info == EducationHits(text, sentences, EducationKeywords[..i])
    {
      var keyword := EducationKeywords[i];
      assert EducationKeywords[..i + 1] == EducationKeywords[..i] + [keyword];
      EducationHitsSnoc(text, sentences, EducationKeywords[..i], keyword);
      if Contains(textLower, keyword) {
        var hits := MentioningSentences(sentences, keyword);
        info := info + hits;
      }
    }
    assert EducationKeywords[..|EducationKeywords|] == EducationKeywords;
    education := Dedup(info);
  }

  // ---------------------------------------------------------------------------------------------
  // extract_experience_years: the integers captured by the three patterns (one list per pattern).

  /** max(xs) if xs else 0, over non-negative integers. */
  function MaxOr0(xs: seq<nat>): (m: nat)
    ensures forall x | x in xs :: x <= m
    ensures xs == [] ==> m == 0
    ensures xs != [] ==> m in xs
  {
    if xs == [] then 0
    else
      var m := MaxOr0(xs[..|xs| - 1]);
      assert forall x | x in xs :: x in xs[..|xs| - 1] || x == xs[|xs| - 1];
      if xs[|xs| - 1] > m then xs[|xs| - 1] else m
  }

  method ExtractExperienceYears(captures: seq<seq<nat>>) returns (years: nat)
    ensures years == MaxOr0(Flatten(captures))
    ensures forall p, c | 0 <= p < |captures| && c in captures[p] :: c <= years
    ensures years == 0 || exists p | 0 <= p < |captures| :: years in captures[p]
  {
    var all: seq<nat> := [];
    for p := 0 to |captures|
      invariant all == Flatten(captures[..p])
    {
      assert captures[..p + 1][..p] == captures[..p];
      all := all + captures[p];
    }
    assert captures[..|captures|] == captures;
    years := 0;
    for k := 0 to |all|
      invariant years == MaxOr0(all[..k])
    {
      assert all[..k + 1][..k] == all[..k];
      if all[k] > years {
        years := all[k];
      }
    }
    assert all[..|all|] == all;
    forall p, c | 0 <= p < |captures| && c in captures[p] ensures c <= years {
      assert c in all;
    }
  }

  // ---------------------------------------------------------------------------------------------
  // get_text_statistics over given tokens and sentences.

  datatype TextStats = TextStats(
    wordCount: nat,
    sentenceCount: nat,
    characterCount: nat,
    avgWordsPerSentence: real,
    uniqueWords: nat)

  predicate IsAlpha(w: string) {
    w != [] && forall i | 0 <= i < |w| :: IsLetter(w[i])
  }

  /** set(word.lower() for word in words if word.isalpha()) */
  function AlphaVocabulary(words: seq<string>): set<string> {
    set w | w in words && IsAlpha(w) :: Lower(w)
  }

  /** There are never more distinct vocabulary words than tokens. */
  lemma {:induction false} AlphaVocabularyBound(words: seq<string>)
    ensures |AlphaVocabulary(words)| <= |words|
  {
    if words != [] {
      var init := words[..|words| - 1];
      AlphaVocabularyBound(init);
      var b := AlphaVocabulary(init) + {Lower(words[|words| - 1])};
      assert AlphaVocabulary(words) <= b;
      SubsetCard(AlphaVocabulary(words), b);
    }
  }

  function GetTextStatistics(text: string, words: seq<string>, sentences: seq<string>): (r: Option<TextStats>)
    ensures r.None? <==> text == ""
    ensures r.Some? ==> r.value.wordCount == |words| && r.value.sentenceCount == |sentences|
    ensures r.Some? ==> r.value.uniqueWords <= r.value.wordCount
    ensures r.Some? && |sentences| > 0 ==> r.value.avgWordsPerSentence * (|sentences| as real) == |words| as real
    ensures r.Some? && |sentences| == 0 ==> r.value.avgWordsPerSentence == 0.0
  {
    if text == "" then None
    else
      AlphaVocabularyBound(words);
      Some(TextStats(
        |words|,
        |sentences|,
        |text|,
        if |sentences| > 0 then (|words| as real) / (|sentences| as real) else 0.0,
        |AlphaVocabulary(words)|))
  }
}
