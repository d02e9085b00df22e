/** The resume structuring of models/resume_parser.py: the line-driven section segmenter, the
    merge of primary and manually extracted fields, the normaliser of parsed fields and the
    summary. pyresparser, spaCy and the e-mail regex sit behind parameters. */
module ResumeParser {
  import opened Strings
  import opened Seqs
  import TextProcessing
  import Config

  // ---------------------------------------------------------------------------------------------
  // Section segmentation.

  /** The section dictionary's keys, in its declaration order (which is also the order in which
      header patterns are tried). */
  const SectionNames: seq<string> := [
    "objective", "summary", "experience", "education",
    "skills", "projects", "certifications", "achievements"
  ]

  const SectionKeys: set<string> := set x | x in SectionNames

  /** Each section's header pattern as alternatives, each alternative a list of words that the
      pattern separates by \s+. A trailing optional "s" (certifications?, awards?) is dropped:
      an unanchored search finds the singular exactly when it finds the plural form. */
  const HeaderPatterns: seq<seq<seq<string>>> := [
    [["objective"], ["career", "objective"], ["professional", "objective"]],
    [["summary"], ["professional", "summary"], ["profile"], ["about"]],
    [["experience"], ["work", "experience"], ["employment"], ["professional", "experience"]],
    [["education"], ["academic"], ["qualification"], ["academics"]],
    [["skills"], ["technical", "skills"], ["core", "competencies"], ["expertise"]],
    [["projects"], ["personal", "projects"], ["academic", "projects"]],
    [["certification"], ["certificate"], ["training"]],
    [["achievement"], ["accomplishment"], ["award"], ["honor"]]
  ]

  /** The words occur from position i on, consecutive words separated by one or more whitespace
      characters. Greedy \s+ needs no backtracking: every word starts with a letter. */
  predicate PhraseAt(t: string, words: seq<string>, i: nat)
    requires i <= |t|
    decreases |words|
  {
    if words == [] then true
    else
      && OccursAt(t, words[0], i)
      && (|words| == 1 ||
          var j := i + |words[0]|;
          j < |t| && IsSpace(t[j]) && PhraseAt(t, words[1..], TextProcessing.SkipSpaces(t, j)))
  }

  /** re.search of a case-insensitive header pattern: some alternative occurs anywhere in the line. */
  predicate MatchesHeader(line: string, alternatives: seq<seq<string>>) {
    exists a, i | a in alternatives && 0 <= i <= |line| :: PhraseAt(Lower(line), a, i)
  }

  /** The first section, from index k on, whose header pattern matches the line. */
  function FirstHeaderFrom(line: string, k: nat): (r: Option<nat>)
    requires k <= |SectionNames|
    ensures r.Some? ==> k <= r.value < |SectionNames| && MatchesHeader(line, HeaderPatterns[r.value])
    ensures forall j | k <= j < (if r.Some? then r.value else |SectionNames|) ::
      !MatchesHeader(line, HeaderPatterns[j])
    decreases |SectionNames| - k
  {
    if k == |SectionNames| then None
    else if MatchesHeader(line, HeaderPatterns[k]) then Some(k)
    else FirstHeaderFrom(line, k + 1)
  }

  /** The section a (stripped) line announces, if it is a header line. */
  function HeaderSection(line: string): (r: Option<string>)
    ensures r.Some? ==> r.value in SectionKeys
  {
    match FirstHeaderFrom(line, 0)
    case None => None
    case Some(k) => Some(SectionNames[k])
  }

  /** The cursor after the given lines, starting from `start`: the section of the last header line,
      or `start` when there is none. */
  function Cursor(start: Option<string>, lines: seq<string>): Option<string> {
    if lines == [] then start
    else
      var l := Strip(lines[|lines| - 1]);
      if l != "" && HeaderSection(l).Some? then HeaderSection(l)
      else Cursor(start, lines[..|lines| - 1])
  }

  /** What the lines append to section x: every stripped, non-blank, non-header line whose
      cursor is x, each followed by one space. */
  function Body(start: Option<string>, lines: seq<string>, x: string): string {
    if lines == [] then ""
    else
      var init := lines[..|lines| - 1];
      var l := Strip(lines[|lines| - 1]);
      Body(start, init, x)
      + (if l != "" && HeaderSection(l).None? && Cursor(start, init) == Some(x) then l + " " else "")
  }

  /** The section segmenter: the text is cut at newlines and the lines are segmented. */
  method ExtractResumeSections(text: string) returns (sections: map<string, string>)
    ensures sections.Keys == SectionKeys
    ensures forall x | x in sections :: sections[x] == Strip(Body(None, Split(text, '\n'), x))
  {
    var lines := Split(text, '\n');
    sections := SegmentLines(lines);
  }

  /** The segmenter's loop over the lines, followed by the stripping pass. */
  method SegmentLines(lines: seq<string>) returns (sections: map<string, string>)
    ensures sections.Keys == SectionKeys
    ensures forall x | x in sections :: sections[x] == Strip(Body(None, lines, x))
  {
    sections := map x | x in SectionKeys :: "";
    var current: Option<string> := None;
    for i := 0 to |lines|
      invariant current == Cursor(None, lines[..i])
      invariant sections.Keys == SectionKeys
      invariant forall x | x in sections :: sections[x] == Body(None, lines[..i], x)
    {
      CursorStep(lines, i);
      SectionsStep(lines, i, sections, current);
      sections, current := SegmentLine(sections, current, Strip(lines[i]));
    }
    TakeAll(lines);
    sections := StripSections(sections);
  }

  /** The loop body of the segmenter on one stripped line: a header line moves the cursor, any
      other non-blank line is appended to the current section. */
  method SegmentLine(sections: map<string, string>, current: Option<string>, line: string)
    returns (sections': map<string, string>, current': Option<string>)
    ensures sections' == AppendLine(sections, current, line)
    ensures current' == if line != "" && HeaderSection(line).Some? then HeaderSection(line) else current
  {
    sections', current' := sections, current;
    if line != "" {
      var header := FindHeader(line);
      if header.Some? {
        current' := header;
      } else if current.Some? && current.value in sections {
        sections' := sections[current.value := sections[current.value] + line + " "];
      }
    }
  }

  /** The section dictionary after one stripped line: a non-blank, non-header line is appended,
      followed by a space, to the current section. */
  function AppendLine(sections: map<string, string>, cursor: Option<string>, line: string): map<string, string> {
    if line != "" && HeaderSection(line).None? && cursor.Some? && cursor.value in sections
    then sections[cursor.value := sections[cursor.value] + line + " "]
    else sections
  }

  /** Appending one line keeps every section equal to its body over the lines read so far. */
  lemma SectionsStep(lines: seq<string>, i: nat, before: map<string, string>, cursor: Option<string>)
    requires i < |lines|
    requires forall x | x in before :: before[x] == Body(None, lines[..i], x)
    requires cursor == Cursor(None, lines[..i])
    ensures AppendLine(before, cursor, Strip(lines[i])).Keys == before.Keys
    ensures forall x | x in before :: AppendLine(before, cursor, Strip(lines[i]))[x] == Body(None, lines[..i + 1], x)
  {
    forall x | x in before ensures AppendLine(before, cursor, Strip(lines[i]))[x] == Body(None, lines[..i + 1], x) {
      BodyStep(lines, i, x);
      AppendLineAt(before, cursor, Strip(lines[i]), x);
    }
  }

  /** One section after one line: the line, followed by a space, when it is appended there. */
  lemma AppendLineAt(before: map<string, string>, cursor: Option<string>, l: string, x: string)
    requires x in before
    ensures AppendLine(before, cursor, l)[x]
      == before[x] + (if l != "" && HeaderSection(l).None? && cursor == Some(x) then l + " " else "")
  {
  }

  /** One line of the segmenter moves the cursor exactly when it is a header line. */
  lemma CursorStep(lines: seq<string>, i: nat)
    requires i < |lines|
    ensures var l := Strip(lines[i]);
      Cursor(None, lines[..i + 1])
        == if l != "" && HeaderSection(l).Some? then HeaderSection(l) else Cursor(None, lines[..i])
  {
    var all := lines[..i + 1];
    assert all[..|all| - 1] == lines[..i] && all[|all| - 1] == lines[i];
  }

  /** One line of the segmenter: a blank line changes nothing, a header line moves the cursor, any
      other line is appended, stripped and followed by a space, to the current section. */
  lemma BodyStep(lines: seq<string>, i: nat, x: string)
    requires i < |lines|
    ensures var l := Strip(lines[i]);
      Body(None, lines[..i + 1], x)
        == Body(None, lines[..i], x)
           + (if l != "" && HeaderSection(l).None? && Cursor(None, lines[..i]) == Some(x) then l + " " else "")
  {
    var all := lines[..i + 1];
    assert all[..|all| - 1] == lines[..i] && all[|all| - 1] == lines[i];
  }

  /** The clean-up pass of the segmenter: every section body is stripped in place. */
  method StripSections(raw: map<string, string>) returns (sections: map<string, string>)
    ensures sections.Keys == raw.Keys
    ensures forall x | x in sections :: sections[x] == Strip(raw[x])
  {
    sections := raw;
    var todo := sections.Keys;
    while todo != {}
      invariant todo <= sections.Keys == raw.Keys
      invariant forall x | x in sections :: sections[x] == if x in todo then raw[x] else Strip(raw[x])
      decreases todo
    {
      var name :| name in todo;
      sections := sections[name := Strip(sections[name])];
      todo := todo - {name};
    }
  }

  /** The header test of the segmenter: patterns are tried in order and the first match wins. */
  method FindHeader(line: string) returns (header: Option<string>)
    ensures header == HeaderSection(line)
  {
    var k := 0;
    while k < |HeaderPatterns| && !MatchesHeader(line, HeaderPatterns[k])
      invariant 0 <= k <= |HeaderPatterns|
      invariant FirstHeaderFrom(line, k) == FirstHeaderFrom(line, 0)
    {
      k := k + 1;
    }
    header := if k < |HeaderPatterns| then Some(SectionNames[k]) else None;
  }

  lemma {:induction false} CursorConcat(start: Option<string>, a: seq<string>, b: seq<string>)
    ensures Cursor(start, a + b) == Cursor(Cursor(start, a), b)
    decreases |b|
  {
    if b == [] {
      assert a + b == a;
    } else {
      assert (a + b)[..|a + b| - 1] == a + b[..|b| - 1];
      CursorConcat(start, a, b[..|b| - 1]);
    }
  }

  /** Segmentation is a left fold: the lines after a prefix are segmented from the prefix's cursor. */
  lemma {:induction false} BodyConcat(start: Option<string>, a: seq<string>, b: seq<string>, x: string)
    ensures Body(start, a + b, x) == Body(start, a, x) + Body(Cursor(start, a), b, x)
    decreases |b|
  {
    if b == [] {
      assert a + b == a;
    } else {
      var init := b[..|b| - 1];
      var l := Strip(b[|b| - 1]);
      assert (a + b)[..|a + b| - 1] == a + init && (a + b)[|a + b| - 1] == b[|b| - 1];
      BodyConcat(start, a, init, x);
      CursorConcat(start, a, init);
      var piece := if l != "" && HeaderSection(l).None? && Cursor(start, a + init) == Some(x) then l + " " else "";
      assert Body(start, a + b, x) == Body(start, a + init, x) + piece;
      assert Body(Cursor(start, a), b, x) == Body(Cursor(start, a), init, x) + piece;
      AppendAssoc(Body(start, a, x), Body(Cursor(start, a), init, x), piece);
    }
  }

  /** Lines before the first header line contribute to no section. */
  lemma {:induction false} PreambleDropped(pre: seq<string>, post: seq<string>, x: string)
    requires forall l | l in pre :: Strip(l) == "" || HeaderSection(Strip(l)).None?
    ensures Cursor(None, pre + post) == Cursor(None, post)
    ensures Body(None, pre + post, x) == Body(None, post, x)
  {
    PreambleEmpty(pre, x);
    CursorConcat(None, pre, post);
    BodyConcat(None, pre, post, x);
  }

  lemma {:induction false} PreambleEmpty(pre: seq<string>, x: string)
    requires forall l | l in pre :: Strip(l) == "" || HeaderSection(Strip(l)).None?
    ensures Cursor(None, pre) == None && Body(None, pre, x) == ""
    decreases |pre|
  {
    if pre != [] {
      assert pre[|pre| - 1] in pre;
      PreambleEmpty(pre[..|pre| - 1], x);
    }
  }

  /** A header line moves the cursor to its section and is appended to no section. */
  lemma HeaderLineSwitches(start: Option<string>, lines: seq<string>, l: string, x: string)
    requires Strip(l) != "" && HeaderSection(Strip(l)).Some?
    ensures Cursor(start, lines + [l]) == HeaderSection(Strip(l))
    ensures Body(start, lines + [l], x) == Body(start, lines, x)
  {
    var all := lines + [l];
    assert all[..|all| - 1] == lines && all[|all| - 1] == l;
  }

  /** A blank line changes nothing; any other non-header line goes to the current section only. */
  lemma ContentLineAppends(start: Option<string>, lines: seq<string>, l: string, x: string)
    requires Strip(l) == "" || HeaderSection(Strip(l)).None?
    ensures Cursor(start, lines + [l]) == Cursor(start, lines)
    ensures Body(start, lines + [l], x)
         == Body(start, lines, x) + (if Strip(l) != "" && Cursor(start, lines) == Some(x) then Strip(l) + " " else "")
  {
    assert (lines + [l])[..|lines|] == lines;
  }

  lemma {:induction false} PhraseWordsOccur(t: string, words: seq<string>, i: nat)
    requires i <= |t| && PhraseAt(t, words, i)
    ensures forall w | w in words :: Contains(t, w)
    decreases |words|
  {
    if words != [] {
      assert OccursAt(t, words[0], i);
      if |words| > 1 {
        PhraseWordsOccur(t, words[1..], TextProcessing.SkipSpaces(t, i + |words[0]|));
        assert forall w | w in words :: w == words[0] || w in words[1..];
      }
    }
  }

  /** A word that holds a character the text lacks occurs nowhere in it. */
  lemma AbsentChar(t: string, w: string, c: char)
    requires c in w && c !in t
    ensures !Contains(t, w)
  {
  }

  lemma NoAlternative(t: string, alternatives: seq<seq<string>>, w: seq<string>, c: seq<char>)
    requires |w| == |alternatives| == |c|
    requires forall n | 0 <= n < |alternatives| :: w[n] in alternatives[n] && c[n] in w[n] && c[n] !in Lower(t)
    ensures !MatchesHeader(t, alternatives)
  {
    if MatchesHeader(t, alternatives) {
      var a, i :| a in alternatives && 0 <= i <= |t| && PhraseAt(Lower(t), a, i);
      var n :| 0 <= n < |alternatives| && alternatives[n] == a;
      PhraseWordsOccur(Lower(t), a, i);
      AbsentChar(Lower(t), w[n], c[n]);
    }
  }

  /** Header patterns match anywhere in a line: "Academic Projects" opens the education section,
      not the projects section, because "academic" is an education header tried first. */
  lemma AcademicProjectsIsEducation()
    ensures HeaderSection("Academic Projects") == Some("education")
  {
    AcademicProjectsMissesFirstThree();
    AcademicProjectsMatchesEducation();
  }

  lemma AcademicProjectsMissesFirstThree()
    ensures !MatchesHeader("Academic Projects", HeaderPatterns[0])
    ensures !MatchesHeader("Academic Projects", HeaderPatterns[1])
    ensures !MatchesHeader("Academic Projects", HeaderPatterns[2])
  {
    AcademicProjectsLower();
    NoAlternative("Academic Projects", HeaderPatterns[0], ["objective", "objective", "objective"], ['b', 'b', 'b']);
    AcademicProjectsNotSummary();
    AcademicProjectsNotExperience();
  }

  lemma AcademicProjectsNotSummary()
    ensures !MatchesHeader("Academic Projects", HeaderPatterns[1])
  {
    AcademicProjectsLower();
    NoAlternative("Academic Projects", HeaderPatterns[1], ["summary", "summary", "profile", "about"], ['u', 'u', 'f', 'b']);
  }

  lemma AcademicProjectsNotExperience()
    ensures !MatchesHeader("Academic Projects", HeaderPatterns[2])
  {
    AcademicProjectsLower();
    NoAlternative("Academic Projects", HeaderPatterns[2], ["experience", "experience", "employment", "experience"], ['x', 'x', 'l', 'x']);
  }

  lemma AcademicProjectsLower()
    ensures Lower("Academic Projects") == "academic projects"
  {
  }

  lemma AcademicProjectsMatchesEducation()
    ensures MatchesHeader("Academic Projects", HeaderPatterns[3])
  {
    var lt := Lower("Academic Projects");
    AcademicProjectsLower();
    assert OccursAt(lt, "academic", 0);
    assert PhraseAt(lt, ["academic"], 0);
  }

  /** Any line mentioning "experience", body text included, switches the cursor to the experience
      section unless an objective or summary pattern matches it first. */
  lemma ExperienceMentionSwitches(line: string)
    requires Contains(Lower(line), "experience")
    requires !MatchesHeader(line, HeaderPatterns[0]) && !MatchesHeader(line, HeaderPatterns[1])
    ensures HeaderSection(line) == Some("experience")
  {
    var i :| 0 <= i <= |Lower(line)| && OccursAt(Lower(line), "experience", i);
    assert PhraseAt(Lower(line), ["experience"], i);
    assert MatchesHeader(line, HeaderPatterns[2]);
  }

  // ---------------------------------------------------------------------------------------------
  // Parsed-data dictionaries.

  /** A value of the parsed-data dictionary. Integer and floating fields are both `Num`. A
      sections dictionary keeps its keys in insertion order beside the bodies. */
  datatype Value =
    | Null
    | Str(s: string)
    | Num(x: real)
    | Strs(items: seq<string>)
    | Entities(groups: map<string, seq<string>>)
    | Sections(keys: seq<string>, bodies: map<string, string>)

  /** Python truthiness. */
  predicate Truthy(v: Value) {
    match v
    case Null => false
    case Str(s) => s != ""
    case Num(x) => x != 0.0
    case Strs(items) => items != []
    case Entities(groups) => groups != map[]
    case Sections(keys, _) => keys != []
  }

  /** dict.get(key, default) */
  function Get(d: map<string, Value>, key: string, default: Value): Value {
    if key in d then d[key] else default
  }

  /** The dictionary the merge loop of parse_resume produces. */
  function Merged(primary: map<string, Value>, manual: map<string, Value>): map<string, Value> {
    map k | k in primary.Keys + manual.Keys ::
      if k in manual && (k !in primary || !Truthy(primary[k])) then manual[k] else primary[k]
  }

  method MergeParsedData(primary: map<string, Value>, manual: map<string, Value>) returns (merged: map<string, Value>)
    ensures merged == Merged(primary, manual)
    ensures merged.Keys == primary.Keys + manual.Keys
    ensures forall k | k in primary && Truthy(primary[k]) :: merged[k] == primary[k]
    ensures forall k | k in manual && (k !in primary || !Truthy(primary[k])) :: merged[k] == manual[k]
  {
    merged := primary;
    var todo := manual.Keys;
    while todo != {}
      invariant todo <= manual.Keys
      invariant merged.Keys == primary.Keys + (manual.Keys - todo)
      invariant forall k | k in merged ::
        merged[k] == if k in manual && k !in todo then Merged(primary, manual)[k] else primary[k]
      decreases todo
    {
      var key :| key in todo;
      if key !in merged || !Truthy(merged[key]) {
        merged := merged[key := manual[key]];
      }
      todo := todo - {key};
    }
  }

  /** A key is truthy after the merge exactly when it is truthy in either input: the merge loses
      no information. */
  lemma MergeKeepsTruthy(primary: map<string, Value>, manual: map<string, Value>, k: string)
    requires k in primary.Keys + manual.Keys
    ensures Truthy(Merged(primary, manual)[k])
        <==> (k in primary && Truthy(primary[k])) || (k in manual && Truthy(manual[k]))
  {
  }

  /** Merging the same fallback twice changes nothing more. */
  lemma MergeIdempotent(primary: map<string, Value>, manual: map<string, Value>)
    ensures Merged(Merged(primary, manual), manual) == Merged(primary, manual)
  {
    var m := Merged(primary, manual);
    assert forall k | k in m :: k in primary.Keys + manual.Keys;
    assert Merged(m, manual).Keys == m.Keys;
  }

  // ---------------------------------------------------------------------------------------------
  // clean_parsed_data.

  /** A string becomes a one-element list, or the empty list when empty; other values pass. */
  function AsList(v: Value): (r: Value)
    ensures !v.Str? ==> r == v
    ensures v.Str? ==> r.Strs? && |r.items| <= 1 && forall e :: e in r.items <==> e == v.s && e != ""
  {
    match v
    case Str(s) => Strs(if s != "" then [s] else [])
    case _ => v
  }

  lemma AsListIdempotent(v: Value)
    ensures AsList(AsList(v)) == AsList(v)
  {
  }

  /** f is the stripped form of some non-blank entry of xs. */
  predicate StrippedEntry(f: string, xs: seq<string>) {
    exists s | s in xs :: f == Strip(s) && f != ""
  }

  /** [x.strip() for x in xs if x.strip()] */
  function StripNonBlank(xs: seq<string>): (r: seq<string>)
    ensures |r| <= |xs|
    ensures forall e | e in r :: e != "" && Trimmed(e)
    ensures forall f :: f in r <==> StrippedEntry(f, xs)
  {
    if xs == [] then []
    else
      var e := Strip(xs[0]);
      var rest := StripNonBlank(xs[1..]);
      StripNonBlankStep(xs, rest);
      (if e != "" then [e] else []) + rest
  }

  lemma StripNonBlankStep(xs: seq<string>, rest: seq<string>)
    requires xs != []
    requires forall f :: f in rest <==> StrippedEntry(f, xs[1..])
    ensures forall f :: f in (if Strip(xs[0]) != "" then [Strip(xs[0])] else []) + rest <==> StrippedEntry(f, xs)
  {
    var e := Strip(xs[0]);
    forall f ensures StrippedEntry(f, xs) <==> (f == e && e != "") || StrippedEntry(f, xs[1..]) {
      if StrippedEntry(f, xs) {
        var s :| s in xs && f == Strip(s) && f != "";
        if s != xs[0] {
          assert s in xs[1..];
        }
      }
      if StrippedEntry(f, xs[1..]) {
        var s :| s in xs[1..] && f == Strip(s) && f != "";
        assert s in xs;
      }
      assert xs[0] in xs;
    }
  }

  /** The list comprehension keeps the input order: it distributes over concatenation. */
  lemma {:induction false} StripNonBlankConcat(a: seq<string>, b: seq<string>)
    ensures StripNonBlank(a + b) == StripNonBlank(a) + StripNonBlank(b)
  {
    if a == [] {
      assert a + b == b;
    } else {
      var e := Strip(a[0]);
      var head := if e != "" then [e] else [];
      assert (a + b)[0] == a[0] && (a + b)[1..] == a[1..] + b;
      assert StripNonBlank(a + b) == head + StripNonBlank(a[1..] + b);
      assert StripNonBlank(a) == head + StripNonBlank(a[1..]);
      StripNonBlankConcat(a[1..], b);
      AppendAssoc(head, StripNonBlank(a[1..]), StripNonBlank(b));
    }
  }

  /** A list value's items, a single string as a one-element list (`skills = [skills]`). */
  function ItemsOf(v: Value): seq<string>
    requires v.Str? || v.Strs?
  {
    if v.Str? then [v.s] else v.items
  }

  /** The phone list after folding in the mobile number. */
  function WithMobile(phone: Value, mobile: Value): (r: Value)
    requires Truthy(mobile) ==> mobile.Str? && phone.Strs?
    ensures !Truthy(mobile) ==> r == phone
    ensures Truthy(mobile) ==> r.Strs? && mobile.s in r.items
    ensures Truthy(mobile) ==>
      |phone.items| <= |r.items| <= |phone.items| + 1 && r.items[..|phone.items|] == phone.items
    ensures Truthy(mobile) && mobile.s in phone.items ==> r == phone
    ensures Truthy(mobile) && mobile.s !in phone.items ==> r == Strs(phone.items + [mobile.s])
    ensures Truthy(mobile) && NoDuplicates(phone.items) ==> NoDuplicates(r.items)
  {
    if Truthy(mobile) && mobile.s !in phone.items then Strs(phone.items + [mobile.s]) else phone
  }

  /** What the source can normalise without raising: a truthy name is a string, the mobile number
      is a string or falsy and then meets a phone value that is a string or list, skills and
      education are a string or a list. */
  predicate WellFormed(data: map<string, Value>) {
    var name := Get(data, "name", Str(""));
    var mobile := Get(data, "mobile_number", Str(""));
    var skills := Get(data, "skills", Strs([]));
    var education := Get(data, "education", Strs([]));
    && (Truthy(name) ==> name.Str?)
    && (Truthy(mobile) ==> mobile.Str? && AsList(Get(data, "phone", Strs([]))).Strs?)
    && (skills.Str? || skills.Strs?)
    && (education.Str? || education.Strs?)
  }

  datatype CleanedResume = CleanedResume(
    name: string,
    email: Value,
    phone: Value,
    skills: seq<string>,
    education: seq<string>,
    experienceYears: Value,
    companies: Value,
    designations: Value,
    sections: Value,
    entities: Value,
    degree: Value,
    noOfPages: Value)

  /** clean_parsed_data. `experienceCaptures` are the integers the three experience patterns
      capture in str(data['experience']), consulted only when the fallback applies. */
  method CleanParsedData(data: map<string, Value>, experienceCaptures: seq<seq<nat>>) returns (cleaned: CleanedResume)
    requires WellFormed(data)
    ensures var name := Get(data, "name", Str(""));
      cleaned.name == if Truthy(name) then Strip(name.s) else ""
    ensures cleaned.email == AsList(Get(data, "email", Strs([])))
    ensures cleaned.phone == WithMobile(AsList(Get(data, "phone", Strs([]))), Get(data, "mobile_number", Str("")))
    ensures cleaned.skills == StripNonBlank(ItemsOf(Get(data, "skills", Strs([]))))
    ensures cleaned.education == StripNonBlank(ItemsOf(Get(data, "education", Strs([]))))
    ensures var years := Get(data, "experience_years", Num(0.0));
      cleaned.experienceYears ==
        if Truthy(Get(data, "experience", Num(0.0))) && !Truthy(years)
        then Num(TextProcessing.MaxOr0(Flatten(experienceCaptures)) as real)
        else years
    ensures cleaned.companies == AsList(Get(data, "companies", Strs([])))
    ensures cleaned.designations == AsList(Get(data, "designation", Strs([])))
    ensures cleaned.sections == Get(data, "sections", Sections([], map[]))
    ensures cleaned.entities == Get(data, "entities", Entities(map[]))
    ensures cleaned.degree == AsList(Get(data, "degree", Strs([])))
    ensures cleaned.noOfPages == Get(data, "no_of_pages", Num(1.0))
  {
    var name := Get(data, "name", Str(""));
    var cleanName := if Truthy(name) then Strip(name.s) else "";
    var email := AsList(Get(data, "email", Strs([])));
    var phone := AsList(Get(data, "phone", Strs([])));
    var mobile := Get(data, "mobile_number", Str(""));
    if Truthy(mobile) && mobile.s !in phone.items {
      phone := Strs(phone.items + [mobile.s]);
    }
    var skills := StripNonBlank(ItemsOf(Get(data, "skills", Strs([]))));
    var education := StripNonBlank(ItemsOf(Get(data, "education", Strs([]))));
    var years := Get(data, "experience_years", Num(0.0));
    if Truthy(Get(data, "experience", Num(0.0))) && !Truthy(years) {
      var extracted := TextProcessing.ExtractExperienceYears(experienceCaptures);
      years := Num(extracted as real);
    }
    cleaned := CleanedResume(
      cleanName, email, phone, skills, education, years,
      AsList(Get(data, "companies", Strs([]))),
      AsList(Get(data, "designation", Strs([]))),
      Get(data, "sections", Sections([], map[])),
      Get(data, "entities", Entities(map[])),
      AsList(Get(data, "degree", Strs([]))),
      Get(data, "no_of_pages", Num(1.0)));
  }

  // ---------------------------------------------------------------------------------------------
  // parse_resume_manual and get_resume_summary.

  const ManualKeys: set<string> :=
    {"name", "email", "phone", "skills", "education", "experience_years", "entities", "sections"}

  /** parse_resume_manual. The e-mail matches, the sentence split, the experience captures and the
      named entities come from outside the model. */
  method ParseResumeManual(text: string, emails: seq<string>, sentences: seq<string>,
                           yearCaptures: seq<seq<nat>>, entities: map<string, seq<string>>)
    returns (parsed: map<string, Value>)
    ensures parsed.Keys == ManualKeys
    ensures "PERSON" in entities && entities["PERSON"] != [] ==> parsed["name"] == Str(entities["PERSON"][0])
    ensures ("PERSON" !in entities || entities["PERSON"] == []) ==> parsed["name"] == Str("")
    ensures parsed["email"] == Strs(emails)
    ensures parsed["phone"] == Strs(TextProcessing.FindAll(TextProcessing.PhoneDashed, text, 0)
      + TextProcessing.FindAll(TextProcessing.PhoneParen, text, 0)
      + TextProcessing.FindAll(TextProcessing.PhonePlain, text, 0)
      + TextProcessing.FindAll(TextProcessing.PhoneDotted, text, 0))
    ensures parsed["skills"].Strs? && NoDuplicates(parsed["skills"].items)
    ensures forall s :: s in parsed["skills"].items <==>
      s in Config.DefaultSkills && TextProcessing.SkillMentioned(text, s)
    ensures parsed["education"]
      == Strs(Dedup(TextProcessing.EducationHits(text, sentences, TextProcessing.EducationKeywords)))
    ensures parsed["experience_years"] == Num(TextProcessing.MaxOr0(Flatten(yearCaptures)) as real)
    ensures parsed["entities"] == Entities(entities)
    ensures parsed["sections"].Sections? && parsed["sections"].keys == SectionNames
    ensures parsed["sections"].bodies.Keys == SectionKeys
    ensures forall x | x in parsed["sections"].bodies ::
      parsed["sections"].bodies[x] == Strip(Body(None, Split(text, '\n'), x))
  {
    var phones := TextProcessing.ExtractPhone(text);
    var skills := TextProcessing.ExtractSkills(text, Config.DefaultSkills);
    var education := TextProcessing.ExtractEducation(text, sentences);
    var years := TextProcessing.ExtractExperienceYears(yearCaptures);
    var name := "";
    if "PERSON" in entities && entities["PERSON"] != [] {
      name := entities["PERSON"][0];
    }
    var sections := ExtractResumeSections(text);
    parsed := ManualRecord(name, emails, phones, skills, education, years, entities, sections);
  }

  /** The dictionary parse_resume_manual returns, one key per extracted field. */
  function ManualRecord(name: string, emails: seq<string>, phones: seq<string>, skills: seq<string>,
                        education: seq<string>, years: nat, entities: map<string, seq<string>>,
                        sections: map<string, string>): (r: map<string, Value>)
    ensures r.Keys == ManualKeys
    ensures r["name"] == Str(name) && r["email"] == Strs(emails) && r["phone"] == Strs(phones)
    ensures r["skills"] == Strs(skills) && r["education"] == Strs(education)
    ensures r["experience_years"] == Num(years as real)
    ensures r["entities"] == Entities(entities) && r["sections"] == Sections(SectionNames, sections)
  {
    map[
      "name" := Str(name),
      "email" := Strs(emails),
      "phone" := Strs(phones),
      "skills" := Strs(skills),
      "education" := Strs(education),
      "experience_years" := Num(years as real),
      "entities" := Entities(entities),
      "sections" := Sections(SectionNames, sections)]
  }

  datatype ResumeSummary = ResumeSummary(
    contactInfoComplete: bool,
    skillsCount: nat,
    educationCount: nat,
    experienceYears: Value,
    companiesCount: nat,
    hasPhone: bool,
    sectionsFound: seq<string>)

  /** len() of a value that has one. */
  function Len(v: Value): nat
    requires !v.Null? && !v.Num?
  {
    match v
    case Str(s) => |s|
    case Strs(items) => |items|
    case Entities(groups) => |groups|
    case Sections(keys, _) => |keys|
  }

  /** get_resume_summary over the normalised data; the source needs `companies` to have a length
      and `sections` to be a dictionary. */
  function GetResumeSummary(parsed: CleanedResume): (r: ResumeSummary)
    requires !parsed.companies.Null? && !parsed.companies.Num? && parsed.sections.Sections?
    ensures r.contactInfoComplete <==> parsed.name != "" && Truthy(parsed.email)
    ensures r.hasPhone <==> Truthy(parsed.phone)
    ensures r.skillsCount == |parsed.skills| && r.educationCount == |parsed.education|
    ensures r.companiesCount == Len(parsed.companies)
    ensures r.sectionsFound == parsed.sections.keys
  {
    ResumeSummary(
      parsed.name != "" && Truthy(parsed.email),
      |parsed.skills|,
      |parsed.education|,
      parsed.experienceYears,
      Len(parsed.companies),
      Truthy(parsed.phone),
      parsed.sections.keys)
  }

  // ---------------------------------------------------------------------------------------------
  // parse_resume: pyresparser's dictionary, completed by the manual parse, then normalised.

  /** The keys of the dictionary parse_resume_with_pyresparser builds. */
  const PyresparserKeys: set<string> := {
    "name", "email", "mobile_number", "skills", "education", "degree",
    "designation", "companies", "experience", "no_of_pages"}

  /** What pyresparser's dictionary holds: its own keys only, a truthy name or mobile number is a
      string, and truthy skills or education are a string or a list. */
  predicate PrimaryShape(primary: map<string, Value>) {
    && primary.Keys <= PyresparserKeys
    && ("name" in primary && Truthy(primary["name"]) ==> primary["name"].Str?)
    && ("mobile_number" in primary && Truthy(primary["mobile_number"]) ==> primary["mobile_number"].Str?)
    && ("skills" in primary && Truthy(primary["skills"]) ==> primary["skills"].Str? || primary["skills"].Strs?)
    && ("education" in primary && Truthy(primary["education"]) ==>
          primary["education"].Str? || primary["education"].Strs?)
  }

  /** parse_resume after the file has been read: `primary` is pyresparser's dictionary (empty when
      it failed), the manual parse fills its absent or falsy keys, and the result is normalised.
      The name is pyresparser's when truthy and otherwise the first PERSON entity; the phones are
      the manual matches with the mobile number folded in; the sections are the segmenter's, and
      the summary lists their eight keys in declaration order. */
  method ParseResume(primary: map<string, Value>, text: string, emails: seq<string>, sentences: seq<string>,
                     yearCaptures: seq<seq<nat>>, entities: map<string, seq<string>>,
                     experienceCaptures: seq<seq<nat>>)
    returns (cleaned: CleanedResume)
    requires PrimaryShape(primary)
    ensures "name" in primary && Truthy(primary["name"]) ==> cleaned.name == Strip(primary["name"].s)
    ensures !("name" in primary && Truthy(primary["name"])) ==>
      cleaned.name == if "PERSON" in entities && entities["PERSON"] != [] then Strip(entities["PERSON"][0]) else ""
    ensures cleaned.phone == WithMobile(Strs(TextProcessing.FindAll(TextProcessing.PhoneDashed, text, 0)
      + TextProcessing.FindAll(TextProcessing.PhoneParen, text, 0)
      + TextProcessing.FindAll(TextProcessing.PhonePlain, text, 0)
      + TextProcessing.FindAll(TextProcessing.PhoneDotted, text, 0)), Get(primary, "mobile_number", Str("")))
    ensures cleaned.sections.Sections? && cleaned.sections.keys == SectionNames
    ensures forall x | x in SectionKeys ::
      x in cleaned.sections.bodies && cleaned.sections.bodies[x] == Strip(Body(None, Split(text, '\n'), x))
    ensures !cleaned.companies.Null? && !cleaned.companies.Num? ==>
      GetResumeSummary(cleaned).sectionsFound == SectionNames
  {
    var manual := ParseResumeManual(text, emails, sentences, yearCaptures, entities);
    var merged := MergeParsedData(primary, manual);
    MergeManual(primary, manual);
    cleaned := CleanParsedData(merged, experienceCaptures);
  }

  /** Merging a manual record into a dictionary of pyresparser's shape: the phones and sections,
      which pyresparser does not report, come from the manual record, the mobile number from
      pyresparser alone, and the result can be normalised. */
  lemma MergeManual(primary: map<string, Value>, manual: map<string, Value>)
    requires PrimaryShape(primary) && manual.Keys == ManualKeys
    requires manual["name"].Str? && manual["phone"].Strs?
    requires manual["skills"].Strs? && manual["education"].Strs?
    ensures var merged := Merged(primary, manual);
      && WellFormed(merged)
      && Get(merged, "name", Str("")) == (if "name" in primary && Truthy(primary["name"]) then primary["name"] else manual["name"])
      && Get(merged, "phone", Strs([])) == manual["phone"]
      && Get(merged, "mobile_number", Str("")) == Get(primary, "mobile_number", Str(""))
      && Get(merged, "sections", Sections([], map[])) == manual["sections"]
  {
    assert "phone" !in primary && "sections" !in primary && "mobile_number" !in manual;
  }

  /** Normalisation drops an entry exactly when it is blank: nothing is lost otherwise. */
  lemma {:induction false} StripNonBlankLength(xs: seq<string>)
    ensures |StripNonBlank(xs)| == |xs| <==> forall s | s in xs :: Strip(s) != ""
  {
    if xs != [] {
      StripNonBlankLength(xs[1..]);
      assert forall s :: s in xs <==> s == xs[0] || s in xs[1..];
    }
  }
}
