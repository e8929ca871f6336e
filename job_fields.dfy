/**
 * The field normalisers of the job aggregator: skills found in a free-text
 * description, the experience requirement read from it, and the salary
 * range formatted in rupees with Indian digit grouping.
 */
module JobFields {
  import opened Wrappers
  import opened Text

  // ---------------------------------------------------------------------
  // Skills

  /** The fixed vocabulary of skills searched for in a description. */
  const CommonSkills: seq<string> := [
    "React", "Node.js", "Python", "JavaScript", "TypeScript", "Java", "AWS", "Docker",
    "Kubernetes", "MongoDB", "PostgreSQL", "Next.js", "Angular", "Vue.js", "Express",
    "Django", "Flask", "Spring Boot", "Git", "CI/CD"
  ]

  predicate NoDuplicates<T(==)>(s: seq<T>) {
    forall i, j :: 0 <= i < j < |s| ==> s[i] != s[j]
  }

  /** a can be obtained from b by deleting elements. */
  predicate IsSubsequence<T(==)>(a: seq<T>, b: seq<T>)
    decreases |b|
  {
    a == [] || (b != [] && ((a[0] == b[0] && IsSubsequence(a[1..], b[1..])) || IsSubsequence(a, b[1..])))
  }

  /**
   * A number that tells the vocabulary terms apart: length * 1000000 plus the
   * code of the first character * 1000 plus the code of the second, so that
   * "React" (length 5, 'R' = 82, 'e' = 101) has the key 5082101. Distinctness of the vocabulary is shown through these keys,
   * so that the solver compares twenty numbers rather than every pair of
   * strings.
   */
  function SkillKey(s: string): int {
    if |s| < 2 then 0 else |s| * 1000000 + (s[0] as int) * 1000 + s[1] as int
  }

  lemma CommonSkillsDistinct()
    ensures NoDuplicates(CommonSkills) && |CommonSkills| == 20
  {
    var keys := SkillKeys();
    forall i, j | 0 <= i < j < |CommonSkills|
      ensures CommonSkills[i] != CommonSkills[j]
    {
      assert KeyRank(keys[i]) == i && KeyRank(keys[j]) == j;
    }
  }

  /**
   * The position in the vocabulary of the term with this key, -1 for a key no
   * term has. Each key is `SkillKey` of the term at that position, read as
   * length, first character code, second character code: 5082101 is "React"
   * (5, 'R', 'e'), 10074097 is "JavaScript" (10, 'J', 'a'), 4074097 is "Java".
   */
  function KeyRank(key: int): int {
    if key == 5082101 then 0 else if key == 7078111 then 1 else if key == 6080121 then 2
    else if key == 10074097 then 3 else if key == 10084121 then 4 else if key == 4074097 then 5
    else if key == 3065087 then 6 else if key == 6068111 then 7 else if key == 10075117 then 8
    else if key == 7077111 then 9 else if key == 10080111 then 10 else if key == 7078101 then 11
    else if key == 7065110 then 12 else if key == 6086117 then 13 else if key == 7069120 then 14
    else if key == 6068106 then 15 else if key == 5070108 then 16 else if key == 11083112 then 17
    else if key == 3071105 then 18 else if key == 5067073 then 19 else -1
  }

  /** The keys of the vocabulary terms, in order; each key gives back its term's position. */
  lemma SkillKeys() returns (keys: seq<int>)
    ensures |keys| == |CommonSkills| == 20
    ensures forall i :: 0 <= i < 20 ==> keys[i] == SkillKey(CommonSkills[i]) && KeyRank(keys[i]) == i
  {
    keys := [
      5082101, 7078111, 6080121, 10074097, 10084121, 4074097, 3065087, 6068111, 10075117, 7077111,
      10080111, 7078101, 7065110, 6086117, 7069120, 6068106, 5070108, 11083112, 3071105, 5067073
    ];
  }

  /** The terms whose lower-case form occurs in text, in the order of terms. */
  function Mentioned(terms: seq<string>, text: string): (kept: seq<string>)
    ensures forall t :: t in kept <==> t in terms && Contains(text, Lower(t))
    ensures IsSubsequence(kept, terms)
    ensures NoDuplicates(terms) ==> NoDuplicates(kept)
    decreases |terms|
  {
    if terms == [] then []
    else if Contains(text, Lower(terms[0])) then [terms[0]] + Mentioned(terms[1..], text)
    else Mentioned(terms[1..], text)
  }

  /** The vocabulary skills mentioned in a description, compared case-insensitively. */
  function ExtractSkills(description: string): (skills: seq<string>)
    ensures forall t :: t in skills <==> t in CommonSkills && Contains(Lower(description), Lower(t))
    ensures IsSubsequence(skills, CommonSkills) && NoDuplicates(skills)
    ensures |skills| <= 20
  {
    CommonSkillsDistinct();
    var skills := Mentioned(CommonSkills, Lower(description));
    SubsequenceLength(skills, CommonSkills);
    skills
  }

  lemma {:induction false} SubsequenceLength<T>(a: seq<T>, b: seq<T>)
    requires IsSubsequence(a, b)
    ensures |a| <= |b|
    decreases |b|
  {
    if a != [] {
      if a[0] == b[0] && IsSubsequence(a[1..], b[1..]) {
        SubsequenceLength(a[1..], b[1..]);
      } else {
        SubsequenceLength(a, b[1..]);
      }
    }
  }

  lemma {:induction false} MentionedNone(terms: seq<string>, text: string)
    requires forall i :: 0 <= i < |terms| ==> !Contains(text, Lower(terms[i]))
    ensures Mentioned(terms, text) == []
    decreases |terms|
  {
    if terms != [] {
      MentionedNone(terms[1..], text);
    }
  }

  /** An empty description names no skill and states no experience, so the default applies. */
  lemma EmptyDescription()
    ensures ExtractSkills("") == []
    ensures ExtractExperience("") == "2+ years"
  {
    NoSkillsInEmptyText();
    NoExperienceInEmptyText();
  }

  lemma NoExperienceInEmptyText()
    ensures ExtractExperience("") == "2+ years"
  {
    assert FirstMatch("", 0) == None;
  }

  lemma NoSkillsInEmptyText()
    ensures ExtractSkills("") == []
  {
    var keys := SkillKeys();
    forall i | 0 <= i < |CommonSkills|
      ensures !Contains(Lower(""), Lower(CommonSkills[i]))
    {
      assert keys[i] != 0;
    }
    MentionedNone(CommonSkills, Lower(""));
  }

  /** The test is a substring test, so a description naming JavaScript also yields Java. */
  lemma JavaScriptImpliesJava(description: string)
    requires "JavaScript" in ExtractSkills(description)
    ensures "Java" in ExtractSkills(description)
  {
    JavaMentioned(description);
    LowerJava();
    JavaInVocabulary();
    SkillReported(description, "Java");
  }

  lemma JavaInVocabulary()
    ensures "Java" in CommonSkills
  {
    assert CommonSkills[5] == "Java";
  }

  lemma JavaMentioned(description: string)
    requires "JavaScript" in ExtractSkills(description)
    ensures Contains(Lower(description), "java")
  {
    SkillFound(description, "JavaScript");
    LowerJava();
    ContainsPrefix(Lower(description), "javascript", "java");
  }

  lemma LowerJava()
    ensures Lower("JavaScript") == "javascript" && Lower("Java") == "java"
  {
  }

  /** A reported skill is a vocabulary term whose lower-case form occurs in the lower-cased description. */
  lemma SkillFound(description: string, t: string)
    requires t in ExtractSkills(description)
    ensures Contains(Lower(description), Lower(t))
  {
  }

  /** A vocabulary term whose lower-case form occurs in the lower-cased description is reported. */
  lemma SkillReported(description: string, t: string)
    requires t in CommonSkills && Contains(Lower(description), Lower(t))
    ensures t in ExtractSkills(description)
  {
  }

  lemma ContainsPrefix(text: string, long: string, short: string)
    requires short <= long && Contains(text, long)
    ensures Contains(text, short)
  {
    var i :| 0 <= i <= |text| - |long| && long <= text[i..];
    assert short <= text[i..];
  }

  // ---------------------------------------------------------------------
  // Experience: the pattern (\d+)\+?\s*years? with the case-insensitive flag

  function DigitRunEnd(s: string, i: nat): (j: nat)
    requires i <= |s|
    ensures i <= j <= |s|
    ensures forall k :: i <= k < j ==> IsDigit(s[k])
    ensures j == |s| || !IsDigit(s[j])
    decreases |s| - i
  {
    if i < |s| && IsDigit(s[i]) then DigitRunEnd(s, i + 1) else i
  }

  function SpaceRunEnd(s: string, k: nat): (m: nat)
    requires k <= |s|
    ensures k <= m <= |s|
    ensures forall t :: k <= t < m ==> IsSpace(s[t])
    ensures m == |s| || !IsSpace(s[m])
    decreases |s| - k
  {
    if k < |s| && IsSpace(s[k]) then SpaceRunEnd(s, k + 1) else k
  }

  /** `\+?\s*year` matches at position j, taking the `+` and the white space greedily. */
  predicate YearsAt(s: string, j: nat)
    requires j <= |s|
  {
    var k := if j < |s| && s[j] == '+' then j + 1 else j;
    var m := SpaceRunEnd(s, k);
    m + 4 <= |s| && Lower(s[m..m + 4]) == "year"
  }

  /** The pattern matches starting at position i, its digit group being the whole digit run from i. */
  predicate MatchesAt(s: string, i: nat) {
    i < |s| && IsDigit(s[i]) && YearsAt(s, DigitRunEnd(s, i))
  }

  /** "year" in any letter case starts at position m. */
  predicate YearWordAt(s: string, m: nat) {
    m + 4 <= |s| && Lower(s[m..m + 4]) == "year"
  }

  /** Every character in [k, m) is white space. */
  predicate SpacesBetween(s: string, k: nat, m: nat)
    requires k <= m <= |s|
  {
    forall t :: k <= t < m ==> IsSpace(s[t])
  }

  /** `\s*year` matches at k: some white space, then "year" in any letter case. */
  ghost predicate YearAfterSpaces(s: string, k: nat) {
    exists m :: k <= m <= |s| && SpacesBetween(s, k, m) && YearWordAt(s, m)
  }

  /**
   * The regular expression can match starting at i with its group spanning
   * [i, j): any split a backtracking matcher may try, not only the greedy one.
   */
  ghost predicate RegexMatch(s: string, i: nat, j: nat) {
    && i < j <= |s|
    && (forall k :: i <= k < j ==> IsDigit(s[k]))
    && (YearAfterSpaces(s, j) || (j < |s| && s[j] == '+' && YearAfterSpaces(s, j + 1)))
  }

  lemma YearAfterSpacesIsGreedy(s: string, k: nat)
    requires k <= |s|
    ensures YearAfterSpaces(s, k) <==> YearWordAt(s, SpaceRunEnd(s, k))
  {
    var m0 := SpaceRunEnd(s, k);
    if YearWordAt(s, m0) {
      assert k <= m0 <= |s| && SpacesBetween(s, k, m0);
    }
    if YearAfterSpaces(s, k) {
      var m :| k <= m <= |s| && SpacesBetween(s, k, m) && YearWordAt(s, m);
      assert LowerChar(s[m]) == 'y' by { assert Lower(s[m..m + 4])[0] == 'y'; }
      assert m == m0;
    }
  }

  /** Nothing of `\s*year` can start at a character that is neither white space nor a y. */
  lemma NoYearAt(s: string, j: nat)
    requires j < |s| && !IsSpace(s[j]) && LowerChar(s[j]) != 'y'
    ensures !YearAfterSpaces(s, j)
  {
    forall m | j <= m <= |s| && SpacesBetween(s, j, m)
      ensures !YearWordAt(s, m)
    {
      assert m == j;
      if m + 4 <= |s| {
        assert Lower(s[m..m + 4])[0] == LowerChar(s[j]);
      }
    }
  }

  /** After the digits, the greedy test of YearsAt agrees with the two ways the regex may go on. */
  lemma YearsAtIsRegexTail(s: string, e: nat)
    requires e <= |s|
    ensures YearsAt(s, e) <==> YearAfterSpaces(s, e) || (e < |s| && s[e] == '+' && YearAfterSpaces(s, e + 1))
  {
    if e < |s| && s[e] == '+' {
      NoYearAt(s, e);
      YearAfterSpacesIsGreedy(s, e + 1);
    } else {
      YearAfterSpacesIsGreedy(s, e);
    }
  }

  /** The greedy match is the only one: the regex matches at i exactly when MatchesAt says so, and its group is the whole digit run. */
  lemma RegexMatchCharacterized(s: string)
    ensures forall i: nat, j: nat :: RegexMatch(s, i, j) <==> MatchesAt(s, i) && j == DigitRunEnd(s, i)
  {
    forall i: nat, j: nat
      ensures RegexMatch(s, i, j) <==> MatchesAt(s, i) && j == DigitRunEnd(s, i)
    {
      if i < |s| && IsDigit(s[i]) {
        var e := DigitRunEnd(s, i);
        YearsAtIsRegexTail(s, e);
        if i < j < e {
          assert IsDigit(s[j]);
          NoYearAt(s, j);
        }
      }
    }
  }

  /** The leftmost position at or after `from` where the pattern matches. */
  function FirstMatch(s: string, from: nat): (r: Option<nat>)
    requires from <= |s|
    ensures r.Some? ==> from <= r.value < |s| && MatchesAt(s, r.value)
    ensures r.Some? ==> forall k :: from <= k < r.value ==> !MatchesAt(s, k)
    ensures r.None? ==> forall k :: from <= k < |s| ==> !MatchesAt(s, k)
    decreases |s| - from
  {
    if from == |s| then None
    else if MatchesAt(s, from) then Some(from)
    else
      var r := FirstMatch(s, from + 1);
      assert forall k :: from <= k <= from ==> !MatchesAt(s, k);
      r
  }

  /**
   * The experience requirement stated in a description: the digits of the
   * leftmost match followed by "+ years", or "2+ years" when there is none.
   */
  function ExtractExperience(description: string): (experience: string)
    ensures |experience| > 7 && experience[|experience| - 7..] == "+ years"
    ensures AllDigits(experience[..|experience| - 7])
  {
    YearsCount(description) + "+ years"
  }

  /** The digits put in front of "+ years": the group of the leftmost match, or "2". */
  function YearsCount(description: string): (digits: string)
    ensures digits != [] && AllDigits(digits)
  {
    match FirstMatch(description, 0)
    case None => "2"
    case Some(i) => description[i..DigitRunEnd(description, i)]
  }

  /** With a match, the result is the group of the leftmost match followed by "+ years". */
  lemma ExperienceFromLeftmostMatch(d: string, i: nat, j: nat)
    requires RegexMatch(d, i, j)
    requires forall i': nat, j': nat :: i' < i ==> !RegexMatch(d, i', j')
    ensures ExtractExperience(d) == d[i..j] + "+ years"
  {
    RegexMatchCharacterized(d);
    var r := FirstMatch(d, 0);
    assert r.Some? && r.value <= i;
    assert !(r.value < i) by {
      assert RegexMatch(d, r.value, DigitRunEnd(d, r.value));
    }
  }

  /** Without a match, the default "2+ years" is returned. */
  lemma ExperienceDefault(d: string)
    requires forall i: nat, j: nat :: !RegexMatch(d, i, j)
    ensures ExtractExperience(d) == "2+ years"
  {
    RegexMatchCharacterized(d);
    forall k: nat | k < |d|
      ensures !MatchesAt(d, k)
    {
      assert !RegexMatch(d, k, DigitRunEnd(d, k));
    }
    assert FirstMatch(d, 0).None?;
    assert YearsCount(d) == "2";
  }

  /** The leftmost match begins a maximal run of digits: no digit precedes the ones returned. */
  lemma {:induction false} LeftmostMatchStartsRun(s: string, i: nat)
    requires MatchesAt(s, i) && 0 < i && IsDigit(s[i - 1])
    ensures MatchesAt(s, i - 1)
  {
    assert DigitRunEnd(s, i - 1) == DigitRunEnd(s, i);
  }

  /** The leftmost match is not preceded by a digit, so its group is the whole run of digits. */
  lemma LeftmostMatchNotAfterDigit(s: string)
    ensures var r := FirstMatch(s, 0); r.Some? && r.value > 0 ==> !IsDigit(s[r.value - 1])
  {
    var r := FirstMatch(s, 0);
    if r.Some? && r.value > 0 && IsDigit(s[r.value - 1]) {
      LeftmostMatchStartsRun(s, r.value);
      assert false;
    }
  }

  // ---------------------------------------------------------------------
  // Numbers in en-IN format

  /** Digits grouped in twos from the right. */
  function GroupPairs(ds: string): string
    decreases |ds|
  {
    if |ds| <= 2 then ds else GroupPairs(ds[..|ds| - 2]) + "," + ds[|ds| - 2..]
  }

  /** Indian grouping of a digit string: the last three digits, then groups of two. */
  function GroupIndian(ds: string): string {
    if |ds| <= 3 then ds else GroupPairs(ds[..|ds| - 3]) + "," + ds[|ds| - 3..]
  }

  /** `new Intl.NumberFormat("en-IN").format(Math.round(n))` for an integral n. */
  function FormatNumber(n: int): (text: string)
    ensures n >= 0 ==> IndianGrouped(text) && StripCommas(text) == NatToString(n)
    ensures n < 0 ==> |text| > 1 && text[..1] == "-" && IndianGrouped(text[1..]) && StripCommas(text[1..]) == NatToString(-n)
  {
    var digits := NatToString(if n < 0 then -n else n);
    GroupIndianShape(digits);
    StripGroupIndian(digits);
    if n < 0 then
      assert ("-" + GroupIndian(digits))[1..] == GroupIndian(digits);
      "-" + GroupIndian(digits)
    else GroupIndian(digits)
  }

  function StripCommas(s: string): (r: string)
    ensures |r| <= |s|
  {
    if s == [] then [] else (if s[0] == ',' then [] else [s[0]]) + StripCommas(s[1..])
  }

  lemma {:induction false} StripCommasAppend(a: string, b: string)
    ensures StripCommas(a + b) == StripCommas(a) + StripCommas(b)
  {
    if a != [] {
      StripCommasAppend(a[1..], b);
      assert (a + b)[0] == a[0];
      assert (a + b)[1..] == a[1..] + b;
      calc {
        StripCommas(a + b);
        (if a[0] == ',' then [] else [a[0]]) + StripCommas(a[1..] + b);
        (if a[0] == ',' then [] else [a[0]]) + (StripCommas(a[1..]) + StripCommas(b));
      }
    } else {
      assert a + b == b;
    }
  }

  lemma {:induction false} StripCommasOfDigits(ds: string)
    requires AllDigits(ds)
    ensures StripCommas(ds) == ds
  {
    if ds != [] {
      StripCommasOfDigits(ds[1..]);
    }
  }

  /** Pair grouping only inserts commas. */
  lemma {:induction false} StripGroupPairs(ds: string)
    requires AllDigits(ds)
    ensures StripCommas(GroupPairs(ds)) == ds
    decreases |ds|
  {
    if |ds| <= 2 {
      StripCommasOfDigits(ds);
    } else {
      var head, tail := ds[..|ds| - 2], ds[|ds| - 2..];
      assert AllDigits(head) && AllDigits(tail);
      StripGroupPairs(head);
      StripAroundComma(GroupPairs(head), tail);
      assert ds == head + tail;
    }
  }

  lemma StripGroupIndian(ds: string)
    requires AllDigits(ds)
    ensures StripCommas(GroupIndian(ds)) == ds
  {
    if |ds| <= 3 {
      StripCommasOfDigits(ds);
    } else {
      var head, tail := ds[..|ds| - 3], ds[|ds| - 3..];
      assert AllDigits(head) && AllDigits(tail);
      StripGroupPairs(head);
      StripAroundComma(GroupPairs(head), tail);
      assert ds == head + tail;
    }
  }

  /** Removing the commas around one inserted comma and before a digit run. */
  lemma StripAroundComma(left: string, tail: string)
    requires AllDigits(tail)
    ensures StripCommas(left + "," + tail) == StripCommas(left) + tail
  {
    StripCommasAppend(left + ",", tail);
    StripCommasAppend(left, ",");
    StripCommasOfDigits(tail);
    StripComma();
    assert StripCommas(left + ",") == StripCommas(left);
  }

  lemma StripComma()
    ensures StripCommas(",") == []
  {
    assert ","[1..] == [];
  }

  /** Digits and commas, with a comma exactly every third place counted from the end, and none first. */
  predicate PairGrouped(s: string) {
    && s != [] && |s| % 3 != 0
    && forall i :: 0 <= i < |s| ==> (s[i] == ',' <==> 0 < i && (|s| - i) % 3 == 0) && (s[i] != ',' ==> IsDigit(s[i]))
  }

  /** Position i of a string of length len holds a comma in en-IN grouping: 4, 7, 10, ... places from the end, never first. */
  predicate CommaSlot(len: nat, i: nat) {
    0 < i && i + 4 <= len && (len - i - 4) % 3 == 0
  }

  /**
   * The en-IN shape: digits with commas exactly at the comma slots, so the last
   * group has three digits and every earlier group two, except a first group
   * of one or two digits.
   */
  predicate IndianGrouped(s: string) {
    && s != []
    && !(4 <= |s| && (|s| - 4) % 3 == 0)
    && forall i :: 0 <= i < |s| ==> (s[i] == ',' <==> CommaSlot(|s|, i)) && (s[i] != ',' ==> IsDigit(s[i]))
  }

  lemma {:induction false} GroupPairsShape(ds: string)
    requires ds != [] && AllDigits(ds)
    ensures PairGrouped(GroupPairs(ds))
    decreases |ds|
  {
    if |ds| > 2 {
      var head := ds[..|ds| - 2];
      GroupPairsShape(head);
      var g := GroupPairs(head);
      var s := GroupPairs(ds);
      assert s == g + "," + ds[|ds| - 2..];
      assert |s| == |g| + 3;
      forall i | 0 <= i < |s|
        ensures (s[i] == ',' <==> 0 < i && (|s| - i) % 3 == 0) && (s[i] != ',' ==> IsDigit(s[i]))
      {
        if i < |g| {
          assert s[i] == g[i];
        } else if i > |g| {
          assert s[i] == ds[|ds| - 2 + (i - |g| - 1)];
        }
      }
    }
  }

  lemma GroupIndianShape(ds: string)
    requires ds != [] && AllDigits(ds)
    ensures IndianGrouped(GroupIndian(ds))
  {
    if |ds| > 3 {
      var head := ds[..|ds| - 3];
      GroupPairsShape(head);
      var g := GroupPairs(head);
      var s := GroupIndian(ds);
      assert s == g + "," + ds[|ds| - 3..];
      assert |s| == |g| + 4;
      forall i | 0 <= i < |s|
        ensures (s[i] == ',' <==> CommaSlot(|s|, i)) && (s[i] != ',' ==> IsDigit(s[i]))
      {
        if i < |g| {
          assert s[i] == g[i];
        } else if i > |g| {
          assert s[i] == ds[|ds| - 3 + (i - |g| - 1)];
        }
      }
    }
  }

  /**
   * en-IN formatting of a non-negative number has the Indian grouping shape,
   * and deleting its commas leaves the decimal digits of the number.
   */
  lemma FormatNumberGrouping(n: nat)
    ensures IndianGrouped(FormatNumber(n))
    ensures StripCommas(FormatNumber(n)) == NatToString(n)
    ensures DigitsValue(StripCommas(FormatNumber(n))) == n
  {
    GroupIndianShape(NatToString(n));
    StripGroupIndian(NatToString(n));
    NatToStringValue(n);
  }

  lemma FormatLakh()
    ensures FormatNumber(100000) == "1,00,000"
    ensures FormatNumber(-100000) == "-1,00,000"
  {
    LakhDigits();
    GroupLakh("100000");
  }

  lemma LakhDigits()
    ensures NatToString(100000) == "100000"
  {
  }

  lemma GroupLakh(ds: string)
    requires ds == "100000"
    ensures GroupIndian(ds) == "1,00,000"
  {
    assert ds[..3] == "100" && ds[3..] == "000";
    assert "100"[..1] == "1" && "100"[1..] == "00";
    assert GroupPairs("100") == "1,00";
  }

  /** A five-digit amount has one comma, after its first two digits. */
  lemma FormatFiveDigits(n: nat, ds: string)
    requires NatToString(n) == ds && |ds| == 5
    ensures FormatNumber(n) == ds[..2] + "," + ds[2..]
  {
    assert ds[..2][..0] == [];
  }

  // ---------------------------------------------------------------------
  // Salary range

  /** JavaScript truthiness of an optional bound: absent and zero are both falsy. */
  predicate Given(bound: Option<int>) {
    bound.Some? && bound.value != 0
  }

  /** Rupees per US dollar. */
  const UsdToInr := 83

  /** The amount shown for a bound: dollars are converted to rupees, any other currency is shown as it is. */
  function InRupees(amount: int, currency: string): int {
    if currency == "USD" then amount * UsdToInr else amount
  }

  /** The salary range shown for a listing, decided by which of the original bounds are given. */
  function SalaryText(min: Option<int>, max: Option<int>, currency: string): (text: string)
    ensures text == "Not disclosed" <==> !Given(min) && !Given(max)
  {
    var text :=
      if Given(min) && Given(max) then
        "₹" + FormatNumber(InRupees(min.value, currency)) + " - ₹" + FormatNumber(InRupees(max.value, currency))
      else if Given(min) then "₹" + FormatNumber(InRupees(min.value, currency)) + "+"
      else if Given(max) then "Up to ₹" + FormatNumber(InRupees(max.value, currency))
      else "Not disclosed";
    // A shown bound starts the text with '₹' or 'U', never with the 'N' of "Not disclosed".
    assert Given(min) || Given(max) ==> text[0] == '₹' || text[0] == 'U';
    text
  }

  /**
   * formatSalary as written: after the early exit it converts both bounds in
   * place when the currency is USD and then decides the shape from the
   * converted bounds.
   */
  method FormatSalary(min: Option<int>, max: Option<int>, currency: string) returns (text: string)
    ensures text == SalaryText(min, max, currency)
  {
    if !Given(min) && !Given(max) {
      return "Not disclosed";
    }
    var lo, hi := min, max;
    if currency == "USD" {
      lo := if Given(lo) then Some(lo.value * UsdToInr) else None;
      hi := if Given(hi) then Some(hi.value * UsdToInr) else None;
    }
    if Given(lo) && Given(hi) {
      text := "₹" + FormatNumber(lo.value) + " - ₹" + FormatNumber(hi.value);
    } else if Given(lo) {
      text := "₹" + FormatNumber(lo.value) + "+";
    } else if Given(hi) {
      text := "Up to ₹" + FormatNumber(hi.value);
    } else {
      // Unreachable: a given bound stays given after conversion.
      assert false;
      text := "Not disclosed";
    }
  }

  /**
   * The three shapes of a disclosed salary, for all bounds: a range "₹A - ₹B",
   * a minimum "₹A+" or a maximum "Up to ₹B", with A and B the bounds in rupees.
   */
  lemma SalaryShapes(min: Option<int>, max: Option<int>, currency: string)
    ensures Given(min) && Given(max) ==> SalaryText(min, max, currency) == "₹" + FormatNumber(InRupees(min.value, currency)) + " - ₹" + FormatNumber(InRupees(max.value, currency))
    ensures Given(min) && !Given(max) ==> SalaryText(min, max, currency) == "₹" + FormatNumber(InRupees(min.value, currency)) + "+"
    ensures !Given(min) && Given(max) ==> SalaryText(min, max, currency) == "Up to ₹" + FormatNumber(InRupees(max.value, currency))
  {
  }

  /** Only "USD" is converted: any other currency renders like the default "INR". */
  lemma OnlyUsdConverted(min: Option<int>, max: Option<int>, currency: string)
    requires currency != "USD"
    ensures SalaryText(min, max, currency) == SalaryText(min, max, "INR")
  {
  }

  lemma SalaryBothBounds(min: Option<int>, max: Option<int>, currency: string)
    requires min == Some(50000) && max == Some(80000) && currency == "INR"
    ensures SalaryText(min, max, currency) == "₹50,000 - ₹80,000"
  {
    assert SalaryText(min, max, currency) == "₹" + FormatNumber(50000) + " - ₹" + FormatNumber(80000);
    FormatFifty();
    FormatEighty();
    BothBoundsText();
  }

  /** The two rendered bounds of SalaryBothBounds, joined as formatSalary joins them. */
  lemma BothBoundsText()
    ensures "₹" + "50,000" + " - ₹" + "80,000" == "₹50,000 - ₹80,000"
  {
  }

  lemma FormatFifty()
    ensures FormatNumber(50000) == "50,000"
  {
    assert NatToString(50000) == "50000";
    FormatFiveDigits(50000, "50000");
  }

  lemma FormatEighty()
    ensures FormatNumber(80000) == "80,000"
  {
    assert NatToString(80000) == "80000";
    FormatFiveDigits(80000, "80000");
  }

  lemma SalaryConvertedMinimum(min: Option<int>, max: Option<int>, currency: string)
    requires min == Some(1000) && max == None && currency == "USD"
    ensures SalaryText(min, max, currency) == "₹83,000+"
  {
    assert InRupees(1000, currency) == 83000;
    assert SalaryText(min, max, currency) == "₹" + FormatNumber(83000) + "+";
    FormatEightyThree();
    ConvertedText();
  }

  /** The rendered bound of SalaryConvertedMinimum with its trailing plus. */
  lemma ConvertedText()
    ensures "₹" + "83,000" + "+" == "₹83,000+"
  {
  }

  lemma FormatEightyThree()
    ensures FormatNumber(83000) == "83,000"
  {
    assert NatToString(83000) == "83000";
    FormatFiveDigits(83000, "83000");
  }

  lemma SalaryOnlyMaximum(min: Option<int>, max: Option<int>, currency: string)
    requires min == None && max == Some(100000) && currency == "INR"
    ensures SalaryText(min, max, currency) == "Up to ₹1,00,000"
  {
    assert SalaryText(min, max, currency) == "Up to ₹" + FormatNumber(100000);
    FormatLakh();
    OnlyMaximumText();
  }

  /** The rendered bound of SalaryOnlyMaximum after its qualifier. */
  lemma OnlyMaximumText()
    ensures "Up to ₹" + "1,00,000" == "Up to ₹1,00,000"
  {
  }

  lemma SalaryZeroMinimum(min: Option<int>, max: Option<int>, currency: string)
    requires min == Some(0) && max == None
    ensures SalaryText(min, max, currency) == "Not disclosed"
  {
  }
}
