/** The password-strength meter of the registration form: a score from 0 to 6
    made of two length thresholds and four character-class tests, and the label
    shown for it. */
module Strength {
  import opened Client

  /** The four character classes the meter tests for, one regular expression each:
      `[a-z]`, `[A-Z]`, `\d` and `[^A-Za-z0-9]`. */
  datatype CharClass = Lower | Upper | Digit | Other

  const AllClasses: set<CharClass> := {Lower, Upper, Digit, Other}

  /** Character `c` matches the regular expression of class `k`. Without the `u`
      flag, `\d` is the ASCII digits only. */
  predicate Matches(k: CharClass, c: char) {
    match k
    case Lower => 'a' <= c <= 'z'
    case Upper => 'A' <= c <= 'Z'
    case Digit => '0' <= c <= '9'
    case Other => !('A' <= c <= 'Z' || 'a' <= c <= 'z' || '0' <= c <= '9')
  }

  /** The one class a character belongs to. */
  function ClassOf(c: char): (k: CharClass)
    ensures forall j :: Matches(j, c) <==> j == k
  {
    if 'a' <= c <= 'z' then Lower
    else if 'A' <= c <= 'Z' then Upper
    else if '0' <= c <= '9' then Digit
    else Other
  }

  /** `/re/.test(s)` for the regular expression of class `k`: a left-to-right scan
      for one matching character. */
  predicate Test(k: CharClass, s: string): (found: bool)
    ensures found <==> exists i :: 0 <= i < |s| && Matches(k, s[i])
  {
    |s| > 0 && (Matches(k, s[0]) || Test(k, s[1..]))
  }

  /** The classes that occur in `s`: the reference definition the score is
      proved against. */
  function ClassesIn(s: string): set<CharClass> {
    set i | 0 <= i < |s| :: ClassOf(s[i])
  }

  function Point(b: bool): nat {
    if b then 1 else 0
  }

  /** The two length points: one from 8 characters on, another from 12 on. */
  function LengthPoints(n: nat): nat {
    Point(n >= 8) + Point(n >= 12)
  }

  /** `calculatePasswordStrength`: an empty password scores 0; otherwise one point
      per length threshold reached and one per regular expression that matches. */
  function Score(password: string): (score: nat)
    ensures score <= 6
    ensures |password| < 8 ==> score <= 4
  {
    if |password| == 0 then 0
    else
      Point(|password| >= 8) + Point(|password| >= 12)
      + Point(Test(Lower, password)) + Point(Test(Upper, password))
      + Point(Test(Digit, password)) + Point(Test(Other, password))
  }

  /** `strengthLabels`, indexed by score - 1. */
  const StrengthLabels: seq<string> := ["Very Weak", "Weak", "Fair", "Good", "Strong", "Very Strong"]

  /** `strengthLabels[score - 1] || 'Very Weak'`: an index outside the array reads
      `undefined`, which is falsy, so the fallback is used. */
  function Label(score: int): (text: string)
    ensures 1 <= score <= 6 ==> text == StrengthLabels[score - 1]
    ensures !(1 <= score <= 6) ==> text == "Very Weak"
  {
    var i := score - 1;
    var entry := if 0 <= i < |StrengthLabels| then StrengthLabels[i] else "";
    if entry != "" then entry else "Very Weak"
  }

  /** The indicator under the password field: shown only while the password is not
      empty, with the label of its score. */
  function Indicator(password: string): (shown: Option<string>)
    ensures shown.None? <==> password == ""
    ensures shown.Some? ==> shown.value in StrengthLabels
  {
    if password != "" then Some(Label(Score(password))) else None
  }

  /** The scanning test agrees with the reference: the regular expression of `k`
      matches `s` exactly when some character of `s` is of class `k`. */
  lemma TestIff(k: CharClass, s: string)
    ensures Test(k, s) <==> k in ClassesIn(s)
  {
  }

  /** A set of classes has as many elements as it has members among the four. */
  lemma ClassCount(S: set<CharClass>)
    ensures |S| == Point(Lower in S) + Point(Upper in S) + Point(Digit in S) + Point(Other in S)
  {
    var s1 := S - {Lower};
    var s2 := s1 - {Upper};
    var s3 := s2 - {Digit};
    var s4 := s3 - {Other};
    RemoveOne(S, Lower);
    RemoveOne(s1, Upper);
    RemoveOne(s2, Digit);
    RemoveOne(s3, Other);
    forall k | k in s4 ensures false {
      match k
      case Lower =>
      case Upper =>
      case Digit =>
      case Other =>
    }
    assert s4 == {};
  }

  lemma RemoveOne(S: set<CharClass>, k: CharClass)
    ensures |S| == |S - {k}| + Point(k in S)
  {
  }

  /** The score is the length points plus the number of distinct character classes
      the password uses. */
  lemma ScoreCountsClasses(password: string)
    ensures Score(password) == if |password| == 0 then 0 else LengthPoints(|password|) + |ClassesIn(password)|
  {
    TestIff(Lower, password);
    TestIff(Upper, password);
    TestIff(Digit, password);
    TestIff(Other, password);
    ClassCount(ClassesIn(password));
  }

  /** Every character falls in some class, so any non-empty password scores at
      least 1. */
  lemma NonEmptyScoresAtLeastOne(password: string)
    requires |password| > 0
    ensures Score(password) >= 1
  {
  }

  /** From 12 characters on, both length points are earned and the rest of the
      score counts the character classes. */
  lemma LongPasswordEarnsBothLengthPoints(password: string)
    requires |password| >= 12
    ensures Score(password) == 2 + |ClassesIn(password)|
  {
    ScoreCountsClasses(password);
  }

  /** The top score needs both length thresholds and all four classes, and these
      are enough. */
  lemma MaxScoreIff(password: string)
    ensures Score(password) == 6 <==> |password| >= 12 && ClassesIn(password) == AllClasses
  {
    var S := ClassesIn(password);
    ScoreCountsClasses(password);
    ClassCount(S);
    if Score(password) == 6 {
      assert Lower in S && Upper in S && Digit in S && Other in S;
      forall k | k in AllClasses ensures k in S {
        match k
        case Lower =>
        case Upper =>
        case Digit =>
        case Other =>
      }
    }
  }

  lemma ClassesInSnoc(s: string, c: char)
    ensures ClassesIn(s + [c]) == ClassesIn(s) + {ClassOf(c)}
  {
    var t := s + [c];
    forall k | k in ClassesIn(t) ensures k in ClassesIn(s) + {ClassOf(c)} {
      var i :| 0 <= i < |t| && ClassOf(t[i]) == k;
      if i < |s| {
        assert t[i] == s[i];
      }
    }
    forall k | k in ClassesIn(s) ensures k in ClassesIn(t) {
      var i :| 0 <= i < |s| && ClassOf(s[i]) == k;
      assert t[i] == s[i];
    }
    assert t[|s|] == c;
  }

  /** Typing one more character never lowers the score. */
  lemma AppendNeverLowers(password: string, c: char)
    ensures Score(password) <= Score(password + [c])
  {
    ScoreCountsClasses(password);
    ScoreCountsClasses(password + [c]);
    ClassesInSnoc(password, c);
    ClassCount(ClassesIn(password));
    ClassCount(ClassesIn(password + [c]));
  }

  /** Scores 0 and 1 display the same label; scores 1 to 6 display six different
      labels. */
  lemma LabelsOfScores(a: int, b: int)
    ensures Label(0) == Label(1) == "Very Weak"
    ensures 1 <= a <= 6 && 1 <= b <= 6 && Label(a) == Label(b) ==> a == b
  {
  }

  /** While the indicator is shown, the password is not empty, so its score is at
      least 1 and the label always comes from the table, never from the fallback. */
  lemma IndicatorReadsTable(password: string)
    requires password != ""
    ensures Indicator(password) == Some(StrengthLabels[Score(password) - 1])
  {
  }

  /** "Abc12345!" has 9 characters and all four classes: one length point and four
      class points make 5, labelled "Strong". */
  lemma Example()
    ensures Score("Abc12345!") == 5
    ensures Indicator("Abc12345!") == Some("Strong")
  {
  }
}
