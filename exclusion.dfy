/**
 * The exclusion policy: which resolved tasks may never be selected. A task is
 * excluded when its name is on a fixed denylist or when one of seven fixed
 * regular expressions matches it with Python's `re.match`, which anchors at
 * the start of the name only and whose `.` matches anything but a newline.
 */
module Exclusion {

  /** The two shapes the seven exclusion expressions take. */
  datatype Pattern =
    | Anywhere(literal: string)  // ".*literal.*"
    | Leading(literal: string)   // "literal.*"

  const CompileTaskPattern := Anywhere("compile")
  const ConcurrencyTaskPattern := Leading("concurrency")
  const IntegrationTaskPattern := Leading("integration")
  const FuzzerTaskPattern := Anywhere("fuzz")
  const GenerateTaskPattern := Leading("burn_in")
  const LintTaskPattern := Leading("lint")
  const StitchTaskPattern := Leading("stitch")

  const ExcludeTaskPatterns: seq<Pattern> := [
    CompileTaskPattern, ConcurrencyTaskPattern, IntegrationTaskPattern, FuzzerTaskPattern,
    GenerateTaskPattern, LintTaskPattern, StitchTaskPattern
  ]

  const CppTaskNames: seq<string> := ["dbtest", "idl_tests", "unittests"]
  const PublishTaskNames: seq<string> := ["package", "publish_packages", "push"]
  const PythonTests: seq<string> := ["buildscripts_test"]
  const ExcludeTaskList: seq<string> := CppTaskNames + PythonTests + PublishTaskNames

  /** The part of `s` before its first newline: all that `.*` can consume. */
  function FirstLine(s: string): (r: string)
    ensures r <= s
    ensures '\n' !in r
    ensures |r| < |s| ==> s[|r|] == '\n'
  {
    if s == [] || s[0] == '\n' then []
    else [s[0]] + FirstLine(s[1..])
  }

  /** `literal` stands in `s` at position `i`. */
  ghost predicate LiteralAt(s: string, literal: string, i: nat)
  {
    i + |literal| <= |s| && s[i..i + |literal|] == literal
  }

  /** Scans `s` left to right for an occurrence of `literal`. */
  function OccursIn(literal: string, s: string): (b: bool)
    ensures b ==> |literal| <= |s|
    decreases |s|
  {
    if |s| < |literal| then false
    else s[..|literal|] == literal || OccursIn(literal, s[1..])
  }


  /** What `re.match` of the pattern means, read off the regular expression:
      ".*literal.*" matches when `literal` starts at some position that no
      newline precedes; "literal.*" when the name begins with `literal`. */
  ghost predicate ReMatch(p: Pattern, name: string)
  {
    match p
    case Anywhere(literal) => exists i: nat :: LiteralAt(name, literal, i) && '\n' !in name[..i]
    case Leading(literal) => |literal| <= |name| && name[..|literal|] == literal
  }

  /** The scan finds `literal` exactly when it occurs somewhere in `s`. */
  lemma {:induction false} OccursInIff(literal: string, s: string)
    ensures OccursIn(literal, s) <==> exists i: nat :: LiteralAt(s, literal, i)
    decreases |s|
  {
    if |s| < |literal| {
      forall i: nat ensures !LiteralAt(s, literal, i) {}
    } else if s[..|literal|] == literal {
      assert LiteralAt(s, literal, 0);
    } else {
      OccursInIff(literal, s[1..]);
      forall i: nat | LiteralAt(s[1..], literal, i) ensures LiteralAt(s, literal, i + 1) {
        assert s[i + 1..i + 1 + |literal|] == s[1..][i..i + |literal|];
      }
      forall i: nat | LiteralAt(s, literal, i) ensures LiteralAt(s[1..], literal, i - 1) {
        assert i > 0;
        assert s[i..i + |literal|] == s[1..][i - 1..i - 1 + |literal|];
      }
    }
  }

  /** `re.match(p, name)` is not None. A name shorter than the pattern's
      literal never matches. */
  predicate Matches(p: Pattern, name: string): (b: bool)
    ensures b ==> |p.literal| <= |name|
  {
    match p
    case Anywhere(literal) => OccursIn(literal, FirstLine(name))
    case Leading(literal) => literal <= name
  }

  /** The model of each pattern agrees with what the regular expression means
      (the literals of the seven patterns hold no newline). */
  lemma MatchesIffReMatch(p: Pattern, name: string)
    requires '\n' !in p.literal
    ensures Matches(p, name) <==> ReMatch(p, name)
  {
    if p.Anywhere? {
      var literal, line := p.literal, FirstLine(name);
      OccursInIff(literal, line);
      forall i: nat | LiteralAt(line, literal, i)
        ensures LiteralAt(name, literal, i) && '\n' !in name[..i]
      {
        assert name[..i + |literal|] == line[..i + |literal|];
        assert name[i..i + |literal|] == line[i..i + |literal|];
        assert name[..i] == line[..i];
      }
      forall i: nat | LiteralAt(name, literal, i) && '\n' !in name[..i]
        ensures LiteralAt(line, literal, i)
      {
        assert i + |literal| <= |line|;
        assert line[i..i + |literal|] == name[i..i + |literal|];
      }
    }
  }

  /** `literal` occurs anywhere in `name`. */
  ghost predicate Contains(name: string, literal: string)
  {
    exists i: nat :: LiteralAt(name, literal, i)
  }

  /** For names without a newline, what each of the seven patterns asks of
      a name, in plain words. */
  lemma PatternsInPlainWords(name: string)
    requires '\n' !in name
    ensures Matches(ExcludeTaskPatterns[0], name) <==> Contains(name, "compile")
    ensures Matches(ExcludeTaskPatterns[1], name) <==> "concurrency" <= name
    ensures Matches(ExcludeTaskPatterns[2], name) <==> "integration" <= name
    ensures Matches(ExcludeTaskPatterns[3], name) <==> Contains(name, "fuzz")
    ensures Matches(ExcludeTaskPatterns[4], name) <==> "burn_in" <= name
    ensures Matches(ExcludeTaskPatterns[5], name) <==> "lint" <= name
    ensures Matches(ExcludeTaskPatterns[6], name) <==> "stitch" <= name
  {
    forall literal, i: nat | LiteralAt(name, literal, i) ensures '\n' !in name[..i] {
      assert forall c :: c in name[..i] ==> c in name;
    }
    var ps := ExcludeTaskPatterns;
    forall k | 0 <= k < |ps| ensures Matches(ps[k], name) <==> ReMatch(ps[k], name) {
      MatchesIffReMatch(ps[k], name);
    }
  }

  /** The denylist or one of the seven patterns, for a name without a
      newline, in plain words. */
  lemma DeniedInPlainWords(name: string)
    ensures '\n' !in name ==>
      ((name in ExcludeTaskList
        || exists i :: 0 <= i < |ExcludeTaskPatterns| && Matches(ExcludeTaskPatterns[i], name))
       <==>
       || name in {"dbtest", "idl_tests", "unittests", "buildscripts_test",
                   "package", "publish_packages", "push"}
       || Contains(name, "compile") || Contains(name, "fuzz")
       || "concurrency" <= name || "integration" <= name || "burn_in" <= name
       || "lint" <= name || "stitch" <= name)
  {
    if '\n' !in name {
      PatternsInPlainWords(name);
      assert ExcludeTaskList == ["dbtest", "idl_tests", "unittests", "buildscripts_test",
                                 "package", "publish_packages", "push"];
      assert |ExcludeTaskPatterns| == 7;
    }
  }

  /** Whether a task of this name is ineligible for selection: on the
      denylist, or matched by one of the seven patterns. For names without
      a newline, in plain words: one of the seven denylisted names, or
      containing "compile" or "fuzz", or starting with "concurrency",
      "integration", "burn_in", "lint" or "stitch". */
  predicate IsExcluded(name: string): (r: bool)
    ensures '\n' !in name ==> (r <==>
      || name in {"dbtest", "idl_tests", "unittests", "buildscripts_test",
                  "package", "publish_packages", "push"}
      || Contains(name, "compile") || Contains(name, "fuzz")
      || "concurrency" <= name || "integration" <= name || "burn_in" <= name
      || "lint" <= name || "stitch" <= name)
  {
    DeniedInPlainWords(name);
    name in ExcludeTaskList
    || exists i :: 0 <= i < |ExcludeTaskPatterns| && Matches(ExcludeTaskPatterns[i], name)
  }
}
