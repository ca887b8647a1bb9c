/**
 * The skill list of the task form in static/js/app.js: the global array
 * `skills`, bounded by `maxSkills`, that `addSkill` fills from the text input
 * and `removeSkill` empties again.
 */
module SkillPicker {

  const MaxSkills: nat := 15
  const LimitMessage := "Maximum 15 skills allowed"

  /** The characters `String.prototype.trim` strips: ECMAScript WhiteSpace and LineTerminator. */
  predicate IsJsSpace(c: char) {
    || c == '\t' || c == '\n' || c == '\U{000B}' || c == '\U{000C}' || c == '\r' || c == ' '
    || c == '\U{00A0}' || c == '\U{1680}' || ('\U{2000}' <= c <= '\U{200A}')
    || c == '\U{2028}' || c == '\U{2029}' || c == '\U{202F}' || c == '\U{205F}'
    || c == '\U{3000}' || c == '\U{FEFF}'
  }

  /** Neither the first nor the last character is white space. */
  predicate Trimmed(s: string) {
    s == [] || (!IsJsSpace(s[0]) && !IsJsSpace(s[|s| - 1]))
  }

  /** `s` without its leading white space. */
  function TrimStart(s: string): (r: string)
    ensures |r| <= |s| && r == s[|s| - |r|..]
    ensures forall i :: 0 <= i < |s| - |r| ==> IsJsSpace(s[i])
    ensures r == [] || !IsJsSpace(r[0])
  {
    if s != [] && IsJsSpace(s[0]) then TrimStart(s[1..]) else s
  }

  /** `s` without its trailing white space. */
  function TrimEnd(s: string): (r: string)
    ensures |r| <= |s| && r == s[..|r|]
    ensures forall i :: |r| <= i < |s| ==> IsJsSpace(s[i])
    ensures r == [] || !IsJsSpace(r[|r| - 1])
  {
    if s != [] && IsJsSpace(s[|s| - 1]) then TrimEnd(s[..|s| - 1]) else s
  }

  /**
   * `String.prototype.trim` (line 22): the part of `s` left once the white
   * space at both ends is cut off.
   */
  function Trim(s: string): (r: string)
    ensures Trimmed(r)
    ensures var lo := |s| - |TrimStart(s)|;
      && lo + |r| <= |s| && r == s[lo..lo + |r|]
      && (forall i :: 0 <= i < lo ==> IsJsSpace(s[i]))
      && (forall i :: lo + |r| <= i < |s| ==> IsJsSpace(s[i]))
  {
    var t := TrimStart(s);
    SliceOfSuffix(s, |s| - |t|, TrimEnd(t));
    TrimEnd(t)
  }

  /** A prefix of the suffix of `s` from `lo` is the slice of `s` starting at `lo`. */
  lemma SliceOfSuffix<T>(s: seq<T>, lo: nat, r: seq<T>)
    requires lo <= |s| && |r| <= |s| - lo && r == s[lo..][..|r|]
    ensures r == s[lo..lo + |r|]
  {
  }

  /** Trimming is idempotent: a trimmed string is its own trim. */
  lemma TrimFixesTrimmed(s: string)
    requires Trimmed(s)
    ensures Trim(s) == s
  {
  }

  /** `Array.prototype.indexOf` on strings: the first index holding `x`, or -1. */
  function IndexOf(s: seq<string>, x: string): (k: int)
    ensures -1 <= k < |s|
    ensures k == -1 <==> x !in s
    ensures k != -1 ==> s[k] == x && x !in s[..k]
  {
    if s == [] then -1
    else if s[0] == x then 0
    else
      var k := IndexOf(s[1..], x);
      if k == -1 then -1
      else
        assert s[..k + 1] == [s[0]] + s[1..][..k];
        k + 1
  }

  predicate NoDuplicates(s: seq<string>) {
    forall i, j :: 0 <= i < j < |s| ==> s[i] != s[j]
  }

  /** What the global `skills` always satisfies: at most `maxSkills` distinct, trimmed, non-empty entries. */
  predicate Good(skills: seq<string>) {
    && |skills| <= MaxSkills
    && NoDuplicates(skills)
    && forall i :: 0 <= i < |skills| ==> skills[i] != "" && Trimmed(skills[i])
  }

  /** How `addSkill` ends: the skill was pushed, nothing happened, or the limit message was shown. */
  datatype AddOutcome = Added | Ignored | LimitReached(message: string)

  /** `addSkill` (lines 21-34) on the list and the input text: the outcome, the list and the text afterwards. */
  function AddStep(skills: seq<string>, input: string): (out: (AddOutcome, seq<string>, string))
    ensures out.0 == Added <==> Trim(input) != "" && Trim(input) !in skills && |skills| < MaxSkills
    ensures out.0 == Added ==> out.1 == skills + [Trim(input)] && out.2 == ""
    ensures out.0 != Added ==> out.1 == skills && out.2 == input
    ensures out.0.LimitReached? <==> Trim(input) != "" && Trim(input) !in skills && |skills| >= MaxSkills
    ensures out.0.LimitReached? ==> out.0.message == LimitMessage
    ensures Good(skills) ==> Good(out.1)
  {
    var skill := Trim(input);
    if skill != "" && skill !in skills then
      if |skills| >= MaxSkills then (LimitReached(LimitMessage), skills, input)
      else (Added, skills + [skill], "")
    else (Ignored, skills, input)
  }

  /**
   * `removeSkill` (lines 45-48): the entry at the index `indexOf` finds is
   * spliced out; a skill that is not in the list changes nothing.
   */
  function Removed(skills: seq<string>, skill: string): (r: seq<string>)
    ensures skill !in skills ==> r == skills
    ensures skill in skills ==> |r| == |skills| - 1 && multiset(r) == multiset(skills) - multiset{skill}
    ensures skill in skills ==>
      var k := IndexOf(skills, skill);
      forall i :: 0 <= i < |r| ==> r[i] == skills[Shifted(k, i)]
    ensures Good(skills) ==> Good(r) && skill !in r
  {
    var index := IndexOf(skills, skill);
    if index == -1 then skills
    else
      SpliceOut(skills, index);
      assert forall i :: 0 <= i < |skills| - 1 ==> (skills[..index] + skills[index + 1..])[i] == skills[Shifted(index, i)] by {
        forall i | 0 <= i < |skills| - 1 {
          SpliceAt(skills, index, i);
        }
      }
      skills[..index] + skills[index + 1..]
  }

  /** The entry of `s[..k] + s[k + 1..]` at `i` is the entry of `s` at `i`, or at `i + 1` from `k` on. */
  function Shifted(k: nat, i: nat): nat {
    if i < k then i else i + 1
  }

  lemma SpliceAt(s: seq<string>, k: nat, i: nat)
    requires k < |s| && i < |s| - 1
    ensures (s[..k] + s[k + 1..])[i] == s[Shifted(k, i)]
  {
  }

  /** Splicing one entry out of a list: the rest keeps its order, and a good list stays good without that entry. */
  lemma SpliceOut(s: seq<string>, k: nat)
    requires k < |s|
    ensures multiset(s[..k] + s[k + 1..]) == multiset(s) - multiset{s[k]}
    ensures Good(s) ==> Good(s[..k] + s[k + 1..]) && s[k] !in s[..k] + s[k + 1..]
  {
    var r := s[..k] + s[k + 1..];
    assert s == s[..k] + [s[k]] + s[k + 1..];
    if Good(s) {
      forall i, j | 0 <= i < j < |r|
        ensures r[i] != r[j]
      {
        SpliceAt(s, k, i);
        SpliceAt(s, k, j);
      }
      forall i | 0 <= i < |r|
        ensures r[i] != s[k] && r[i] != "" && Trimmed(r[i])
      {
        SpliceAt(s, k, i);
      }
    }
  }

  /** Removing a skill that `addSkill` has just added gives back the list as it was. */
  lemma RemoveUndoesAdd(skills: seq<string>, input: string)
    requires AddStep(skills, input).0 == Added
    ensures Removed(AddStep(skills, input).1, Trim(input)) == skills
  {
  }

  /** The form's state: the global array `skills` (line 2) and the text of `skillsInput`. */
  class SkillForm {
    var skills: seq<string>
    var inputValue: string

    ghost predicate Valid()
      reads this
    {
      Good(skills)
    }

    constructor ()
      ensures Valid() && skills == [] && inputValue == ""
    {
      skills := [];
      inputValue := "";
    }

    /** `addSkill` (lines 21-34); `showMessage` is reported as the `LimitReached` outcome. */
    method AddSkill() returns (outcome: AddOutcome)
      requires Valid()
      modifies this
      ensures Valid()
      ensures (outcome, skills, inputValue) == AddStep(old(skills), old(inputValue))
    {
      var skill := Trim(inputValue);
      if skill != "" && skill !in skills {
        if |skills| >= MaxSkills {
          return LimitReached(LimitMessage);
        }
        skills := skills + [skill];
        inputValue := "";
        return Added;
      }
      return Ignored;
    }

    /** `removeSkill` (lines 45-48). */
    method RemoveSkill(skill: string)
      requires Valid()
      modifies this`skills
      ensures Valid()
      ensures skills == Removed(old(skills), skill)
    {
      var index := IndexOf(skills, skill);
      if index != -1 {
        skills := skills[..index] + skills[index + 1..];
      }
    }
  }
}
