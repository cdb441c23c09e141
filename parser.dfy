/** The binding detector of the Frege interpreter.
    Both queries search the snippet text for the Java regular expression
    `(^|\s)NAME\s*=`, compiled with the MULTILINE flag and searched with
    `Matcher.find()`, where NAME is `z_display` or `z_main`.
    The regular expression is written out here as a predicate over the text
    (`Binds`), and the scan that answers the query is proved to decide it. */
module Parser {

  const DisplayName: string := "z_display"
  const MainName: string := "z_main"

  /** Java's predefined class `\s` (without UNICODE_CHARACTER_CLASS): [ \t\n\x0B\f\r]. */
  predicate IsSpace(c: char) {
    c == ' ' || c == '\t' || c == '\n' || c == '\U{000B}' || c == '\U{000C}' || c == '\r'
  }

  /** The line terminators that java.util.regex recognises when UNIX_LINES is not set. */
  predicate IsLineTerminator(c: char) {
    c == '\n' || c == '\r' || c == '\U{0085}' || c == '\U{2028}' || c == '\U{2029}'
  }

  /** Where `^` matches under MULTILINE: at the start of the input, or after a
      line terminator, except between the two halves of "\r\n" and except at
      the very end of the input. */
  predicate LineStart(text: string, i: nat)
    requires i <= |text|
  {
    i == 0 ||
    (IsLineTerminator(text[i - 1]) && i < |text| && !(text[i - 1] == '\r' && text[i] == '\n'))
  }

  /** The group `(^|\s)` can end at position i: `^` matches there, or the
      character before i is a `\s` character that the group consumes. */
  predicate Anchored(text: string, i: nat)
    requires i <= |text|
  {
    LineStart(text, i) || (i > 0 && IsSpace(text[i - 1]))
  }

  /** `\s*=` matches starting at position j. */
  ghost predicate EqualsAfterSpaces(text: string, j: nat) {
    exists k :: j <= k < |text| && text[k] == '=' && forall m :: j <= m < k ==> IsSpace(text[m])
  }

  /** The whole expression matches with NAME starting at position i. */
  ghost predicate BindsAt(text: string, name: string, i: nat) {
    i + |name| <= |text| && Anchored(text, i) && text[i..i + |name|] == name &&
    EqualsAfterSpaces(text, i + |name|)
  }

  /** `find()` succeeds: the expression matches somewhere in the text. */
  ghost predicate Binds(text: string, name: string) {
    exists i: nat :: BindsAt(text, name, i)
  }

  /** Consumes `\s*` greedily from position j. */
  method SkipSpaces(text: string, j: nat) returns (k: nat)
    requires j <= |text|
    ensures j <= k <= |text|
    ensures forall m :: j <= m < k ==> IsSpace(text[m])
    ensures k < |text| ==> !IsSpace(text[k])
  {
    k := j;
    while k < |text| && IsSpace(text[k])
      invariant j <= k <= |text|
      invariant forall m :: j <= m < k ==> IsSpace(text[m])
    {
      k := k + 1;
    }
  }

  /** After the greedy `\s*`, `=` must follow at once: backtracking into the
      run of spaces never helps, since `=` is not a space. */
  lemma {:induction false} EqualsAfterSpacesAtRunEnd(text: string, j: nat, k: nat)
    requires j <= k <= |text|
    requires forall m :: j <= m < k ==> IsSpace(text[m])
    requires k < |text| ==> !IsSpace(text[k])
    ensures EqualsAfterSpaces(text, j) <==> k < |text| && text[k] == '='
  {
  }

  /** Tries the expression with NAME at position i. */
  method MatchesAt(text: string, name: string, i: nat) returns (b: bool)
    ensures b <==> BindsAt(text, name, i)
  {
    if i + |name| > |text| || !Anchored(text, i) || text[i..i + |name|] != name {
      return false;
    }
    var k := SkipSpaces(text, i + |name|);
    EqualsAfterSpacesAtRunEnd(text, i + |name|, k);
    b := k < |text| && text[k] == '=';
  }

  /** `Matcher.find()`: scans the start positions from left to right and
      reports the first one at which the expression matches. */
  method Find(text: string, name: string) returns (found: bool, at: nat)
    ensures found <==> Binds(text, name)
    ensures found ==> BindsAt(text, name, at)
    ensures found ==> forall i: nat :: i < at ==> !BindsAt(text, name, i)
  {
    var i := 0;
    while i <= |text|
      invariant i <= |text| + 1
      invariant forall p: nat :: p < i ==> !BindsAt(text, name, p)
    {
      var b := MatchesAt(text, name, i);
      if b {
        return true, i;
      }
      i := i + 1;
    }
    assert forall p: nat :: !BindsAt(text, name, p) by {
      forall p: nat ensures !BindsAt(text, name, p) {
        if p > |text| {
          assert p + |name| > |text|;
        }
      }
    }
    return false, 0;
  }

  /** `Parser.hasDisplay`: the text binds `z_display` at the top level. */
  method HasDisplay(script: string) returns (r: bool)
    ensures r <==> Binds(script, DisplayName)
  {
    var at;
    r, at := Find(script, DisplayName);
  }

  /** `Parser.hasMain`: the text binds `z_main` at the top level. */
  method HasMain(script: string) returns (r: bool)
    ensures r <==> Binds(script, MainName)
  {
    var at;
    r, at := Find(script, MainName);
  }
}
