/** Properties of the binding rule `(^|\s)NAME\s*=`. */
module ParserProperties {
  import opened Parser

  /** The literal is compared character by character, with no case folding:
      each character of NAME is found at its place in the text. */
  lemma {:induction false} LiteralAt(text: string, name: string, i: nat, j: nat)
    requires BindsAt(text, name, i)
    requires j < |name|
    ensures text[i + j] == name[j]
  {
  }

  /** Without an `=` in the text nothing is bound: the bare name never matches. */
  lemma {:induction false} NoEqualsNoBinding(text: string, name: string)
    requires forall k :: 0 <= k < |text| ==> text[k] != '='
    ensures !Binds(text, name)
  {
  }

  /** A text in which some character of NAME never occurs binds nothing;
      with no case folding, `Z_MAIN=` is such a text for `z_main`. */
  lemma {:induction false} LiteralAbsentNoBinding(text: string, name: string, j: nat)
    requires j < |name|
    requires name[j] !in text
    ensures !Binds(text, name)
  {
  }

  /** The empty snippet binds neither name. */
  lemma {:induction false} EmptyBindsNothing(name: string)
    ensures !Binds("", name)
  {
  }

  /** The search is existential: text appended after a match leaves it in place. */
  lemma {:induction false} AppendKeepsBinding(text: string, suffix: string, name: string)
    requires Binds(text, name)
    ensures Binds(text + suffix, name)
  {
    var i: nat :| BindsAt(text, name, i);
    var t := text + suffix;
    var k :| i + |name| <= k < |text| && text[k] == '=' &&
      forall m :: i + |name| <= m < k ==> IsSpace(text[m]);
    assert t[..|text|] == text;
    assert t[i..i + |name|] == text[i..i + |name|];
    assert forall m :: i + |name| <= m < k ==> IsSpace(t[m]);
    assert t[k] == '=';
    assert EqualsAfterSpaces(t, i + |name|);
    assert Anchored(t, i);
    assert BindsAt(t, name, i);
  }

  /** Text placed before a match keeps it when that text is empty or ends in
      a space or a line terminator, which is what lets the anchor hold again. */
  lemma {:induction false} PrependKeepsBinding(prefix: string, text: string, name: string)
    requires Binds(text, name)
    requires prefix == [] || IsSpace(prefix[|prefix| - 1]) || IsLineTerminator(prefix[|prefix| - 1])
    ensures Binds(prefix + text, name)
  {
    var i: nat :| BindsAt(text, name, i);
    ShiftedAnchor(prefix, text, i);
    ShiftedTail(prefix, text, name, i);
    assert BindsAt(prefix + text, name, |prefix| + i);
  }

  /** The literal and the `\s*=` after it survive a prefix. */
  lemma {:induction false} ShiftedTail(prefix: string, text: string, name: string, i: nat)
    requires BindsAt(text, name, i)
    ensures (prefix + text)[|prefix| + i..|prefix| + i + |name|] == name
    ensures EqualsAfterSpaces(prefix + text, |prefix| + i + |name|)
  {
    var t, p := prefix + text, |prefix|;
    var k :| i + |name| <= k < |text| && text[k] == '=' &&
      forall m :: i + |name| <= m < k ==> IsSpace(text[m]);
    assert t[p + i..p + i + |name|] == text[i..i + |name|];
    assert forall m :: p + i + |name| <= m < p + k ==> t[m] == text[m - p];
    assert t[p + k] == '=';
  }

  /** The anchor survives a prefix that is empty or ends the line or a space. */
  lemma {:induction false} ShiftedAnchor(prefix: string, text: string, i: nat)
    requires i < |text| && Anchored(text, i)
    requires prefix == [] || IsSpace(prefix[|prefix| - 1]) || IsLineTerminator(prefix[|prefix| - 1])
    ensures Anchored(prefix + text, |prefix| + i)
  {
  }

  /** Whatever follows NAME must be a space or `=`: a longer identifier such
      as `z_maintain` never counts as a binding of `z_main`. */
  lemma {:induction false} NameMustEndTheIdentifier(text: string, name: string, i: nat)
    requires BindsAt(text, name, i)
    ensures i + |name| < |text|
    ensures IsSpace(text[i + |name|]) || text[i + |name|] == '='
  {
  }

  /** What comes before NAME must be the start of the text, a space or a line
      terminator: `zz_main=` does not bind `z_main`. */
  lemma {:induction false} NameMustStartTheIdentifier(text: string, name: string, i: nat)
    requires BindsAt(text, name, i)
    ensures i == 0 || IsSpace(text[i - 1]) || IsLineTerminator(text[i - 1])
  {
  }

  /** The texts the tests of `hasMain` expect to be rejected. */
  lemma MainRejected()
    ensures !Binds("", MainName)
    ensures !Binds("zz_main=", MainName)
    ensures !Binds("z_maintain=", MainName)
    ensures !Binds("z_main", MainName)
  {
    EmptyBindsNothing(MainName);
    Rejects("zz_main=", MainName);
    Rejects("z_maintain=", MainName);
    NoEqualsNoBinding("z_main", MainName);
  }

  /** The texts the tests of `hasMain` expect to be accepted. */
  lemma MainAccepted()
    ensures Binds("z_main=", MainName)
    ensures Binds("z_main =", MainName)
    ensures Binds("\nz_main\n=", MainName)
  {
    assert Binds("z_main=", MainName) by {
      assert "z_main="[0..6] == MainName;
      Accepts("z_main=", MainName, 0, 6);
    }
    assert Binds("z_main =", MainName) by {
      assert "z_main ="[0..6] == MainName;
      Accepts("z_main =", MainName, 0, 7);
    }
    assert Binds("\nz_main\n=", MainName) by {
      assert "\nz_main\n="[1..7] == MainName;
      Accepts("\nz_main\n=", MainName, 1, 8);
    }
  }

  /** The texts the tests of `hasDisplay` expect to be rejected. */
  lemma DisplayRejected()
    ensures !Binds("", DisplayName)
    ensures !Binds("zz_display=", DisplayName)
    ensures !Binds("z_displayy=", DisplayName)
    ensures !Binds("z_display", DisplayName)
  {
    EmptyBindsNothing(DisplayName);
    Rejects("zz_display=", DisplayName);
    Rejects("z_displayy=", DisplayName);
    NoEqualsNoBinding("z_display", DisplayName);
  }

  /** The texts the tests of `hasDisplay` expect to be accepted. */
  lemma DisplayAccepted()
    ensures Binds("z_display=", DisplayName)
    ensures Binds("z_display =", DisplayName)
    ensures Binds("\nz_display\n=", DisplayName)
  {
    assert Binds("z_display=", DisplayName) by {
      assert "z_display="[0..9] == DisplayName;
      Accepts("z_display=", DisplayName, 0, 9);
    }
    assert Binds("z_display =", DisplayName) by {
      assert "z_display ="[0..9] == DisplayName;
      Accepts("z_display =", DisplayName, 0, 10);
    }
    assert Binds("\nz_display\n=", DisplayName) by {
      assert "\nz_display\n="[1..10] == DisplayName;
      Accepts("\nz_display\n=", DisplayName, 1, 11);
    }
  }

  /** Matching is case-sensitive. */
  lemma CaseSensitive()
    ensures !Binds("Z_MAIN=", MainName)
    ensures !Binds("Z_DISPLAY=", DisplayName)
  {
    LiteralAbsentNoBinding("Z_MAIN=", MainName, 0);
    LiteralAbsentNoBinding("Z_DISPLAY=", DisplayName, 0);
  }

  /** A witness that NAME binds at position i with its `=` at position k. */
  lemma Accepts(text: string, name: string, i: nat, k: nat)
    requires i + |name| <= k < |text| && text[k] == '='
    requires Anchored(text, i) && text[i..i + |name|] == name
    requires forall m :: i + |name| <= m < k ==> IsSpace(text[m])
    ensures Binds(text, name)
  {
    assert BindsAt(text, name, i);
  }

  /** A concrete text binds nothing when no start position passes the literal,
      anchor and identifier-end checks. */
  lemma Rejects(text: string, name: string)
    requires |name| > 0
    requires forall i: nat :: i + |name| <= |text| ==>
      !Anchored(text, i) || text[i..i + |name|] != name ||
      (i + |name| < |text| && !IsSpace(text[i + |name|]) && text[i + |name|] != '=') ||
      i + |name| == |text|
    ensures !Binds(text, name)
  {
  }

  /** A definition line followed by a `z_display` binding. */
  lemma DisplayScenario()
    ensures Binds("my_func x y = x * y\n" + "z_display = my_func 2 7", DisplayName)
  {
    Accepts("z_display = my_func 2 7", DisplayName, 0, 10);
    PrependKeepsBinding("my_func x y = x * y\n", "z_display = my_func 2 7", DisplayName);
  }

  /** A definition line followed by a `z_main` binding. */
  lemma MainScenario()
    ensures Binds("my_func = 123\n" + "z_main = my_func", MainName)
  {
    Accepts("z_main = my_func", MainName, 0, 7);
    PrependKeepsBinding("my_func = 123\n", "z_main = my_func", MainName);
  }

  /** The same snippet has no `z_display` binding, so `z_main` is the fallback. */
  lemma MainScenarioHasNoDisplay()
    ensures !Binds("my_func = 123\n" + "z_main = my_func", DisplayName)
  {
    assert DisplayName[2] == 'd' && 'd' !in "my_func = 123\n" + "z_main = my_func";
    LiteralAbsentNoBinding("my_func = 123\n" + "z_main = my_func", DisplayName, 2);
  }

  /** Comment lines before a `z_display` binding leave it detected. */
  lemma CommentScenario()
    ensures Binds("-- comment comment comment\n{- comment comment comment\n   comment comment comment -}\n" + "z_display = 42", DisplayName)
  {
    Accepts("z_display = 42", DisplayName, 0, 10);
    PrependKeepsBinding("-- comment comment comment\n{- comment comment comment\n   comment comment comment -}\n", "z_display = 42", DisplayName);
  }

  /** The detector does not know comments: a binding inside a line comment
      still counts. */
  lemma CommentedBindingCounts()
    ensures Binds("-- z_main = 1", MainName)
  {
    Accepts("-- z_main = 1", MainName, 3, 10);
  }
}
