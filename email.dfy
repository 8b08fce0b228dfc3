/** The e-mail pattern both contact forms use, `^[^\s@]+@[^\s@]+\.[^\s@]+$`:
    a deliberately simple shape, not the address grammar of RFC 5322. */
module EmailPattern {
  import opened Text

  /** A character of the class `[^\s@]`. */
  predicate IsWordChar(c: char)
  {
    !IsSpace(c) && c != '@'
  }

  /** `[^\s@]+`: a non-empty run of such characters. */
  predicate IsRun(s: string)
  {
    |s| > 0 && forall k :: 0 <= k < |s| ==> IsWordChar(s[k])
  }

  /** The part after the '@': two runs around some '.'. The runs may contain
      further dots, so the split can be at any '.' with a character on each side. */
  predicate IsDomain(d: string)
  {
    exists j | 0 <= j < |d| :: DotSplit(d, j)
  }

  /** Position j of the domain is a '.' with a run on each side. */
  predicate DotSplit(d: string, j: int)
  {
    0 <= j < |d| && d[j] == '.' && IsRun(d[..j]) && IsRun(d[j + 1..])
  }

  /** The pattern test, scanning for the split points. */
  predicate ValidEmail(s: string)
  {
    exists i | 0 <= i < |s| :: AtSplit(s, i)
  }

  /** Position i of the address is an '@' with a local run before it and a
      domain after it. */
  predicate AtSplit(s: string, i: int)
  {
    0 <= i < |s| && s[i] == '@' && IsRun(s[..i]) && IsDomain(s[i + 1..])
  }

  /** The pattern as the regular expression reads: local run, '@', run, '.', run. */
  ghost predicate MatchesPattern(s: string)
  {
    exists a, b, c :: IsRun(a) && IsRun(b) && IsRun(c) && s == a + "@" + b + "." + c
  }

  /** Any local run, '@', run, '.', run passes the scanning test. */
  lemma {:induction false} AssembledIsValid(a: string, b: string, c: string)
    requires IsRun(a) && IsRun(b) && IsRun(c)
    ensures ValidEmail(a + "@" + b + "." + c)
  {
    var d := b + "." + c;
    var s := a + "@" + b + "." + c;
    assert s == a + "@" + d;
    assert d[|b|] == '.' && d[..|b|] == b && d[|b| + 1..] == c;
    assert DotSplit(d, |b|);
    assert s[|a|] == '@' && s[..|a|] == a && s[|a| + 1..] == d;
    assert AtSplit(s, |a|);
  }

  /** A string that passes the scanning test splits into the three runs. */
  lemma {:induction false} ValidIsAssembled(s: string)
    requires ValidEmail(s)
    ensures MatchesPattern(s)
  {
    var i :| 0 <= i < |s| && AtSplit(s, i);
    var d := s[i + 1..];
    var j :| 0 <= j < |d| && DotSplit(d, j);
    SplitAround(s, i, '@');
    SplitAround(d, j, '.');
    JoinThree(s[..i], d, d[..j], d[j + 1..]);
    Witness(s, s[..i], d[..j], d[j + 1..]);
  }

  /** Three runs in place are a witness of the pattern. */
  lemma Witness(s: string, a: string, b: string, c: string)
    requires IsRun(a) && IsRun(b) && IsRun(c) && s == a + "@" + b + "." + c
    ensures MatchesPattern(s)
  {
  }

  /** A string is its part before position i, the character there, and the rest. */
  lemma SplitAround(s: string, i: nat, x: char)
    requires i < |s| && s[i] == x
    ensures s == s[..i] + [x] + s[i + 1..]
  {
  }

  /** Reassociates the two splits into the pattern's order. */
  lemma JoinThree(a: string, d: string, b: string, c: string)
    requires d == b + "." + c
    ensures a + "@" + d == a + "@" + b + "." + c
  {
  }

  /** The scanning test accepts exactly the strings the expression matches. */
  lemma {:induction false} ValidEmailMatchesPattern(s: string)
    ensures ValidEmail(s) <==> MatchesPattern(s)
  {
    if ValidEmail(s) {
      ValidIsAssembled(s);
    }
    if MatchesPattern(s) {
      var a, b, c :| IsRun(a) && IsRun(b) && IsRun(c) && s == a + "@" + b + "." + c;
      AssembledIsValid(a, b, c);
    }
  }

  /** A valid address has no white space and exactly one '@', with at least
      one character before it. */
  lemma {:induction false} ValidEmailShape(s: string)
    requires ValidEmail(s)
    ensures forall k :: 0 <= k < |s| ==> !IsSpace(s[k])
    ensures exists i :: 0 < i < |s| && s[i] == '@' && forall k :: 0 <= k < |s| && k != i ==> s[k] != '@'
  {
    var i :| 0 <= i < |s| && AtSplit(s, i);
    var d := s[i + 1..];
    var j :| 0 <= j < |d| && DotSplit(d, j);
    forall k | 0 <= k < |s| && k != i ensures IsWordChar(s[k]) {
      if k < i {
        assert s[k] == s[..i][k];
      } else if k - i - 1 < j {
        assert s[k] == d[..j][k - i - 1];
      } else if k - i - 1 > j {
        assert s[k] == d[j + 1..][k - i - 2 - j];
      } else {
        assert s[k] == d[j];
      }
    }
    assert i > 0;
  }

  /** Examples: an ordinary address passes, and so does a domain that starts
      with a dot, since the first run may itself end in one. */
  lemma {:induction false} AcceptedExamples()
    ensures ValidEmail("a@b.c")
    ensures ValidEmail("a@.b.c")
  {
    AssembledIsValid("a", "b", "c");
    assert "a" + "@" + "b" + "." + "c" == "a@b.c";
    AssembledIsValid("a", ".b", "c");
    assert "a" + "@" + ".b" + "." + "c" == "a@.b.c";
  }

  /** Examples: a missing dot, a second '@' or a space each fail. */
  lemma {:induction false} RejectedExamples()
    ensures !ValidEmail("a@b")
    ensures !ValidEmail("a@b@c.d")
    ensures !ValidEmail("a b@c.d")
  {
    ValidEmailNeedsOneAt("a@b@c.d", 1, 3);
    ValidEmailNoSpace("a b@c.d", 1);
  }

  /** A white-space character anywhere rules an address out. */
  lemma ValidEmailNoSpace(s: string, k: nat)
    requires k < |s| && IsSpace(s[k])
    ensures !ValidEmail(s)
  {
    if ValidEmail(s) {
      ValidEmailShape(s);
    }
  }

  /** Two '@' characters rule an address out. */
  lemma ValidEmailNeedsOneAt(s: string, i: nat, j: nat)
    requires i < j < |s| && s[i] == '@' && s[j] == '@'
    ensures !ValidEmail(s)
  {
    if ValidEmail(s) {
      ValidEmailShape(s);
    }
  }
}
