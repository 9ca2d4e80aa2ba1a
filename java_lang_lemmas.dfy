/** What the library model promises: each operation against its partner. */
module JavaLangLemmas {
  import opened Wrappers
  import opened JavaLang

  /** Joining the pieces with single spaces gives back the string. */
  lemma {:induction false} JoinFields(s: string)
    ensures Join(Fields(s)) == s
  {
    if s == [] {
    } else if s[0] == ' ' {
      JoinFields(s[1..]);
      assert Fields(s)[1..] == Fields(s[1..]);
    } else {
      var f := Fields(s[1..]);
      JoinFields(s[1..]);
      if |f| == 1 {
      } else {
        assert Fields(s)[1..] == f[1..];
        assert Join(f) == f[0] + [' '] + Join(f[1..]);
      }
    }
  }

  /** The first piece of `Fields(s)` is the text before the first space. */
  lemma {:induction false} FieldsHead(s: string)
    ensures |Fields(s)[0]| <= |s| && s[..|Fields(s)[0]|] == Fields(s)[0]
    ensures |Fields(s)[0]| < |s| ==> s[|Fields(s)[0]|] == ' '
  {
    if s != [] && s[0] != ' ' {
      FieldsHead(s[1..]);
    }
  }

  /** `Fields(s)` is all empty pieces exactly when `s` is made only of spaces. */
  lemma {:induction false} FieldsAllEmpty(s: string)
    ensures AllSpaces(s) ==> forall k :: 0 <= k < |Fields(s)| ==> Fields(s)[k] == ""
    ensures (forall k :: 0 <= k < |Fields(s)| ==> Fields(s)[k] == "") ==> AllSpaces(s)
  {
    if s == [] {
    } else if s[0] == ' ' {
      FieldsAllEmpty(s[1..]);
      var f := Fields(s[1..]);
      assert Fields(s) == [""] + f;
      assert AllSpaces(s) <==> AllSpaces(s[1..]) by {
        if AllSpaces(s[1..]) {
          forall i | 0 <= i < |s| ensures s[i] == ' ' {
            if i > 0 { assert s[i] == s[1..][i - 1]; }
          }
        }
      }
      if forall k :: 0 <= k < |f| ==> f[k] == "" {
        assert forall k :: 0 <= k < |Fields(s)| ==> Fields(s)[k] == "" by {
          forall k | 0 <= k < |Fields(s)| ensures Fields(s)[k] == "" {
            if k > 0 { assert Fields(s)[k] == f[k - 1]; }
          }
        }
      } else {
        var k :| 0 <= k < |f| && f[k] != "";
        assert Fields(s)[k + 1] == f[k];
      }
    } else {
      assert Fields(s)[0] != "";
      assert !AllSpaces(s) by { assert s[0] != ' '; }
    }
  }

  /**
   * `split(" ")` returns no piece at all exactly for a non-empty string made
   * only of spaces (the case in which `lineArgs[0]` throws).
   */
  lemma SplitEmptyIff(s: string)
    ensures Split(s) == [] <==> |s| > 0 && AllSpaces(s)
  {
    FieldsAllEmpty(s);
    if NoSpace(s) {
      assert |s| > 0 ==> !AllSpaces(s) by { if |s| > 0 { assert s[0] != ' '; } }
    } else {
      var fs := Fields(s);
      var r := StripTrailingEmpty(fs);
      if r == [] {
        assert forall k :: 0 <= k < |Fields(s)| ==> Fields(s)[k] == "";
      } else {
        assert fs[|r| - 1] == r[|r| - 1] != "";
      }
    }
  }

  /**
   * The first piece of `split(" ")`, when there is one, is the text before
   * the first space of `s` (all of `s` when it has none).
   */
  lemma SplitHead(s: string)
    requires Split(s) != []
    ensures |Split(s)[0]| <= |s| && s[..|Split(s)[0]|] == Split(s)[0]
    ensures |Split(s)[0]| < |s| ==> s[|Split(s)[0]|] == ' '
  {
    if !NoSpace(s) {
      FieldsHead(s);
    }
  }

  /** A word followed by a space is the first piece, whatever follows. */
  lemma SplitFirstWord(w: string, rest: string)
    requires w != "" && NoSpace(w)
    ensures Split(w + " " + rest) != [] && Split(w + " " + rest)[0] == w
  {
    var line := w + " " + rest;
    assert line[|w|] == ' ';
    assert line[0] == w[0] != ' ';
    SplitEmptyIff(line);
    SplitHead(line);
    var tok := Split(line)[0];
    assert tok == line[..|w|] == w;
  }

  /** A string without a space is a single piece. */
  lemma {:induction false} FieldsOne(s: string)
    requires NoSpace(s)
    ensures Fields(s) == [s]
  {
    if s != [] {
      assert NoSpace(s[1..]) by {
        forall i | 0 <= i < |s[1..]| ensures s[1..][i] != ' ' {
          assert s[1..][i] == s[i + 1];
        }
      }
      FieldsOne(s[1..]);
      assert [s[0]] + s[1..] == s;
    }
  }

  /**
   * The pieces of `split(" ")` are the leading pieces of `Fields`, and only
   * empty ones are dropped: a line without a space is its own single piece,
   * and a line with one loses all its trailing empty pieces.
   */
  lemma SplitIsFieldsPrefix(s: string)
    ensures Split(s) == Fields(s)[..|Split(s)|]
    ensures forall k :: |Split(s)| <= k < |Fields(s)| ==> Fields(s)[k] == ""
    ensures NoSpace(s) ==> Split(s) == [s]
    ensures !NoSpace(s) ==> Split(s) == [] || Split(s)[|Split(s)| - 1] != ""
  {
    if NoSpace(s) {
      FieldsOne(s);
    }
  }

  /** Digits of a value read back as that value. */
  lemma {:induction false} DigitsValueOfNatDigits(n: nat)
    ensures DigitsValue(NatDigits(n)) == n
  {
    if n >= 10 {
      DigitsValueOfNatDigits(n / 10);
      var s := NatDigits(n);
      assert s[..|s| - 1] == NatDigits(n / 10);
    }
  }

  /** `Integer.parseInt(Integer.toString(n)) == n` for every `int`. */
  lemma ParseIntToString(n: Int32)
    ensures ParseInt(IntToString(n)) == Some(n)
  {
    if n < 0 {
      DigitsValueOfNatDigits(-(n as int));
      var s := IntToString(n);
      assert s[1..] == NatDigits(-(n as int));
    } else {
      DigitsValueOfNatDigits(n);
      assert NatDigits(n)[0] != '-' && NatDigits(n)[0] != '+';
    }
  }

  /** What `ParseInt` accepts: a sign, or none, followed by one digit or more, with the value in range. */
  lemma ParseIntAccepts(s: string)
    ensures ParseInt(s).Some? ==>
      |s| >= 1 &&
      var digits := if s[0] == '-' || s[0] == '+' then s[1..] else s;
      |digits| >= 1 && AllDigits(digits) &&
      ParseInt(s).value == (if s[0] == '-' then -(DigitsValue(digits) as int) else DigitsValue(digits))
    ensures ParseInt("") == None && ParseInt("-") == None && ParseInt("+") == None
  {
  }

  /**
   * What `ParseInt` rejects among well-formed arguments: an optional sign and
   * one digit or more are read as their signed value, leading zeros, `+` and
   * `-0` included, exactly when that value fits in an `int`.
   */
  lemma ParseIntOfDigits(d: string)
    requires |d| >= 1 && AllDigits(d)
    ensures ParseInt(d) == (if InInt32(DigitsValue(d)) then Some(DigitsValue(d) as Int32) else None)
    ensures ParseInt("+" + d) == (if InInt32(DigitsValue(d)) then Some(DigitsValue(d) as Int32) else None)
    ensures ParseInt("-" + d) == (if InInt32(-(DigitsValue(d) as int)) then Some(-(DigitsValue(d) as int) as Int32) else None)
  {
    assert IsDigit(d[0]);
    assert ("+" + d)[1..] == d;
    assert ("-" + d)[1..] == d;
  }

  /** Multiplying an indent by ten wraps only beyond 214748364 in magnitude. */
  lemma TenTimesInRange(n: Int32)
    requires -214748364 <= n <= 214748364
    ensures Wrap32(10 * n) == 10 * n
  {
  }
}
