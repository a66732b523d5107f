/** The address pattern of the user schema's `match` validator,
    `^\w+([\.-]?\w+)*@\w+([\.-]?\w+)*(\.\w{2,3})+$`, as predicates over
    the characters: a dotted word, an `@`, a dotted word and a chain of
    two- or three-character top-level labels. */
module EmailPattern {
  import Strings

  /** `\w`. */
  predicate IsWordChar(c: char)
  {
    'a' <= c <= 'z' || 'A' <= c <= 'Z' || '0' <= c <= '9' || c == '_'
  }

  /** `[\.-]`. */
  predicate IsSeparator(c: char)
  {
    c == '.' || c == '-'
  }

  predicate AllWord(s: string)
  {
    forall k :: 0 <= k < |s| ==> IsWordChar(s[k])
  }

  /** `\w+([\.-]?\w+)*`: word characters and single separators, starting
      and ending with a word character. */
  predicate IsDottedWord(s: string)
  {
    && s != ""
    && IsWordChar(s[0]) && IsWordChar(s[|s| - 1])
    && (forall k :: 0 <= k < |s| ==> IsWordChar(s[k]) || IsSeparator(s[k]))
    && (forall k :: 0 <= k < |s| - 1 ==> !(IsSeparator(s[k]) && IsSeparator(s[k + 1])))
  }

  /** `(\.\w{2,3})+`. */
  predicate IsLabelChain(t: string)
    decreases |t|
  {
    && |t| >= 3 && t[0] == '.'
    && ((AllWord(t[1..3]) && (|t| == 3 || IsLabelChain(t[3..])))
        || (|t| >= 4 && AllWord(t[1..4]) && (|t| == 4 || IsLabelChain(t[4..]))))
  }

  /** The part after `@`: a dotted word followed by a label chain. */
  predicate IsDomain(d: string)
  {
    exists j :: 0 < j < |d| && IsDottedWord(d[..j]) && IsLabelChain(d[j..])
  }

  /** The whole pattern, anchored at both ends. */
  predicate Matches(s: string)
  {
    exists i :: 0 <= i < |s| && s[i] == '@' && IsDottedWord(s[..i]) && IsDomain(s[i + 1..])
  }

  /** Every character of a label chain is a word character or a dot, and it ends in a word character. */
  lemma {:induction false} LabelChainChars(t: string)
    requires IsLabelChain(t)
    ensures forall k :: 0 <= k < |t| ==> IsWordChar(t[k]) || t[k] == '.'
    ensures IsWordChar(t[|t| - 1])
    decreases |t|
  {
    var n := if AllWord(t[1..3]) && (|t| == 3 || IsLabelChain(t[3..])) then 3 else 4;
    assert AllWord(t[1..n]);
    forall k | 0 < k < n ensures IsWordChar(t[k]) {
      assert t[k] == t[1..n][k - 1];
    }
    if |t| > n {
      LabelChainChars(t[n..]);
      forall k | n <= k < |t| ensures IsWordChar(t[k]) || t[k] == '.' {
        assert t[k] == t[n..][k - n];
      }
      assert t[|t| - 1] == t[n..][|t| - 1 - n];
    }
  }

  /** A matching address holds exactly one `@` and no white space at either
      end, so the `trim` setter leaves it as it is. */
  lemma MatchShape(s: string, i: nat)
    requires i < |s| && s[i] == '@' && IsDottedWord(s[..i]) && IsDomain(s[i + 1..])
    ensures Strings.IsTrimmed(s)
    ensures '@' !in s[..i] && '@' !in s[i + 1..]
  {
    var d := s[i + 1..];
    var j :| 0 < j < |d| && IsDottedWord(d[..j]) && IsLabelChain(d[j..]);
    DomainChars(d, j);
    NoAtInDotted(s[..i]);
    assert s[0] == s[..i][0];
    assert s[|s| - 1] == d[|d| - 1];
  }

  lemma NoAtInDotted(s: string)
    requires IsDottedWord(s)
    ensures '@' !in s
  {
    forall k | 0 <= k < |s| ensures s[k] != '@' {
      assert IsWordChar(s[k]) || IsSeparator(s[k]);
    }
  }

  lemma DomainChars(d: string, j: nat)
    requires 0 < j < |d| && IsDottedWord(d[..j]) && IsLabelChain(d[j..])
    ensures '@' !in d && IsWordChar(d[|d| - 1])
  {
    var t := d[j..];
    LabelChainChars(t);
    assert d[|d| - 1] == t[|t| - 1];
    forall k | 0 <= k < |d| ensures d[k] != '@' {
      if k < j {
        assert d[k] == d[..j][k];
        assert IsWordChar(d[..j][k]) || IsSeparator(d[..j][k]);
      } else {
        assert d[k] == t[k - j];
      }
    }
  }

  /** An ordinary address matches. */
  lemma ExampleMatches()
    ensures Matches("ann@pets.org")
  {
    var s := "ann@pets.org";
    var d := s[4..];
    assert d[..4] == "pets" && d[4..] == ".org";
    assert AllWord(d[4..][1..4]);
    assert IsLabelChain(d[4..]);
    assert IsDottedWord(d[..4]);
    assert IsDomain(d);
    assert s[..3] == "ann";
    assert IsDottedWord(s[..3]);
  }

  /** A host without a top-level label does not match. */
  lemma ExampleWithoutLabelFails()
    ensures !Matches("ann@local")
  {
    var s := "ann@local";
    forall i | 0 <= i < |s| && s[i] == '@'
      ensures !IsDomain(s[i + 1..])
    {
      var d := s[i + 1..];
      assert d == "local";
      forall j | 0 < j < |d| ensures !IsLabelChain(d[j..]) {
        assert d[j..][0] == d[j];
      }
    }
  }
}
