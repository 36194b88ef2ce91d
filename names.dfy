/**
 * First-name extraction in `processDeal`: the person's name is split on the
 * single space character, as JavaScript's `String.prototype.split(' ')` does,
 * and the first token is the greeting name.
 */
module Names {

  const SPACE := ' '

  /** Puts the separator back between consecutive tokens: the inverse of `Split`. */
  function Join(tokens: seq<string>, sep: char): (s: string) {
    if |tokens| == 0 then ""
    else if |tokens| == 1 then tokens[0]
    else tokens[0] + [sep] + Join(tokens[1..], sep)
  }

  /** No token contains the separator. */
  predicate SeparatorFree(tokens: seq<string>, sep: char) {
    forall i :: 0 <= i < |tokens| ==> sep !in tokens[i]
  }

  /**
   * `s.split(sep)` for a one-character separator: the maximal runs between
   * separators, so an empty string gives one empty token and two adjacent
   * separators give an empty token between them.
   */
  function Split(s: string, sep: char): (tokens: seq<string>)
    ensures |tokens| >= 1
    ensures SeparatorFree(tokens, sep)
    ensures Join(tokens, sep) == s
    decreases |s|
  {
    if s == [] then [""]
    else
      var rest := Split(s[1..], sep);
      if s[0] == sep then
        assert s == [sep] + s[1..];
        [""] + rest
      else
        var tokens := [[s[0]] + rest[0]] + rest[1..];
        assert tokens[1..] == rest[1..];
        assert s == [s[0]] + s[1..];
        tokens
  }

  /** Splitting a joined list of separator-free tokens gives the tokens back. */
  lemma {:induction false} SplitJoin(tokens: seq<string>, sep: char)
    requires |tokens| >= 1 && SeparatorFree(tokens, sep)
    ensures Split(Join(tokens, sep), sep) == tokens
    decreases |Join(tokens, sep)|, |tokens|
  {
    var t := tokens[0];
    if |tokens| == 1 {
      SplitToken(t, sep);
    } else {
      SplitJoin(tokens[1..], sep);
      SplitConsToken(t, Join(tokens[1..], sep), sep);
      assert tokens == [t] + tokens[1..];
    }
  }

  /** A separator-free string is a single token. */
  lemma {:induction false} SplitToken(t: string, sep: char)
    requires sep !in t
    ensures Split(t, sep) == [t]
    decreases |t|
  {
    if t != [] {
      SplitToken(t[1..], sep);
      assert [t[0]] + t[1..] == t;
    }
  }

  /** Splitting `t + sep + rest` for a separator-free `t` puts `t` in front of the split of `rest`. */
  lemma {:induction false} SplitConsToken(t: string, rest: string, sep: char)
    requires sep !in t
    ensures Split(t + [sep] + rest, sep) == [t] + Split(rest, sep)
    decreases |t|
  {
    if t == [] {
      assert t + [sep] + rest == [sep] + rest;
      assert ([sep] + rest)[1..] == rest;
    } else {
      var s := t + [sep] + rest;
      assert s[0] == t[0] && s[1..] == t[1..] + [sep] + rest;
      SplitConsToken(t[1..], rest, sep);
      assert [t[0]] + t[1..] == t;
    }
  }

  /**
   * `person.name.split(' ')[0]`: the part of the name before its first space,
   * or the whole name when it has none.
   */
  function FirstName(name: string): (first: string)
    ensures first <= name
    ensures SPACE !in first
    ensures |first| < |name| ==> name[|first|] == SPACE
  {
    var tokens := Split(name, SPACE);
    JoinHead(tokens, SPACE);
    tokens[0]
  }

  /** The first token of a join is a prefix of it, followed by the separator unless it is all of it. */
  lemma JoinHead(tokens: seq<string>, sep: char)
    requires |tokens| >= 1
    ensures tokens[0] <= Join(tokens, sep)
    ensures |tokens[0]| < |Join(tokens, sep)| ==> Join(tokens, sep)[|tokens[0]|] == sep
  {
    if |tokens| > 1 {
      var j := Join(tokens, sep);
      assert j == tokens[0] + ([sep] + Join(tokens[1..], sep));
    }
  }

  /** A name without a space is its own first name. */
  lemma FirstNameOfSingleToken(name: string)
    requires SPACE !in name
    ensures FirstName(name) == name
  {
  }

  /** The first name is the whole text before the first space of "first rest". */
  lemma FirstNameOfTwoParts(first: string, rest: string)
    requires SPACE !in first
    ensures FirstName(first + [SPACE] + rest) == first
  {
    SplitConsToken(first, rest, SPACE);
  }

  /** Two sample names: "Jane Doe" greets Jane and "Madonna" greets Madonna. */
  lemma FirstNameExamples()
    ensures FirstName("Jane Doe") == "Jane"
    ensures FirstName("Madonna") == "Madonna"
  {
    FirstNameOfTwoParts("Jane", "Doe");
    assert "Jane" + [SPACE] + "Doe" == "Jane Doe";
  }
}
