/**
 * Recognition of the infinite-loop header that the code instrumenter looks for.
 *
 * The orchestrator searches the submitted program with the regular expression
 *
 *   [^ ]while\s*\(\s*True\s*\)\s*:  |  [^ ]while\s*True\s*:
 *   [^ ]while\s*1\s*:               |  [^ ]while\s*\(\s*1\s*\)\s*:
 *
 * Each alternative is written here as a list of tokens.  `Ends` gives the
 * meaning of such a list the way a backtracking matcher sees it (every end
 * position any choice of whitespace runs can reach); `Scan` is the hand-written
 * recognizer, which never backtracks and always swallows a whole whitespace
 * run.  The two agree because, in every alternative, a whitespace run is
 * followed by a literal that starts with a non-space character.
 */
module LoopHeader {
  import opened Base
  import opened Strings

  /** Python's `\s` on text patterns: the characters for which `str.isspace()` holds. */
  predicate IsSpace(ch: char) {
    || ch == ' '
    || ('\U{9}' <= ch <= '\U{D}')
    || ('\U{1C}' <= ch <= '\U{1F}')
    || ch == '\U{85}' || ch == '\U{A0}' || ch == '\U{1680}'
    || ('\U{2000}' <= ch <= '\U{200A}')
    || ch == '\U{2028}' || ch == '\U{2029}' || ch == '\U{202F}' || ch == '\U{205F}' || ch == '\U{3000}'
  }

  /** Every character of `c` in `[a, b)` is whitespace. */
  predicate SpacesBetween(c: string, a: nat, b: nat)
    requires a <= b <= |c|
  {
    forall k :: a <= k < b ==> IsSpace(c[k])
  }

  /** One element of an alternative: `[^ ]`, a literal, or `\s*`. */
  datatype Token = NotBlank | Lit(text: string) | Spaces

  const Head: seq<Token> := [NotBlank, Lit("while"), Spaces]

  /** The four alternatives, in the order the regular expression lists them. */
  const Colon: seq<Token> := [Spaces, Lit(":")]
  const CloseParen: seq<Token> := [Spaces, Lit(")")] + Colon
  const ParenTrueTail: seq<Token> := [Lit("(")] + ([Spaces] + ([Lit("True")] + CloseParen))
  const BareTrueTail: seq<Token> := [Lit("True")] + Colon
  const BareOneTail: seq<Token> := [Lit("1")] + Colon
  const ParenOneTail: seq<Token> := [Lit("(")] + ([Spaces] + ([Lit("1")] + CloseParen))
  const ParenTrue: seq<Token> := Head + ParenTrueTail
  const BareTrue: seq<Token> := Head + BareTrueTail
  const BareOne: seq<Token> := Head + BareOneTail
  const ParenOne: seq<Token> := Head + ParenOneTail
  const Alternatives: seq<seq<Token>> := [ParenTrue, BareTrue, BareOne, ParenOne]

  /**
   * The reference meaning of a token list: every position `e` such that
   * `c[a..e]` matches `p` for SOME split of the whitespace runs.
   */
  ghost function Ends(c: string, a: nat, p: seq<Token>): set<nat>
    decreases |p|
  {
    if a > |c| then {}
    else if p == [] then {a}
    else match p[0]
      case NotBlank => if a < |c| && c[a] != ' ' then Ends(c, a + 1, p[1..]) else {}
      case Lit(t) => if OccursAt(c, t, a) then Ends(c, a + |t|, p[1..]) else {}
      case Spaces => set b, e | a <= b <= |c| && SpacesBetween(c, a, b) && e in Ends(c, b, p[1..]) :: e
  }

  /** Every end a backtracking matcher can reach at `i`, over all four alternatives. */
  ghost function RegexEnds(c: string, i: nat): set<nat> {
    Ends(c, i, ParenTrue) + Ends(c, i, BareTrue) + Ends(c, i, BareOne) + Ends(c, i, ParenOne)
  }

  /** The end of the maximal whitespace run starting at `a`. */
  function SkipSpaces(c: string, a: nat): (b: nat)
    requires a <= |c|
    ensures a <= b <= |c| && SpacesBetween(c, a, b)
    ensures b < |c| ==> !IsSpace(c[b])
    decreases |c| - a
  {
    if a < |c| && IsSpace(c[a]) then SkipSpaces(c, a + 1) else a
  }

  /** The hand-written recognizer: match `p` at `a` greedily, never backtracking. */
  function Scan(c: string, a: nat, p: seq<Token>): (r: Option<nat>)
    requires a <= |c|
    ensures r.Some? ==> a <= r.value <= |c|
    decreases |p|
  {
    if p == [] then Some(a)
    else match p[0]
      case NotBlank => if a < |c| && c[a] != ' ' then Scan(c, a + 1, p[1..]) else None
      case Lit(t) => if OccursAt(c, t, a) then Scan(c, a + |t|, p[1..]) else None
      case Spaces => Scan(c, SkipSpaces(c, a), p[1..])
  }

  /** Every whitespace run in `p` is followed by a literal that starts with a non-space. */
  predicate WellSeparated(p: seq<Token>) {
    forall k :: 0 <= k < |p| && p[k].Spaces? ==>
      k + 1 < |p| && p[k + 1].Lit? && |p[k + 1].text| > 0 && !IsSpace(p[k + 1].text[0])
  }

  function AsSet(r: Option<nat>): set<nat> {
    if r.Some? then {r.value} else {}
  }

  /** If a list that opens with a literal matches at `b`, the literal is at `b`. */
  lemma EndsOpenLiteral(c: string, b: nat, q: seq<Token>)
    requires |q| > 0 && q[0].Lit?
    requires Ends(c, b, q) != {}
    ensures OccursAt(c, q[0].text, b)
  {
  }

  /** On a well-separated list, greedy scanning finds exactly the ends backtracking can reach. */
  lemma {:induction false} ScanFindsAllEnds(c: string, a: nat, p: seq<Token>)
    requires a <= |c|
    requires WellSeparated(p)
    ensures Ends(c, a, p) == AsSet(Scan(c, a, p))
    decreases |p|
  {
    if p != [] {
      assert WellSeparated(p[1..]) by {
        forall k | 0 <= k < |p[1..]| && p[1..][k].Spaces?
          ensures k + 1 < |p[1..]| && p[1..][k + 1].Lit?
        {
          assert p[k + 1].Spaces?;
        }
      }
      match p[0]
      case NotBlank =>
        if a < |c| && c[a] != ' ' {
          ScanFindsAllEnds(c, a + 1, p[1..]);
        }
      case Lit(t) =>
        if OccursAt(c, t, a) {
          ScanFindsAllEnds(c, a + |t|, p[1..]);
        }
      case Spaces =>
        var b0 := SkipSpaces(c, a);
        var rest := p[1..];
        assert rest[0] == p[1];
        ScanFindsAllEnds(c, b0, rest);
        var all := set b, e | a <= b <= |c| && SpacesBetween(c, a, b) && e in Ends(c, b, rest) :: e;
        assert Ends(c, a, p) == all;
        forall b | a <= b <= |c| && SpacesBetween(c, a, b) && Ends(c, b, rest) != {}
          ensures b == b0
        {
          EndsOpenLiteral(c, b, rest);
          assert b < |c| && !IsSpace(c[b]) by {
            assert c[b..b + |rest[0].text|][0] == c[b];
          }
          if b < b0 {
            assert false;
          } else if b > b0 {
            assert false;
          }
        }
        assert all == Ends(c, b0, rest);
    }
  }

  /** Scanning a concatenation scans the first part, then the second from where it stopped. */
  lemma {:induction false} ScanConcat(c: string, a: nat, p: seq<Token>, q: seq<Token>)
    requires a <= |c|
    ensures Scan(c, a, p + q) == (if Scan(c, a, p).Some? then Scan(c, Scan(c, a, p).value, q) else None)
    decreases |p|
  {
    if p == [] {
      assert p + q == q;
    } else {
      assert (p + q)[0] == p[0];
      assert (p + q)[1..] == p[1..] + q;
      match p[0]
      case NotBlank =>
        if a < |c| && c[a] != ' ' {
          ScanConcat(c, a + 1, p[1..], q);
        }
      case Lit(t) =>
        if OccursAt(c, t, a) {
          ScanConcat(c, a + |t|, p[1..], q);
        }
      case Spaces =>
        ScanConcat(c, SkipSpaces(c, a), p[1..], q);
    }
  }

  /** A list that opens with a literal only matches where that literal occurs. */
  lemma ScanOpenLiteral(c: string, a: nat, t: string, q: seq<Token>)
    requires a <= |c|
    ensures Scan(c, a, [Lit(t)] + q) == (if OccursAt(c, t, a) then Scan(c, a + |t|, q) else None)
  {
    assert ([Lit(t)] + q)[0] == Lit(t);
    assert ([Lit(t)] + q)[1..] == q;
  }

  /** A list that opens with `\s*` continues after the whole whitespace run. */
  lemma ScanOpenSpaces(c: string, a: nat, q: seq<Token>)
    requires a <= |c|
    ensures Scan(c, a, [Spaces] + q) == Scan(c, SkipSpaces(c, a), q)
  {
    assert ([Spaces] + q)[0] == Spaces;
    assert ([Spaces] + q)[1..] == q;
  }

  /** Well-separation is kept by putting a token in front, as long as a whitespace run is followed by a non-space literal. */
  lemma WellSeparatedPrepend(x: Token, q: seq<Token>)
    requires WellSeparated(q)
    requires x.Spaces? ==> |q| > 0 && q[0].Lit? && |q[0].text| > 0 && !IsSpace(q[0].text[0])
    ensures WellSeparated([x] + q)
  {
    forall k | 0 <= k < |[x] + q| && ([x] + q)[k].Spaces?
      ensures k + 1 < |[x] + q| && ([x] + q)[k + 1].Lit?
      ensures |([x] + q)[k + 1].text| > 0 && !IsSpace(([x] + q)[k + 1].text[0])
    {
      if k > 0 {
        assert ([x] + q)[k] == q[k - 1];
      }
    }
  }

  /** `\s*` followed by a literal that opens with a non-space. */
  lemma WellSeparatedSpacesThen(t: string, q: seq<Token>)
    requires WellSeparated(q) && |t| > 0 && !IsSpace(t[0])
    ensures WellSeparated([Spaces] + ([Lit(t)] + q))
  {
    WellSeparatedPrepend(Lit(t), q);
    WellSeparatedPrepend(Spaces, [Lit(t)] + q);
  }

  /** `Head` in front of a tail that opens with a non-space literal. */
  lemma WellSeparatedAfterHead(tail: seq<Token>)
    requires WellSeparated(tail)
    requires |tail| > 0 && tail[0].Lit? && |tail[0].text| > 0 && !IsSpace(tail[0].text[0])
    ensures WellSeparated(Head + tail)
  {
    WellSeparatedPrepend(Spaces, tail);
    WellSeparatedPrepend(Lit("while"), [Spaces] + tail);
    WellSeparatedPrepend(NotBlank, [Lit("while")] + ([Spaces] + tail));
    assert Head + tail == [NotBlank] + ([Lit("while")] + ([Spaces] + tail));
  }

  lemma CloseParenWellSeparated()
    ensures WellSeparated(Colon) && WellSeparated(CloseParen)
  {
    WellSeparatedSpacesThen(":", []);
    WellSeparatedSpacesThen(")", Colon);
  }

  lemma ParenTailWellSeparated(t: string)
    requires |t| > 0 && !IsSpace(t[0])
    ensures WellSeparated([Lit("(")] + ([Spaces] + ([Lit(t)] + CloseParen)))
  {
    CloseParenWellSeparated();
    WellSeparatedSpacesThen(t, CloseParen);
    WellSeparatedPrepend(Lit("("), [Spaces] + ([Lit(t)] + CloseParen));
  }

  lemma AlternativesWellSeparated()
    ensures WellSeparated(ParenTrue) && WellSeparated(BareTrue)
    ensures WellSeparated(BareOne) && WellSeparated(ParenOne)
  {
    CloseParenWellSeparated();
    ParenTailWellSeparated("True");
    ParenTailWellSeparated("1");
    WellSeparatedPrepend(Lit("True"), Colon);
    WellSeparatedPrepend(Lit("1"), Colon);
    WellSeparatedAfterHead(ParenTrueTail);
    WellSeparatedAfterHead(BareTrueTail);
    WellSeparatedAfterHead(BareOneTail);
    WellSeparatedAfterHead(ParenOneTail);
  }

  /**
   * Python's `re` tries the alternatives in their listed order at one start
   * position and keeps the first that matches.
   */
  function MatchAt(c: string, i: nat): Option<nat>
    requires i <= |c|
  {
    if Scan(c, i, ParenTrue).Some? then Scan(c, i, ParenTrue)
    else if Scan(c, i, BareTrue).Some? then Scan(c, i, BareTrue)
    else if Scan(c, i, BareOne).Some? then Scan(c, i, BareOne)
    else Scan(c, i, ParenOne)
  }

  /**
   * The alternatives are disjoint: after `while` and its whitespace, `(`, `T`
   * and `1` pick the alternative, and after `(` the next non-space picks between
   * `True` and `1`.  So at most one of them matches at any start.
   */
  lemma {:induction false} AtMostOneAlternative(c: string, i: nat)
    requires i <= |c|
    ensures Scan(c, i, ParenTrue).Some? ==> Scan(c, i, BareTrue).None? && Scan(c, i, BareOne).None? && Scan(c, i, ParenOne).None?
    ensures Scan(c, i, BareTrue).Some? ==> Scan(c, i, BareOne).None? && Scan(c, i, ParenOne).None?
    ensures Scan(c, i, BareOne).Some? ==> Scan(c, i, ParenOne).None?
  {
    ScanConcat(c, i, Head, ParenTrueTail);
    ScanConcat(c, i, Head, BareTrueTail);
    ScanConcat(c, i, Head, BareOneTail);
    ScanConcat(c, i, Head, ParenOneTail);
    if Scan(c, i, Head).Some? {
      TailsDisjoint(c, Scan(c, i, Head).value);
    }
  }

  /** A list that opens with a literal can only match where the text shows the literal's first character. */
  lemma ScanFirstChar(c: string, j: nat, t: string, q: seq<Token>)
    requires j <= |c| && |t| > 0
    ensures Scan(c, j, [Lit(t)] + q).Some? ==> j < |c| && c[j] == t[0]
  {
    ScanOpenLiteral(c, j, t, q);
    if OccursAt(c, t, j) {
      assert c[j..j + |t|][0] == c[j];
    }
  }

  /** What follows `while` and its whitespace: `(`, `T` or `1` decides the alternative. */
  lemma TailsDisjoint(c: string, j: nat)
    requires j <= |c|
    ensures Scan(c, j, ParenTrueTail).Some? ==> Scan(c, j, BareTrueTail).None? && Scan(c, j, BareOneTail).None? && Scan(c, j, ParenOneTail).None?
    ensures Scan(c, j, BareTrueTail).Some? ==> Scan(c, j, BareOneTail).None? && Scan(c, j, ParenOneTail).None?
    ensures Scan(c, j, BareOneTail).Some? ==> Scan(c, j, ParenOneTail).None?
  {
    ScanFirstChar(c, j, "(", [Spaces] + ([Lit("True")] + CloseParen));
    ScanFirstChar(c, j, "(", [Spaces] + ([Lit("1")] + CloseParen));
    ScanFirstChar(c, j, "True", Colon);
    ScanFirstChar(c, j, "1", Colon);
    ParenTailsDisjoint(c, j);
  }

  /** After `(` and its whitespace, `T` and `1` decide between the two parenthesised forms. */
  lemma ParenTailsDisjoint(c: string, j: nat)
    requires j <= |c|
    ensures !(Scan(c, j, ParenTrueTail).Some? && Scan(c, j, ParenOneTail).Some?)
  {
    ScanOpenLiteral(c, j, "(", [Spaces] + ([Lit("True")] + CloseParen));
    ScanOpenLiteral(c, j, "(", [Spaces] + ([Lit("1")] + CloseParen));
    if OccursAt(c, "(", j) {
      ScanOpenSpaces(c, j + 1, [Lit("True")] + CloseParen);
      ScanOpenSpaces(c, j + 1, [Lit("1")] + CloseParen);
      var k := SkipSpaces(c, j + 1);
      ScanFirstChar(c, k, "True", CloseParen);
      ScanFirstChar(c, k, "1", CloseParen);
    }
  }

  /**
   * The recognizer agrees with the regular expression at every start: the
   * backtracking meaning has at most one end, and it is the one `MatchAt` returns.
   */
  lemma MatchAtIsRegex(c: string, i: nat)
    requires i <= |c|
    ensures RegexEnds(c, i) == AsSet(MatchAt(c, i))
    ensures |RegexEnds(c, i)| <= 1
  {
    AlternativesWellSeparated();
    ScanFindsAllEnds(c, i, ParenTrue);
    ScanFindsAllEnds(c, i, BareTrue);
    ScanFindsAllEnds(c, i, BareOne);
    ScanFindsAllEnds(c, i, ParenOne);
    AtMostOneAlternative(c, i);
  }

  /** `[^ ]` refuses a space: a header indented by spaces is not matched at that space. */
  lemma NoMatchAtSpace(c: string, i: nat)
    requires i < |c| && c[i] == ' '
    ensures MatchAt(c, i).None?
    ensures RegexEnds(c, i) == {}
  {
    MatchAtIsRegex(c, i);
    var tailPT := [Lit("while"), Spaces, Lit("("), Spaces, Lit("True"), Spaces, Lit(")"), Spaces, Lit(":")];
    assert ParenTrue == [NotBlank] + tailPT;
    assert ([NotBlank] + tailPT)[0] == NotBlank;
    assert BareTrue[0] == NotBlank && BareOne[0] == NotBlank && ParenOne[0] == NotBlank;
  }

  /**
   * The leftmost start `s >= i` at which the regular expression matches, with
   * the end of that match (`re.search`).
   */
  function SearchFrom(c: string, i: nat): (r: Option<(nat, nat)>)
    requires i <= |c|
    ensures r.Some? ==> i <= r.value.0 <= |c| && MatchAt(c, r.value.0) == Some(r.value.1)
    ensures r.Some? ==> forall k :: i <= k < r.value.0 ==> MatchAt(c, k).None?
    ensures r.None? ==> forall k :: i <= k <= |c| ==> MatchAt(c, k).None?
    decreases |c| - i
  {
    match MatchAt(c, i)
    case Some(e) => Some((i, e))
    case None => if i == |c| then None else SearchFrom(c, i + 1)
  }

  function Search(c: string): Option<(nat, nat)> {
    SearchFrom(c, 0)
  }

  /**
   * `Search` is the regular expression's leftmost match: when it finds
   * `(s, e)`, no earlier start matches at all and `e` is the only end any
   * alternative can reach from `s`; when it finds nothing, no start matches.
   */
  lemma SearchIsLeftmostMatch(c: string)
    ensures Search(c).Some? ==>
      var (s, e) := Search(c).value;
      && s <= |c|
      && RegexEnds(c, s) == {e}
      && forall k :: 0 <= k < s ==> RegexEnds(c, k) == {}
    ensures Search(c).None? ==> forall k :: 0 <= k <= |c| ==> RegexEnds(c, k) == {}
  {
    if Search(c).Some? {
      var (s, e) := Search(c).value;
      MatchAtIsRegex(c, s);
      forall k | 0 <= k < s
        ensures RegexEnds(c, k) == {}
      {
        MatchAtIsRegex(c, k);
      }
    } else {
      forall k | 0 <= k <= |c|
        ensures RegexEnds(c, k) == {}
      {
        MatchAtIsRegex(c, k);
      }
    }
  }

  /** `Head` matches a non-space, `while`, and then swallows the following whitespace. */
  lemma ScanHead(c: string, i: nat)
    requires i <= |c|
    ensures Scan(c, i, Head) ==
      if i < |c| && c[i] != ' ' && OccursAt(c, "while", i + 1) then Some(SkipSpaces(c, i + 6)) else None
  {
    assert Head == [NotBlank] + ([Lit("while")] + [Spaces]);
    assert Head[1..] == [Lit("while")] + [Spaces];
    if i < |c| && c[i] != ' ' {
      ScanOpenLiteral(c, i + 1, "while", [Spaces]);
      if OccursAt(c, "while", i + 1) {
        ScanOpenSpaces(c, i + 6, []);
      }
    }
  }

  /** A match starts at a non-space followed by `while`, and covers at least those six characters. */
  lemma MatchShape(c: string, i: nat)
    requires i <= |c| && MatchAt(c, i).Some?
    ensures i + 6 <= MatchAt(c, i).value
    ensures i < |c| && c[i] != ' ' && OccursAt(c, "while", i + 1)
  {
    ScanHead(c, i);
    ScanConcat(c, i, Head, ParenTrueTail);
    ScanConcat(c, i, Head, BareTrueTail);
    ScanConcat(c, i, Head, BareOneTail);
    ScanConcat(c, i, Head, ParenOneTail);
  }

  /** A maximal whitespace run ends at the first non-space. */
  lemma {:induction false} SkipSpacesStopsAt(c: string, a: nat, b: nat)
    requires a <= b < |c| && SpacesBetween(c, a, b) && !IsSpace(c[b])
    ensures SkipSpaces(c, a) == b
    decreases b - a
  {
    if a < b {
      SkipSpacesStopsAt(c, a + 1, b);
    }
  }

  lemma OccursOne(c: string, t: string, k: nat)
    requires |t| == 1 && k < |c| && c[k] == t[0]
    ensures OccursAt(c, t, k)
  {
    assert c[k..k + 1] == [c[k]];
  }

  /** Whichever alternative matches, `MatchAt` reports its end. */
  lemma MatchAtReportsAlternative(c: string, i: nat, p: seq<Token>)
    requires i <= |c| && p in Alternatives && Scan(c, i, p).Some?
    ensures MatchAt(c, i) == Scan(c, i, p)
  {
    AtMostOneAlternative(c, i);
  }

  /** `\s*` then a one-character literal, found after the run. */
  lemma ScanSpacedChar(c: string, a: nat, b: nat, t: string, q: seq<Token>)
    requires a <= b < |c| && SpacesBetween(c, a, b) && |t| == 1 && c[b] == t[0] && !IsSpace(t[0])
    ensures Scan(c, a, [Spaces] + ([Lit(t)] + q)) == Scan(c, b + 1, q)
  {
    ScanOpenSpaces(c, a, [Lit(t)] + q);
    SkipSpacesStopsAt(c, a, b);
    OccursOne(c, t, b);
    ScanOpenLiteral(c, b, t, q);
  }

  lemma ScanColon(c: string, a: nat, b: nat)
    requires a <= b < |c| && SpacesBetween(c, a, b) && c[b] == ':'
    ensures Scan(c, a, Colon) == Some(b + 1)
  {
    ScanSpacedChar(c, a, b, ":", []);
  }

  /**
   * `while True:` with any whitespace between `while`, `True` and the colon,
   * after a non-space, is a header; the match ends just after the colon.
   * Here `j` is where `True` starts and `k` is the colon.
   */
  lemma BareTrueAccepted(c: string, i: nat, j: nat, k: nat)
    requires i < |c| && c[i] != ' ' && OccursAt(c, "while", i + 1)
    requires i + 6 <= j <= |c| && SpacesBetween(c, i + 6, j) && OccursAt(c, "True", j)
    requires j + 4 <= k < |c| && SpacesBetween(c, j + 4, k) && c[k] == ':'
    ensures MatchAt(c, i) == Some(k + 1)
  {
    assert c[j] == 'T' by { assert c[j..j + 4][0] == c[j]; }
    ScanHead(c, i);
    SkipSpacesStopsAt(c, i + 6, j);
    assert Scan(c, i, Head) == Some(j);
    ScanConcat(c, i, Head, BareTrueTail);
    ScanOpenLiteral(c, j, "True", Colon);
    ScanColon(c, j + 4, k);
    assert Scan(c, i, BareTrue) == Some(k + 1);
    MatchAtReportsAlternative(c, i, BareTrue);
  }

  /**
   * `while 1:` with any whitespace between `while`, `1` and the colon is a
   * header; `j` is the `1` and `k` the colon.
   */
  lemma BareOneAccepted(c: string, i: nat, j: nat, k: nat)
    requires i < |c| && c[i] != ' ' && OccursAt(c, "while", i + 1)
    requires i + 6 <= j < |c| && SpacesBetween(c, i + 6, j) && c[j] == '1'
    requires j + 1 <= k < |c| && SpacesBetween(c, j + 1, k) && c[k] == ':'
    ensures MatchAt(c, i) == Some(k + 1)
  {
    ScanHead(c, i);
    SkipSpacesStopsAt(c, i + 6, j);
    assert Scan(c, i, Head) == Some(j);
    ScanConcat(c, i, Head, BareOneTail);
    OccursOne(c, "1", j);
    ScanOpenLiteral(c, j, "1", Colon);
    ScanColon(c, j + 1, k);
    assert Scan(c, i, BareOne) == Some(k + 1);
    MatchAtReportsAlternative(c, i, BareOne);
  }

  /**
   * `while (True):` with any whitespace around the parentheses and `True` is
   * a header; `j` is the opening parenthesis, `k` where `True` starts, `l`
   * the closing parenthesis and `m` the colon.
   */
  lemma ParenTrueAccepted(c: string, i: nat, j: nat, k: nat, l: nat, m: nat)
    requires i < |c| && c[i] != ' ' && OccursAt(c, "while", i + 1)
    requires i + 6 <= j < |c| && SpacesBetween(c, i + 6, j) && c[j] == '('
    requires j + 1 <= k <= |c| && SpacesBetween(c, j + 1, k) && OccursAt(c, "True", k)
    requires k + 4 <= l < |c| && SpacesBetween(c, k + 4, l) && c[l] == ')'
    requires l + 1 <= m < |c| && SpacesBetween(c, l + 1, m) && c[m] == ':'
    ensures MatchAt(c, i) == Some(m + 1)
  {
    ScanHead(c, i);
    SkipSpacesStopsAt(c, i + 6, j);
    assert Scan(c, i, Head) == Some(j);
    ScanConcat(c, i, Head, ParenTrueTail);
    ParenTrueTailScan(c, j, k, l, m);
    assert Scan(c, i, ParenTrue) == Some(m + 1);
    MatchAtReportsAlternative(c, i, ParenTrue);
  }

  lemma ParenTrueTailScan(c: string, j: nat, k: nat, l: nat, m: nat)
    requires j < |c| && c[j] == '('
    requires j + 1 <= k <= |c| && SpacesBetween(c, j + 1, k) && OccursAt(c, "True", k)
    requires k + 4 <= l < |c| && SpacesBetween(c, k + 4, l) && c[l] == ')'
    requires l + 1 <= m < |c| && SpacesBetween(c, l + 1, m) && c[m] == ':'
    ensures Scan(c, j, ParenTrueTail) == Some(m + 1)
  {
    assert c[k] == 'T' by { assert c[k..k + 4][0] == c[k]; }
    CloseParenScan(c, k + 4, l, m);
    ScanOpenLiteral(c, k, "True", CloseParen);
    ScanOpenSpaces(c, j + 1, [Lit("True")] + CloseParen);
    SkipSpacesStopsAt(c, j + 1, k);
    OccursOne(c, "(", j);
    ScanOpenLiteral(c, j, "(", [Spaces] + ([Lit("True")] + CloseParen));
  }

  /**
   * `while (1):` with any whitespace around the parentheses and the `1` is a
   * header; `j` is the opening parenthesis, `k` the `1`, `l` the closing
   * parenthesis and `m` the colon.
   */
  lemma ParenOneAccepted(c: string, i: nat, j: nat, k: nat, l: nat, m: nat)
    requires i < |c| && c[i] != ' ' && OccursAt(c, "while", i + 1)
    requires i + 6 <= j < |c| && SpacesBetween(c, i + 6, j) && c[j] == '('
    requires j + 1 <= k < |c| && SpacesBetween(c, j + 1, k) && c[k] == '1'
    requires k + 1 <= l < |c| && SpacesBetween(c, k + 1, l) && c[l] == ')'
    requires l + 1 <= m < |c| && SpacesBetween(c, l + 1, m) && c[m] == ':'
    ensures MatchAt(c, i) == Some(m + 1)
  {
    ScanHead(c, i);
    SkipSpacesStopsAt(c, i + 6, j);
    assert Scan(c, i, Head) == Some(j);
    ScanConcat(c, i, Head, ParenOneTail);
    ParenOneTailScan(c, j, k, l, m);
    assert Scan(c, i, ParenOne) == Some(m + 1);
    MatchAtReportsAlternative(c, i, ParenOne);
  }

  lemma ParenOneTailScan(c: string, j: nat, k: nat, l: nat, m: nat)
    requires j < |c| && c[j] == '('
    requires j + 1 <= k < |c| && SpacesBetween(c, j + 1, k) && c[k] == '1'
    requires k + 1 <= l < |c| && SpacesBetween(c, k + 1, l) && c[l] == ')'
    requires l + 1 <= m < |c| && SpacesBetween(c, l + 1, m) && c[m] == ':'
    ensures Scan(c, j, ParenOneTail) == Some(m + 1)
  {
    ScanColon(c, l + 1, m);
    CloseParenScan(c, k + 1, l, m);
    ScanSpacedChar(c, j + 1, k, "1", CloseParen);
    OccursOne(c, "(", j);
    ScanOpenLiteral(c, j, "(", [Spaces] + ([Lit("1")] + CloseParen));
  }

  lemma CloseParenScan(c: string, a: nat, l: nat, m: nat)
    requires a <= l < |c| && SpacesBetween(c, a, l) && c[l] == ')'
    requires l + 1 <= m < |c| && SpacesBetween(c, l + 1, m) && c[m] == ':'
    ensures Scan(c, a, CloseParen) == Some(m + 1)
  {
    ScanColon(c, l + 1, m);
    assert CloseParen == [Spaces] + ([Lit(")")] + Colon);
    ScanSpacedChar(c, a, l, ")", Colon);
  }
}
