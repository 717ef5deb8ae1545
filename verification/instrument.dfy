/**
 * The code instrumenter: the text-to-text rewrite that makes a submitted
 * program run its main loop at a fixed cadence.  A fixed import block is put
 * in front of the program, a timestamp statement is inserted right after the
 * first infinite-loop header, and a block that sleeps out the rest of the
 * ideal cycle is appended at the very end.  Without a loop header the rewrite
 * cannot be done and the instrumenter fails.
 */
module Instrument {
  import opened Base
  import opened Strings
  import opened LoopHeader

  /** The import block placed before the submitted code (it declares `ideal_cycle = 20`). */
  const Imports: string := "\nimport time\n" + "from datetime import datetime\n" + "ideal_cycle = 20\n"

  /** The fragment inserted right after the loop header: it records the start of the cycle. */
  const TimestampFragment: string := "\n    start_time_internal_freq_control = datetime.now()\n            "

  /** The fragment appended at the end: it sleeps for whatever is left of the ideal cycle. */
  const SleepFragment: string :=
    "\n    finish_time_internal_freq_control = datetime.now()\n"
    + "    dt = finish_time_internal_freq_control - start_time_internal_freq_control\n"
    + "    ms = (dt.days * 24 * 60 * 60 + dt.seconds) * 1000 + dt.microseconds / 1000.0\n"
    + "\n"
    + "    if (ms < ideal_cycle):\n"
    + "        time.sleep((ideal_cycle - ms) / 1000.0)\n"

  /** The only way instrumentation can fail: the program has no loop header. */
  datatype InstrumentError = NoLoopHeader

  /**
   * `out` is `c` with `TimestampFragment` inserted at offset `e` and
   * `SleepFragment` appended; every character of `c` keeps its order.
   */
  predicate InsertedAt(c: string, e: nat, out: string)
    requires e <= |c|
  {
    && |out| == |c| + |TimestampFragment| + |SleepFragment|
    && out[..e] == c[..e]
    && out[e..e + |TimestampFragment|] == TimestampFragment
    && out[e + |TimestampFragment|..|out| - |SleepFragment|] == c[e..]
    && out[|out| - |SleepFragment|..] == SleepFragment
  }

  /** No character of `s` is `ch`. */
  predicate Lacks(s: string, ch: char) {
    forall k :: 0 <= k < |s| ==> s[k] != ch
  }

  lemma LacksConcat(a: string, b: string, ch: char)
    requires Lacks(a, ch) && Lacks(b, ch)
    ensures Lacks(a + b, ch)
  {
    forall k | 0 <= k < |a + b|
      ensures (a + b)[k] != ch
    {
      if k >= |a| {
        assert (a + b)[k] == b[k - |a|];
      }
    }
  }

  /** The import block never contains a `w`, so no `while` can start inside it. */
  lemma ImportsHaveNoW()
    ensures Lacks(Imports, 'w')
  {
    var line1, line2, line3 := "\nimport time\n", "from datetime import datetime\n", "ideal_cycle = 20\n";
    assert Lacks(line1, 'w') && Lacks(line2, 'w') && Lacks(line3, 'w');
    LacksConcat(line1, line2, 'w');
    LacksConcat(line1 + line2, line3, 'w');
  }

  /**
   * Where a loop header in `Imports + code` can sit: its `while` lies in the
   * submitted code, and the character before that `while` (the last newline
   * of the import block, or a character of the code) is not a space.
   */
  lemma HeaderPosition(code: string, s: nat)
    requires s <= |Imports + code|
    ensures MatchAt(Imports + code, s).Some? ==>
      && |Imports| <= s + 1
      && |Imports| < MatchAt(Imports + code, s).value
      && OccursAt(code, "while", s + 1 - |Imports|)
      && (|Imports| < s + 1 ==> code[s - |Imports|] != ' ')
  {
    var c := Imports + code;
    if MatchAt(c, s).Some? {
      MatchShape(c, s);
      assert c[s + 1] == 'w' by {
        assert c[s + 1..s + 6][0] == c[s + 1];
      }
      ImportsHaveNoW();
      assert |Imports| <= s + 1;
      var k := s + 1 - |Imports|;
      assert c[s + 1..s + 6] == code[k..k + 5];
      assert |Imports| < s + 1 ==> c[s] == code[s - |Imports|];
    }
  }

  lemma InsertionPlacesFragments(c: string, e: nat)
    requires e <= |c|
    ensures InsertedAt(c, e, c[..e] + TimestampFragment + c[e..] + SleepFragment)
  {
    var out := c[..e] + TimestampFragment + c[e..] + SleepFragment;
    assert out[..e] == c[..e];
    assert out[e..e + |TimestampFragment|] == TimestampFragment;
    assert out[e + |TimestampFragment|..|out| - |SleepFragment|] == c[e..];
    assert out[|out| - |SleepFragment|..] == SleepFragment;
  }

  /**
   * `add_frequency_control`.  It fails exactly when no position of
   * `Imports + code` starts a loop header.  Otherwise the header it uses is
   * the leftmost one, its match ends after the import block, and the output is
   * `Imports + code` with the timestamp inserted at that end and the sleep
   * block appended.
   */
  function AddFrequencyControl(code: string): (r: Result<string, InstrumentError>)
    ensures r.Failure? <==> forall k :: 0 <= k <= |Imports + code| ==> RegexEnds(Imports + code, k) == {}
    ensures r.Success? ==>
      && Search(Imports + code).Some?
      && var (s, e) := Search(Imports + code).value;
      && RegexEnds(Imports + code, s) == {e}
      && (forall k :: 0 <= k < s ==> RegexEnds(Imports + code, k) == {})
      && |Imports| < e <= |Imports + code|
      && InsertedAt(Imports + code, e, r.value)
  {
    var c := Imports + code;
    SearchIsLeftmostMatch(c);
    match Search(c)
    case None => Failure(NoLoopHeader)
    case Some((s, e)) =>
      assert MatchAt(c, s) == Some(e);
      HeaderPosition(code, s);
      assert |Imports| < e <= |c|;
      InsertionPlacesFragments(c, e);
      Success(c[..e] + TimestampFragment + c[e..] + SleepFragment)
  }

  /**
   * The frame of an instrumented program: it opens with the import block,
   * closes with the sleep block, contains the submitted code's text in order
   * around the one insertion, and is longer by exactly the three fragments.
   */
  lemma InstrumentedFrame(code: string)
    requires AddFrequencyControl(code).Success?
    ensures var out := AddFrequencyControl(code).value;
      && |out| == |Imports| + |code| + |TimestampFragment| + |SleepFragment|
      && out[..|Imports|] == Imports
      && out[|out| - |SleepFragment|..] == SleepFragment
  {
    var c := Imports + code;
    var out := AddFrequencyControl(code).value;
    var e := Search(c).value.1;
    assert out[..e] == c[..e];
    assert out[..|Imports|] == out[..e][..|Imports|];
    assert c[..e][..|Imports|] == Imports;
  }

  /** Removing the two inserted fragments gives back exactly `Imports + code`. */
  lemma StripRecoversInput(code: string)
    requires AddFrequencyControl(code).Success?
    ensures var out := AddFrequencyControl(code).value;
      var e := Search(Imports + code).value.1;
      out[..e] + out[e + |TimestampFragment|..|out| - |SleepFragment|] == Imports + code
  {
    var c := Imports + code;
    var e := Search(c).value.1;
    assert c[..e] + c[e..] == c;
  }

  /**
   * A program whose every `while` is preceded by a space (a loop indented
   * with spaces, say inside a function) has no loop header, so it cannot be
   * instrumented.
   */
  lemma SpaceIndentedLoopsRejected(code: string)
    requires forall k :: 0 <= k <= |code| && OccursAt(code, "while", k) ==> 0 < k && code[k - 1] == ' '
    ensures AddFrequencyControl(code).Failure?
  {
    var c := Imports + code;
    forall s | 0 <= s <= |c|
      ensures MatchAt(c, s).None?
    {
      HeaderPosition(code, s);
    }
    SearchIsLeftmostMatch(c);
    forall k | 0 <= k <= |c|
      ensures RegexEnds(c, k) == {}
    {
      MatchAtIsRegex(c, k);
    }
  }

  /**
   * A program that opens with `while True:` is instrumented at that loop: the
   * newline ending the import block is the character `[^ ]` consumes, and the
   * timestamp goes right after the colon.
   */
  lemma LeadingLoopInstrumented(rest: string)
    ensures AddFrequencyControl("while True:" + rest) ==
      Success(Imports + "while True:" + TimestampFragment + rest + SleepFragment)
  {
    var code := "while True:" + rest;
    var c := Imports + code;
    var s := |Imports| - 1;
    assert c[s] == '\n';
    assert OccursAt(c, "while", s + 1) by {
      assert c[s + 1..s + 6] == code[..5];
    }
    assert OccursAt(c, "True", s + 7) by {
      assert c[s + 7..s + 11] == code[6..10];
    }
    assert IsSpace(c[s + 6]) by { assert c[s + 6] == code[5]; }
    assert c[s + 11] == ':' by { assert c[s + 11] == code[10]; }
    BareTrueAccepted(c, s, s + 7, s + 11);
    forall k | 0 <= k < s
      ensures MatchAt(c, k).None?
    {
      HeaderPosition(code, k);
    }
    assert Search(c) == Some((s, s + 12)) by {
      SearchFrom0Leftmost(c, s);
    }
    assert c[..s + 12] == Imports + "while True:";
    assert c[s + 12..] == rest;
  }

  /** `Search` returns the first start at which `MatchAt` succeeds. */
  lemma {:induction false} SearchFrom0Leftmost(c: string, s: nat)
    requires s <= |c| && MatchAt(c, s).Some?
    requires forall k :: 0 <= k < s ==> MatchAt(c, k).None?
    ensures Search(c) == Some((s, MatchAt(c, s).value))
  {
    assert Search(c).Some?;
  }
}
