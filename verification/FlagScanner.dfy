/** The serving-flag gate of src/blackwell_lab/cloud/bootstrap_pins.py.

    The gate looks at the whitespace-separated tokens of VLLM_EXTRA_ARGS. A
    nested scanner collects the value that follows each occurrence of one flag;
    the gate then reports at most one problem for each of the three flags. */
module FlagScanner {

  const REASONING_FLAG := "--reasoning-parser"
  const TOOL_PARSER_FLAG := "--tool-call-parser"
  const AUTO_CHOICE_FLAG := "--enable-auto-tool-choice"
  const APPROVED_REASONING_PARSER := "nemotron_v3"
  const APPROVED_TOOL_CALL_PARSER := "qwen3_coder"

  datatype Problem = Missing(flag: string) | Duplicate(flag: string) | WrongValue(flag: string)

  // token.startswith("--")
  predicate IsOption(token: string) {
    "--" <= token
  }

  // The value an occurrence carries: the next token, or nothing when the next
  // token is missing or is itself an option.
  function ValueAt(tokens: seq<string>, i: nat): string
    requires i < |tokens|
  {
    if i + 1 >= |tokens| || IsOption(tokens[i + 1]) then "" else tokens[i + 1]
  }

  // A token that starts with two dashes, alone or not, is no value.
  lemma DashesAreNoValue(tokens: seq<string>, i: nat)
    requires i < |tokens|
    ensures ValueAt(tokens, i) ==
            if i + 1 < |tokens| && !(|tokens[i + 1]| >= 2 && tokens[i + 1][0] == '-' && tokens[i + 1][1] == '-')
            then tokens[i + 1] else ""
  {
    if i + 1 < |tokens| && |tokens[i + 1]| >= 2 {
      assert tokens[i + 1][..2] == [tokens[i + 1][0], tokens[i + 1][1]] && "--" == ['-', '-'];
    }
  }

  // One entry for every occurrence among the first n tokens, in order.
  function ValuesOf(tokens: seq<string>, flag: string, n: nat): (r: seq<string>)
    requires n <= |tokens|
  {
    if n == 0 then []
    else ValuesOf(tokens, flag, n - 1) + if tokens[n - 1] == flag then [ValueAt(tokens, n - 1)] else []
  }

  function Count(tokens: seq<string>, flag: string): nat {
    multiset(tokens)[flag]
  }

  lemma {:induction false} OneEntryPerOccurrence(tokens: seq<string>, flag: string, n: nat)
    requires n <= |tokens|
    ensures |ValuesOf(tokens, flag, n)| == Count(tokens[..n], flag)
  {
    if n > 0 {
      OneEntryPerOccurrence(tokens, flag, n - 1);
      assert tokens[..n] == tokens[..n - 1] + [tokens[n - 1]];
    }
  }

  // The scanner consumes a flag together with its value, yet it never swallows
  // another occurrence: it records exactly one entry for each occurrence.
  method ValuesFor(tokens: seq<string>, flag: string) returns (found: seq<string>)
    requires IsOption(flag)
    ensures found == ValuesOf(tokens, flag, |tokens|)
    ensures |found| == Count(tokens, flag)
  {
    found := [];
    var index := 0;
    while index < |tokens|
      invariant 0 <= index <= |tokens|
      invariant found == ValuesOf(tokens, flag, index)
    {
      if tokens[index] == flag {
        if index + 1 >= |tokens| || IsOption(tokens[index + 1]) {
          found := found + [""];
          index := index + 1;
          continue;
        }
        found := found + [tokens[index + 1]];
        assert found == ValuesOf(tokens, flag, index + 1);
        index := index + 2;
        continue;
      }
      index := index + 1;
    }
    OneEntryPerOccurrence(tokens, flag, |tokens|);
    assert tokens[..|tokens|] == tokens;
  }

  ghost predicate IsOnly(tokens: seq<string>, flag: string, i: nat) {
    i < |tokens| && tokens[i] == flag && forall j :: 0 <= j < |tokens| && tokens[j] == flag ==> j == i
  }

  // Exactly one occurrence.
  ghost predicate Once(tokens: seq<string>, flag: string) {
    exists i: nat :: IsOnly(tokens, flag, i)
  }

  // Exactly one occurrence, immediately followed by the approved value.
  ghost predicate OnceWith(tokens: seq<string>, flag: string, value: string) {
    exists i: nat :: IsOnly(tokens, flag, i) && i + 1 < |tokens| && tokens[i + 1] == value
  }

  lemma CountAround(tokens: seq<string>, flag: string, i: nat)
    requires i < |tokens| && tokens[i] == flag
    ensures Count(tokens, flag) == Count(tokens[..i], flag) + 1 + Count(tokens[i + 1..], flag)
  {
    assert tokens == tokens[..i] + [tokens[i]] + tokens[i + 1..];
  }

  lemma OnceIsCountOne(tokens: seq<string>, flag: string)
    ensures Once(tokens, flag) <==> Count(tokens, flag) == 1
  {
    if flag in tokens {
      var i :| 0 <= i < |tokens| && tokens[i] == flag;
      CountAround(tokens, flag, i);
      var before, after := tokens[..i], tokens[i + 1..];
      if Count(tokens, flag) == 1 {
        assert forall x :: x in before ==> x in multiset(before);
        assert forall x :: x in after ==> x in multiset(after);
        forall j | 0 <= j < |tokens| && j != i ensures tokens[j] != flag {
          if j < i {
            assert before[j] in before;
          } else {
            assert after[j - i - 1] in after;
          }
        }
        assert IsOnly(tokens, flag, i);
      }
      if Once(tokens, flag) {
        assert flag !in multiset(before) && flag !in multiset(after);
      }
    } else {
      assert flag !in multiset(tokens);
    }
  }

  lemma {:induction false} ValuesOfOnly(tokens: seq<string>, flag: string, i: nat, n: nat)
    requires IsOnly(tokens, flag, i) && n <= |tokens|
    ensures ValuesOf(tokens, flag, n) == if n <= i then [] else [ValueAt(tokens, i)]
  {
    if n > 0 {
      ValuesOfOnly(tokens, flag, i, n - 1);
    }
  }

  lemma OnceWithIsOnlyValue(tokens: seq<string>, flag: string, value: string)
    requires !IsOption(value) && value != ""
    ensures OnceWith(tokens, flag, value) <==> ValuesOf(tokens, flag, |tokens|) == [value]
  {
    OnceIsCountOne(tokens, flag);
    OneEntryPerOccurrence(tokens, flag, |tokens|);
    assert tokens[..|tokens|] == tokens;
    if Once(tokens, flag) {
      var i: nat :| IsOnly(tokens, flag, i);
      ValuesOfOnly(tokens, flag, i, |tokens|);
    }
  }

  lemma NotOptions()
    ensures !IsOption(APPROVED_REASONING_PARSER) && !IsOption(APPROVED_TOOL_CALL_PARSER)
    ensures IsOption(REASONING_FLAG) && IsOption(TOOL_PARSER_FLAG)
    ensures REASONING_FLAG != TOOL_PARSER_FLAG && AUTO_CHOICE_FLAG != REASONING_FLAG
    ensures AUTO_CHOICE_FLAG != TOOL_PARSER_FLAG
  {
    assert APPROVED_REASONING_PARSER[0] != "--"[0] && APPROVED_TOOL_CALL_PARSER[0] != "--"[0];
    assert REASONING_FLAG[2] == 'r' && TOOL_PARSER_FLAG[2] == 't' && AUTO_CHOICE_FLAG[2] == 'e';
  }

  // The fault of one flag, if any: absent, repeated, or carrying another value.
  ghost function Fault(tokens: seq<string>, flag: string, right: bool): seq<Problem> {
    if flag !in tokens then [Missing(flag)]
    else if !Once(tokens, flag) then [Duplicate(flag)]
    else if !right then [WrongValue(flag)]
    else []
  }

  lemma FaultByCount(tokens: seq<string>, flag: string, right: bool)
    ensures Fault(tokens, flag, right) ==
            if Count(tokens, flag) == 0 then [Missing(flag)]
            else if Count(tokens, flag) != 1 then [Duplicate(flag)]
            else if !right then [WrongValue(flag)]
            else []
  {
    OnceIsCountOne(tokens, flag);
    assert flag in tokens <==> flag in multiset(tokens);
  }

  lemma EmptyExactly(tokens: seq<string>)
    ensures Fault(tokens, REASONING_FLAG, OnceWith(tokens, REASONING_FLAG, APPROVED_REASONING_PARSER))
            + Fault(tokens, TOOL_PARSER_FLAG, OnceWith(tokens, TOOL_PARSER_FLAG, APPROVED_TOOL_CALL_PARSER))
            + Fault(tokens, AUTO_CHOICE_FLAG, true) == [] <==>
              && OnceWith(tokens, REASONING_FLAG, APPROVED_REASONING_PARSER)
              && OnceWith(tokens, TOOL_PARSER_FLAG, APPROVED_TOOL_CALL_PARSER)
              && Once(tokens, AUTO_CHOICE_FLAG)
  {
    assert forall flag, value :: OnceWith(tokens, flag, value) ==> Once(tokens, flag);
    assert forall flag :: Once(tokens, flag) ==> flag in tokens;
  }

  // The gate reports the fault of each flag in a fixed order, so the list is
  // empty exactly for the approved flag trio.
  method ValidateVllmParserFlags(tokens: seq<string>) returns (problems: seq<Problem>)
    ensures problems == Fault(tokens, REASONING_FLAG, OnceWith(tokens, REASONING_FLAG, APPROVED_REASONING_PARSER))
                        + Fault(tokens, TOOL_PARSER_FLAG, OnceWith(tokens, TOOL_PARSER_FLAG, APPROVED_TOOL_CALL_PARSER))
                        + Fault(tokens, AUTO_CHOICE_FLAG, true)
    ensures problems == [] <==>
              && OnceWith(tokens, REASONING_FLAG, APPROVED_REASONING_PARSER)
              && OnceWith(tokens, TOOL_PARSER_FLAG, APPROVED_TOOL_CALL_PARSER)
              && Once(tokens, AUTO_CHOICE_FLAG)
  {
    hide ValuesOf, Once, OnceWith, Fault, IsOption;
    problems := [];
    NotOptions();
    var reasoning := ValuesFor(tokens, REASONING_FLAG);
    var toolParser := ValuesFor(tokens, TOOL_PARSER_FLAG);
    var autoChoice := Count(tokens, AUTO_CHOICE_FLAG);
    OnceWithIsOnlyValue(tokens, REASONING_FLAG, APPROVED_REASONING_PARSER);
    OnceWithIsOnlyValue(tokens, TOOL_PARSER_FLAG, APPROVED_TOOL_CALL_PARSER);
    ghost var one := Fault(tokens, REASONING_FLAG, OnceWith(tokens, REASONING_FLAG, APPROVED_REASONING_PARSER));
    ghost var two := Fault(tokens, TOOL_PARSER_FLAG, OnceWith(tokens, TOOL_PARSER_FLAG, APPROVED_TOOL_CALL_PARSER));
    FaultByCount(tokens, REASONING_FLAG, OnceWith(tokens, REASONING_FLAG, APPROVED_REASONING_PARSER));
    FaultByCount(tokens, TOOL_PARSER_FLAG, OnceWith(tokens, TOOL_PARSER_FLAG, APPROVED_TOOL_CALL_PARSER));
    FaultByCount(tokens, AUTO_CHOICE_FLAG, true);

    if reasoning == [] {
      problems := problems + [Missing(REASONING_FLAG)];
    } else if |reasoning| != 1 {
      problems := problems + [Duplicate(REASONING_FLAG)];
    } else if reasoning[0] != APPROVED_REASONING_PARSER {
      problems := problems + [WrongValue(REASONING_FLAG)];
    }
    assert problems == one;

    if toolParser == [] {
      problems := problems + [Missing(TOOL_PARSER_FLAG)];
    } else if |toolParser| != 1 {
      problems := problems + [Duplicate(TOOL_PARSER_FLAG)];
    } else if toolParser[0] != APPROVED_TOOL_CALL_PARSER {
      problems := problems + [WrongValue(TOOL_PARSER_FLAG)];
    }
    assert problems == one + two;

    if autoChoice == 0 {
      problems := problems + [Missing(AUTO_CHOICE_FLAG)];
    } else if autoChoice != 1 {
      problems := problems + [Duplicate(AUTO_CHOICE_FLAG)];
    }
    EmptyExactly(tokens);
  }
}
