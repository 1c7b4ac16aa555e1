/**
 * The interactive `.env` writer: the overwrite confirmation, the prompts
 * that repeat until a required value is non-empty, and the three lines
 * written to the file. The answers typed at the prompts are a sequence
 * consumed in order; the file is the sequence of strings written to it.
 */
module SetupEnv {
  import opened Wrappers

  /** What `create_env_file` ends with. */
  datatype EnvOutcome =
    | Cancelled                    // existing file kept, nothing written
    | Written(lines: seq<string>)  // the strings written to `.env`, in order
    | InputExhausted               // a prompt met end of input (EOFError)

  const ApiKeyPrefix := "ZEP_API_KEY="
  const OpenAiKeyPrefix := "OPENAI_API_KEY="
  const OpenAiPlaceholder := "# OPENAI_API_KEY=your_openai_api_key_here"
  const GroupIdPrefix := "ZEP_GROUP_ID="

  /** `str.lower` on the ASCII letters. */
  function LowerChar(c: char): char
  {
    if 'A' <= c <= 'Z' then (c as int + 32) as char else c
  }

  function Lower(s: string): (r: string)
    ensures |r| == |s|
  {
    seq(|s|, i requires 0 <= i < |s| => LowerChar(s[i]))
  }

  /** The overwrite answer proceeds when it lowercases to "y". */
  predicate AcceptsOverwrite(answer: string)
  {
    Lower(answer) == "y"
  }

  /** Accepting is case-insensitive and nothing but "y" or "Y" accepts. */
  lemma AcceptsOverwriteExactly(answer: string)
    ensures AcceptsOverwrite(answer) <==> answer == "y" || answer == "Y"
  {
    if AcceptsOverwrite(answer) {
      assert |answer| == 1;
      assert LowerChar(answer[0]) == Lower(answer)[0] == 'y';
      assert answer == [answer[0]];
    } else {
      assert Lower("y") == "y";
      assert Lower("Y") == "y";
    }
  }

  /** The index of the first non-empty answer at or after `from`, if any. */
  function FirstNonEmpty(inputs: seq<string>, from: nat): (k: Option<nat>)
    requires from <= |inputs|
    decreases |inputs| - from
    ensures k.Some? ==> from <= k.value < |inputs| && inputs[k.value] != "" &&
                        forall j :: from <= j < k.value ==> inputs[j] == ""
    ensures k.None? ==> forall j :: from <= j < |inputs| ==> inputs[j] == ""
  {
    if from == |inputs| then None
    else if inputs[from] != "" then Some(from)
    else FirstNonEmpty(inputs, from + 1)
  }

  /** The three strings written to the file, each ending in a newline. */
  function EnvLines(apiKey: string, openAiKey: string, groupId: string): seq<string>
  {
    [ApiKeyPrefix + apiKey + "\n",
     (if openAiKey != "" then OpenAiKeyPrefix + openAiKey else OpenAiPlaceholder) + "\n",
     GroupIdPrefix + groupId + "\n"]
  }

  /**
   * The file has exactly three lines in a fixed order: the Zep key, the
   * OpenAI entry (its key, or a commented placeholder when skipped), and
   * the group id. Values as typed at a prompt hold no newline, so each
   * string written ends the one line it holds.
   */
  lemma EnvLinesShape(apiKey: string, openAiKey: string, groupId: string)
    requires '\n' !in apiKey && '\n' !in openAiKey && '\n' !in groupId
    ensures var lines := EnvLines(apiKey, openAiKey, groupId);
      |lines| == 3 &&
      lines[0] == ApiKeyPrefix + apiKey + "\n" &&
      lines[1] == (if openAiKey != "" then OpenAiKeyPrefix + openAiKey else OpenAiPlaceholder) + "\n" &&
      lines[2] == GroupIdPrefix + groupId + "\n" &&
      forall i :: 0 <= i < 3 ==>
        |lines[i]| > 0 && lines[i][|lines[i]| - 1] == '\n' && '\n' !in lines[i][..|lines[i]| - 1]
  {
    var lines := EnvLines(apiKey, openAiKey, groupId);
    assert lines[0][..|lines[0]| - 1] == ApiKeyPrefix + apiKey;
    assert lines[1][..|lines[1]| - 1] ==
      (if openAiKey != "" then OpenAiKeyPrefix + openAiKey else OpenAiPlaceholder);
    assert lines[2][..|lines[2]| - 1] == GroupIdPrefix + groupId;
  }

  /** Where the Zep key prompt starts reading: after the overwrite answer, if asked. */
  function KeyStart(envExists: bool): nat
  {
    if envExists then 1 else 0
  }

  /**
   * Reference definition of the whole dialogue: the first non-empty answer
   * is the Zep key, the next answer the optional OpenAI key, the first
   * non-empty answer after it the group id.
   */
  function EnvSpec(envExists: bool, inputs: seq<string>): EnvOutcome
  {
    if envExists && inputs == [] then InputExhausted
    else if envExists && !AcceptsOverwrite(inputs[0]) then Cancelled
    else
      match FirstNonEmpty(inputs, KeyStart(envExists))
      case None => InputExhausted
      case Some(k) =>
        if k + 1 == |inputs| then InputExhausted
        else
          match FirstNonEmpty(inputs, k + 2)
          case None => InputExhausted
          case Some(m) => Written(EnvLines(inputs[k], inputs[k + 1], inputs[m]))
  }

  /**
   * The run ends `Cancelled` exactly when the file exists, an answer is
   * given and it does not lowercase to "y". (End of input also writes
   * nothing, as `InputExhausted`.)
   */
  lemma CancelledExactly(envExists: bool, inputs: seq<string>)
    ensures EnvSpec(envExists, inputs) == Cancelled <==>
              envExists && inputs != [] && !AcceptsOverwrite(inputs[0])
  {
  }

  /**
   * A written file holds the first non-empty answer as the Zep key and the
   * first non-empty answer after the OpenAI prompt as the group id; both
   * are therefore non-empty.
   */
  lemma WrittenValues(envExists: bool, inputs: seq<string>)
    requires EnvSpec(envExists, inputs).Written?
    ensures exists k, m ::
              KeyStart(envExists) <= k && k + 2 <= m < |inputs| &&
              inputs[k] != "" && inputs[m] != "" &&
              (forall j :: KeyStart(envExists) <= j < k ==> inputs[j] == "") &&
              (forall j :: k + 2 <= j < m ==> inputs[j] == "") &&
              EnvSpec(envExists, inputs).lines == EnvLines(inputs[k], inputs[k + 1], inputs[m])
  {
    var k := FirstNonEmpty(inputs, KeyStart(envExists)).value;
    var m := FirstNonEmpty(inputs, k + 2).value;
    assert EnvSpec(envExists, inputs).lines == EnvLines(inputs[k], inputs[k + 1], inputs[m]);
  }

  /**
   * Example: an existing file, "Y" to overwrite, an empty key that is asked
   * again, a skipped OpenAI key and a group id asked twice.
   */
  lemma ConfirmWithCapitalY()
    ensures EnvSpec(true, ["Y", "", "k1", "", "", "g1"]) ==
      Written(["ZEP_API_KEY=k1\n", "# OPENAI_API_KEY=your_openai_api_key_here\n", "ZEP_GROUP_ID=g1\n"])
  {
    var inputs := ["Y", "", "k1", "", "", "g1"];
    AcceptsOverwriteExactly("Y");
    assert FirstNonEmpty(inputs, 2) == Some(2);
    assert FirstNonEmpty(inputs, 1) == Some(2);
    assert FirstNonEmpty(inputs, 5) == Some(5);
    assert FirstNonEmpty(inputs, 4) == Some(5);
    assert EnvSpec(true, inputs) == Written(EnvLines("k1", "", "g1"));
    assert ApiKeyPrefix + "k1" + "\n" == "ZEP_API_KEY=k1\n";
    assert OpenAiPlaceholder + "\n" == "# OPENAI_API_KEY=your_openai_api_key_here\n";
    assert GroupIdPrefix + "g1" + "\n" == "ZEP_GROUP_ID=g1\n";
  }

  /**
   * Reads one answer, or reports that the input is exhausted.
   */
  method Prompt(inputs: seq<string>, i: nat) returns (answer: Option<string>, next: nat)
    requires i <= |inputs|
    ensures i < |inputs| ==> answer == Some(inputs[i]) && next == i + 1
    ensures i == |inputs| ==> answer == None && next == i
  {
    if i == |inputs| {
      return None, i;
    }
    return Some(inputs[i]), i + 1;
  }

  /**
   * One required value: prompt, and prompt again while the answer is empty.
   * It yields the first non-empty answer from `i` on.
   */
  method ReadRequired(inputs: seq<string>, i: nat) returns (value: Option<string>, next: nat)
    requires i <= |inputs|
    ensures FirstNonEmpty(inputs, i).None? ==> value.None?
    ensures FirstNonEmpty(inputs, i).Some? ==>
              value == Some(inputs[FirstNonEmpty(inputs, i).value]) &&
              next == FirstNonEmpty(inputs, i).value + 1
  {
    var answer;
    answer, next := Prompt(inputs, i);
    if answer.None? {
      return None, next;
    }
    var v := answer.value;
    while v == ""
      invariant i < next <= |inputs| && v == inputs[next - 1]
      invariant FirstNonEmpty(inputs, i) == FirstNonEmpty(inputs, next - 1)
      decreases |inputs| - next
    {
      answer, next := Prompt(inputs, next);
      if answer.None? {
        return None, next;
      }
      v := answer.value;
    }
    value := Some(v);
  }

  /**
   * `create_env_file`: the confirmation, the two required values around the
   * optional one, then the three writes, one after the other.
   */
  method CreateEnvFile(envExists: bool, inputs: seq<string>) returns (outcome: EnvOutcome)
    ensures outcome == EnvSpec(envExists, inputs)
  {
    var i: nat := 0;
    var answer: Option<string>;
    if envExists {
      answer, i := Prompt(inputs, i);
      if answer.None? {
        return InputExhausted;
      }
      if Lower(answer.value) != "y" {
        return Cancelled;
      }
    }

    var apiKey;
    apiKey, i := ReadRequired(inputs, i);
    if apiKey.None? {
      return InputExhausted;
    }

    answer, i := Prompt(inputs, i);
    if answer.None? {
      return InputExhausted;
    }
    var openAiKey := answer.value;

    var groupId;
    groupId, i := ReadRequired(inputs, i);
    if groupId.None? {
      return InputExhausted;
    }

    var file: seq<string> := [];
    file := file + [ApiKeyPrefix + apiKey.value + "\n"];
    if openAiKey != "" {
      file := file + [OpenAiKeyPrefix + openAiKey + "\n"];
    } else {
      file := file + [OpenAiPlaceholder + "\n"];
    }
    file := file + [GroupIdPrefix + groupId.value + "\n"];
    outcome := Written(file);
  }
}
